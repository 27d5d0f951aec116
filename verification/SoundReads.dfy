/**
 * The exact condition, over whole blocks: it is enough that every slot a committed transaction loaded
 * is masked alike by the reset it found and by the reset it recorded.
 */
module SoundReads {
  import opened Types
  import opened Block
  import opened Evm
  import opened Lowering
  import opened Protocol
  import opened ProtocolInvariant
  import opened SteadyReads
  import opened SlotReads
  import WorldBlock

  /**
   * Every reset that was found is the one recorded in the end, or masks its slot alike; and nothing was
   * found unwritten that is final by now.
   */
  ghost predicate Sound(b: BlockSpec, s: State, j: TxId, r: TxResult)
    requires |s.mem| == |s.cells|
  {
    !Doomed(s, j, r.seen) && forall a, x :: ResetFor(a, x) in r.seen ==> SoundAt(b, s, r, a, x)
  }

  ghost predicate SoundAt(b: BlockSpec, s: State, r: TxResult, a: Address, x: Slot)
    requires ResetFor(a, x) in r.seen
  {
    || (StorageReset(a) in r.versions && r.seen[ResetFor(a, x)] == r.versions[StorageReset(a)])
    || MaskedAlike(b, s, r, a, x)
  }

  ghost predicate SoundBelow(b: BlockSpec, s: State, k: nat)
    requires k <= |s.cells| == |s.mem|
  {
    forall i: TxId :: i < k && s.cells[i].result.Some? ==> Sound(b, s, i, s.cells[i].result.value)
  }

  /** Everything committed is sound. */
  ghost predicate SoundLedger(b: BlockSpec, s: State) {
    s.ledger.committed <= |s.cells| == |s.mem| && SoundBelow(b, s, s.ledger.committed)
  }

  /** Of a final result, steadiness is more than enough. */
  lemma SteadyIsSound(b: BlockSpec, s: State, j: TxId)
    requires Inv(b, s) && j < s.finality && s.cells[j].result.Some? && Steady(s.cells[j].result.value)
    ensures |s.mem| == |s.cells| && Sound(b, s, j, s.cells[j].result.value)
  {
    assert FinalOk(b, s, j);
    hide Inv;
  }

  // ----- what a sound result found -----

  /** What each lookup of a final transaction found, and what it would have found otherwise. */
  function FoundBy(b: BlockSpec, cells: seq<Cell>, j: TxId, r: TxResult): Probe -> Value
    requires j <= |cells|
  {
    (q: Probe) => if q in r.obs then r.obs[q] else View(b, Merged(cells, j), q.location)
  }

  /** A lookup whose version was recorded in the end found what the results before leave. */
  lemma RecordedWasFound(b: BlockSpec, s: State, j: TxId, q: Probe)
    requires Inv(b, s) && j < s.finality && s.cells[j].result.Some?
    requires
      var r := s.cells[j].result.value;
      q in r.obs && q in r.seen && q.location in r.versions && r.seen[q] == r.versions[q.location]
    requires !Doomed(s, j, s.cells[j].result.value.seen)
    ensures s.cells[j].result.value.obs[q] == View(b, Merged(s.cells, j), q.location)
  {
    assert FinalOk(b, s, j) && ReadsOk(b, s, j);
    assert ReadOk(b, s, j, Vouched(s.cells[j]), q);
    hide Inv, FinalOk, Merged, Doomed;
    RecordedIsInForce(b, s, j, q.location);
  }

  lemma ResultFacts(b: BlockSpec, s: State, j: TxId)
    requires Inv(b, s) && j < s.finality
    ensures j < |b.txs| == |s.cells| == |s.mem| && s.cells[j].result.Some?
    ensures
      var r := s.cells[j].result.value;
      && RunOk(b, j, r.obs, r.execution) && r.obs.Keys == r.seen.Keys && Kept(r.seen, r.versions)
      && forall q <- r.obs :: Asks(b.txs[j].program, q)
  {
    assert FinalOk(b, s, j) && CellOk(b, s, j);
    hide Inv;
  }

  /** A location that is looked up once has the version found then in the read set. */
  lemma OnlyLookup(r: TxResult, l: Location)
    requires Kept(r.seen, r.versions) && (forall q <- r.seen :: OnceOnly(q))
    requires !l.StorageReset? && Once(l) in r.seen
    ensures l in r.versions && r.seen[Once(l)] == r.versions[l]
  {
    assert Found(r.seen, l, r.versions[l]);
  }

  /** On the locations that are looked up once, a final transaction found what the results before leave. */
  lemma FoundOnce(b: BlockSpec, s: State, j: TxId)
    requires Inv(b, s) && j < s.finality && |s.mem| == |s.cells| && s.cells[j].result.Some?
    requires !Doomed(s, j, s.cells[j].result.value.seen)
    requires forall q <- s.cells[j].result.value.seen :: OnceOnly(q)
    ensures AgreesOnce(FoundBy(b, s.cells, j, s.cells[j].result.value), ViewOf(b, Merged(s.cells, j)))
  {
    var r := s.cells[j].result.value;
    var f := FoundBy(b, s.cells, j, r);
    ResultFacts(b, s, j);
    hide Inv, Merged, Doomed, OnceOnly, Kept;
    forall l: Location | !l.StorageReset? ensures f(Once(l)) == View(b, Merged(s.cells, j), l) {
      if Once(l) in r.obs {
        OnlyLookup(r, l);
        RecordedWasFound(b, s, j, Once(l));
      }
    }
  }

  /** The two lookups for a slot amount to its word. */
  lemma FoundSlot(b: BlockSpec, s: State, j: TxId, a: Address, x: Slot)
    requires Inv(b, s) && j < s.finality && |s.mem| == |s.cells| && s.cells[j].result.Some?
    requires Sound(b, s, j, s.cells[j].result.value)
    requires forall q <- s.cells[j].result.value.seen :: OnceOnly(q)
    ensures
      var f, view := FoundBy(b, s.cells, j, s.cells[j].result.value), ViewOf(b, Merged(s.cells, j));
      SlotOf(f(ResetFor(a, x)), f(Once(Storage(a, x)))) == SlotOf(view(StorageReset(a)), view(Storage(a, x)))
  {
    var r := s.cells[j].result.value;
    var f, q := FoundBy(b, s.cells, j, r), ResetFor(a, x);
    ResultFacts(b, s, j);
    FoundOnce(b, s, j);
    hide Inv, Merged, Doomed, SlotOf, ValueOf, OnceOnly;
    assert f(Once(Storage(a, x))) == View(b, Merged(s.cells, j), Storage(a, x));
    if q in r.obs {
      assert SoundAt(b, s, r, a, x);
      if StorageReset(a) in r.versions && r.seen[q] == r.versions[StorageReset(a)] {
        RecordedWasFound(b, s, j, q);
      } else {
        assert MaskedAlike(b, s, r, a, x);
        RecordedIsInForce(b, s, j, StorageReset(a));
      }
    }
  }

  // ----- what it computed -----

  /** A sound result is what the transaction does on the state the results before it leave. */
  lemma SoundRuns(e: WorldBlock.EvmBlock, s: State, j: TxId)
    requires WorldBlock.HonestBlock(e) && Inv(WorldBlock.BlockOf(e), s) && j < s.finality
    requires j < |e.txs| == |WorldBlock.BlockOf(e).txs| == |s.cells| == |s.mem| && s.cells[j].result.Some?
    requires SequentialBelow(WorldBlock.BlockOf(e), s.cells, j)
    requires Sound(WorldBlock.BlockOf(e), s, j, s.cells[j].result.value)
    ensures s.cells[j].result.value.execution.Succeeded?
    ensures
      var b, run := WorldBlock.BlockOf(e), s.cells[j].result.value.execution;
      Run(b, b.txs[j].program, Merged(s.cells, j)) == Finish(run.writes, run.effect, run.receipt)
  {
    var b, r := WorldBlock.BlockOf(e), s.cells[j].result.value;
    var f, w, site := FoundBy(b, s.cells, j, r), WorldBlock.SequentialWorld(e, j), WorldBlock.SiteOf(e, j);
    var overlay := SequentialOverlay(b, j);
    assert Merged(s.cells, j) == overlay;
    ResultFacts(b, s, j);
    FoundIsTrue(e, s, j);
    WorldBlock.SequentialStands(e, j);
    WorldBlock.LoweredAt(e, j);
    hide Inv, Merged, WorldBlock.HonestBlock, WorldBlock.BlockOf, WorldBlock.SequentialWorld, SequentialBelow, Sound;
    hide TrueFinding, Execute, Lowered, SequentialOverlay, WorldBlock.Worker, Next, Explained;
    FindingIsFaithful(site, WorldBlock.Worker(e, j), f, w, e.codeOf);
    LoweringIsFaithful(b, site, WorldBlock.Worker(e, j), overlay, w, e.codeOf);
    FollowsThrough(b.txs[j].program, f, r.obs);
  }

  /** A run that finds explained observations, and is done with them, ends there. */
  lemma FollowsThrough(p: Program, f: Probe -> Value, obs: Observations)
    requires Explained(p, obs) && Yields(f, obs) && !Next(p, obs).Read?
    ensures Follow(p, f, map[]) == Next(p, obs)
  {
  }

  /** The journal keeps what it has loaded: the program looks up everything but resets once. */
  lemma LooksUpOnce(e: WorldBlock.EvmBlock, s: State, j: TxId)
    requires Inv(WorldBlock.BlockOf(e), s) && j < s.finality
    requires j < |e.txs| == |WorldBlock.BlockOf(e).txs| && s.cells[j].result.Some?
    ensures forall q <- s.cells[j].result.value.seen :: OnceOnly(q)
  {
    ResultFacts(WorldBlock.BlockOf(e), s, j);
    WorldBlock.LoweredAt(e, j);
    hide Inv, WorldBlock.BlockOf, Lowered, WorldBlock.Worker, Asks, OnceOnly;
    forall q <- s.cells[j].result.value.seen ensures OnceOnly(q) {
      AsksOnce(WorldBlock.SiteOf(e, j), WorldBlock.Worker(e, j), q);
    }
  }

  lemma FoundIsTrue(e: WorldBlock.EvmBlock, s: State, j: TxId)
    requires WorldBlock.HonestBlock(e) && Inv(WorldBlock.BlockOf(e), s) && j < s.finality
    requires j < |e.txs| == |WorldBlock.BlockOf(e).txs| == |s.cells| == |s.mem| && s.cells[j].result.Some?
    requires SequentialBelow(WorldBlock.BlockOf(e), s.cells, j)
    requires Sound(WorldBlock.BlockOf(e), s, j, s.cells[j].result.value)
    ensures
      var f := FoundBy(WorldBlock.BlockOf(e), s.cells, j, s.cells[j].result.value);
      TrueFinding(WorldBlock.SiteOf(e, j), f, WorldBlock.SequentialWorld(e, j), e.codeOf)
      && Yields(f, s.cells[j].result.value.obs)
  {
    var b, r := WorldBlock.BlockOf(e), s.cells[j].result.value;
    var f, w := FoundBy(b, s.cells, j, r), WorldBlock.SequentialWorld(e, j);
    var view := ViewOf(b, Merged(s.cells, j));
    assert Merged(s.cells, j) == SequentialOverlay(b, j);
    WorldBlock.SequentialStands(e, j);
    LooksUpOnce(e, s, j);
    FoundOnce(b, s, j);
    hide Inv, Merged, WorldBlock.HonestBlock, WorldBlock.BlockOf, WorldBlock.SequentialWorld, SequentialBelow, Sound;
    hide SequentialOverlay, Publication.CodeOk, TrueFinding, AgreesOnce;
    forall a, x ensures SlotOf(f(ResetFor(a, x)), f(Once(Storage(a, x)))) == w.slots(a, x) {
      FoundSlot(b, s, j, a, x);
      assert Publication.ResolveSlot(view, a, x) == w.slots(a, x);
    }
    AnswersTrue(WorldBlock.SiteOf(e, j), f, view, w, e.codeOf);
  }

  /** If the first `k` final results are sound they are the sequential ones. */
  lemma {:induction false} SoundIsSequential(e: WorldBlock.EvmBlock, s: State, k: nat)
    requires WorldBlock.HonestBlock(e) && Inv(WorldBlock.BlockOf(e), s)
    requires |e.txs| == |WorldBlock.BlockOf(e).txs| == |s.cells| == |s.mem|
    requires k <= s.finality <= |s.cells| && SoundBelow(WorldBlock.BlockOf(e), s, k)
    ensures SequentialBelow(WorldBlock.BlockOf(e), s.cells, k)
  {
    hide *;
    var b := WorldBlock.BlockOf(e);
    if k == 0 {
      NothingYet(b, s.cells);
    } else {
      SoundSooner(b, s, k);
      SoundIsSequential(e, s, k - 1);
      ResultFacts(b, s, k - 1);
      SoundRuns(e, s, k - 1);
      SequentialNext(b, s.cells, k - 1);
    }
  }

  lemma SoundSooner(b: BlockSpec, s: State, k: nat)
    requires 0 < k <= |s.cells| == |s.mem| && SoundBelow(b, s, k)
    ensures SoundBelow(b, s, k - 1)
    ensures s.cells[k - 1].result.Some? ==> Sound(b, s, k - 1, s.cells[k - 1].result.value)
  {
    hide Sound;
  }
}
