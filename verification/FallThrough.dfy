/**
 * Reads that fall through multi-version memory to the shared cache. Commits go on beside them, account
 * by account, and other readers fill the cache early or late. Such a read still gives what the block
 * started from, which is what committed locations show, unless the attempt that makes it is doomed.
 */
module FallThrough {
  import opened Types
  import opened Accounts
  import opened Publication
  import opened StateCache
  import opened CacheFill
  import opened Evm
  import opened Lowering
  import opened WorldBlock
  import opened CommitLoop
  import opened SteadyReads
  import Serializability

  // ----- one account in the cache -----

  /** `Late` inserts what a reader fetched after the first `since` happenings. */
  datatype Happening = Now(event: Event) | Late(slot: Slot, since: nat)

  function Reached(database: World, a: Address, hs: seq<Happening>): Moment
    decreases |hs|
  {
    if hs == [] then Moment(None, map[], database, false) else
    var m := Reached(database, a, hs[..|hs| - 1]);
    match hs[|hs| - 1]
    case Now(e) => CacheFill.Next(m, database, a, e)
    case Late(s, since) =>
      var looked := Reached(database, a, hs[..if since < |hs| then since else |hs| - 1]);
      m.(slots := Inserted(m.slots, s, Fetched(looked.cached, database, a, s)))
  }

  /** What a reader of slot `x` gets. */
  function ReadSlot(m: Moment, database: World, a: Address, x: Slot): Word {
    if x in m.slots then m.slots[x] else Fetched(m.cached, database, a, x)
  }

  function ReadInfo(m: Moment, database: World, a: Address): Option<Info> {
    if m.cached.Some? then m.cached.value.info else database.accounts(a)
  }

  /** No commit resets the account or changes slot `x`. */
  predicate SparesSlot(h: Happening, x: Slot) {
    h.Now? ==>
      match h.event
      case Wipe => false
      case Commit(account) => !Resets(account) && !(Survives(account) && SlotChanged(account, x))
      case _ => true
  }

  ghost predicate KeepsSlot(m: Moment, database: World, a: Address, x: Slot) {
    && (x in m.slots ==> m.slots[x] == database.slots(a, x))
    && (StorageKnown(m.cached) && x !in m.slots ==> database.slots(a, x) == 0)
    && (m.cached.Some? && m.cached.value.coverage.Loaded? ==> m.cached.value.info == database.accounts(a))
  }

  lemma SlotKept(m: Moment, database: World, a: Address, e: Event, x: Slot)
    requires NoOrphanSlots(database) && KeepsSlot(m, database, a, x) && SparesSlot(Now(e), x)
    ensures KeepsSlot(CacheFill.Next(m, database, a, e), database, a, x)
    ensures x in m.slots ==> x in CacheFill.Next(m, database, a, e).slots
  {
  }

  /** Whatever is inserted late, a slot that no commit touches keeps its word, and is not forgotten. */
  lemma {:induction false} SlotStays(database: World, a: Address, hs: seq<Happening>, x: Slot, k: nat)
    requires NoOrphanSlots(database) && (forall h <- hs :: SparesSlot(h, x)) && k <= |hs|
    ensures KeepsSlot(Reached(database, a, hs), database, a, x)
    ensures x in Reached(database, a, hs[..k]).slots ==> x in Reached(database, a, hs).slots
    decreases |hs|
  {
    if hs == [] {
      assert hs[..k] == hs;
    } else {
      var before, last := hs[..|hs| - 1], hs[|hs| - 1];
      var m := Reached(database, a, before);
      SlotStays(database, a, before, x, if k < |hs| then k else 0);
      assert k < |hs| ==> before[..k] == hs[..k];
      assert k == |hs| ==> hs[..k] == hs;
      match last
      case Now(e) => SlotKept(m, database, a, e, x);
      case Late(s, since) =>
        var n := if since < |hs| then since else |hs| - 1;
        assert before[..n] == hs[..n];
        SlotStays(database, a, before, x, n);
        SlotStays(database, a, before[..n], x, 0);
    }
  }

  /** No commit changes the account itself. */
  predicate SparesInfo(h: Happening, info: Option<Info>) {
    h.Now? && h.event.Commit? ==> InfoAfter(h.event.account, info) == info
  }

  lemma {:induction false} InfoStays(database: World, a: Address, hs: seq<Happening>)
    requires forall h <- hs :: SparesInfo(h, database.accounts(a))
    ensures ReadInfo(Reached(database, a, hs), database, a) == database.accounts(a)
    decreases |hs|
  {
    if hs != [] {
      InfoStays(database, a, hs[..|hs| - 1]);
      assert SparesInfo(hs[|hs| - 1], database.accounts(a));
    }
  }

  // ----- commits are those of final transactions -----

  /** Final transaction `i` leaves `a` as `account`. */
  ghost predicate Leaves(e: EvmBlock, i: TxId, a: Address, account: Account) {
    && i < |e.txs| && WorkerEnding(e, i, SequentialWorld(e, i)).move.Done?
    && a in OutcomeAt(e, i).changes && account == OutcomeAt(e, i).changes[a]
  }

  /** Whatever is being committed to the account, in whole or in part, some final transaction leaves. */
  ghost predicate Committing(e: EvmBlock, finality: nat, a: Address, hs: seq<Happening>) {
    forall h <- hs :: h.Now? ==>
      match h.event
      case Wipe => exists i: TxId, account :: i < finality && Leaves(e, i, a, account) && Resets(account)
      case Commit(account) => exists i: TxId :: i < finality && Leaves(e, i, a, account)
      case _ => true
  }

  /** The final results are the sequential ones. */
  ghost predicate InOrder(b: Block.BlockSpec, s: Protocol.State) {
    s.finality <= |s.cells| == |b.txs| && SequentialBelow(b, s.cells, s.finality)
  }

  /** A final transaction shows its sequential writes in memory. */
  lemma ShowsRun(b: Block.BlockSpec, s: Protocol.State, i: TxId)
    requires ProtocolInvariant.Inv(b, s) && i < s.finality && InOrder(b, s)
    ensures i < |b.txs| && i < |s.mem| && Block.SequentialAction(b, i).Finish?
    ensures forall l <- Block.SequentialAction(b, i).writes :: l in s.mem[i]
  {
    ProtocolSteps.FinalsLive(b, s);
    hide ProtocolInvariant.Inv, Block.SequentialAction, ProtocolInvariant.Merged, ProtocolInvariant.FinalOk;
    assert ProtocolInvariant.Live(s.cells[i], s.mem[i], i);
  }

  /** Those are the writes of its run over accounts. */
  lemma WorkerWrites(e: EvmBlock, i: TxId)
    requires HonestBlock(e) && i < |e.txs| == |BlockOf(e).txs| && Block.SequentialAction(BlockOf(e), i).Finish?
    ensures
      var end := WorkerEnding(e, i, SequentialWorld(e, i));
      && end.move.Done?
      && Publishes(Block.SequentialAction(BlockOf(e), i).writes, i, e.beneficiary, SnapshotsOf(end.answers),
           end.move.outcome.changes)
  {
    var w, overlay := SequentialWorld(e, i), Block.SequentialOverlay(BlockOf(e), i);
    SequentialStands(e, i);
    LoweredAt(e, i);
    LoweringIsFaithful(BlockOf(e), SiteOf(e, i), Worker(e, i), overlay, w, e.codeOf);
    hide StandsFor, Execute, Block.Run, Lowered, HonestBlock, BlockOf, Worker, Publishes;
    var end := WorkerEnding(e, i, w);
    assert end.move.Done?;
    WritesPublish(i, e.beneficiary, SnapshotsOf(end.answers), end.move.outcome.changes);
  }

  /** A final transaction shows in memory whatever its account changes publish. */
  lemma ShowsChange(e: EvmBlock, s: Protocol.State, i: TxId, a: Address, account: Account, l: Location)
    requires HonestBlock(e) && ProtocolInvariant.Inv(BlockOf(e), s) && i < s.finality
    requires InOrder(BlockOf(e), s) && |e.txs| == |BlockOf(e).txs|
    requires Leaves(e, i, a, account)
    requires
      || (l == StorageReset(a) && Resets(account))
      || (exists x :: l == Storage(a, x) && Survives(account) && SlotChanged(account, x))
    ensures i < |s.mem| && l in s.mem[i]
  {
    hide ProtocolInvariant.Inv, HonestBlock, BlockOf, InOrder, Block.SequentialAction, WorkerEnding;
    ShowsRun(BlockOf(e), s, i);
    WorkerWrites(e, i);
  }

  // ----- reads beside the commits -----

  /** An attempt that found neither a reset nor the slot, and is not doomed, reads the slot of the start. */
  lemma SlotFallsThrough(
    e: EvmBlock, s: Protocol.State, j: TxId, seen: Protocol.Sources, a: Address, x: Slot, hs: seq<Happening>)
    requires HonestBlock(e) && NoOrphanSlots(e.start) && |e.txs| == |BlockOf(e).txs|
    requires ProtocolInvariant.Inv(BlockOf(e), s) && s.finality <= j && InOrder(BlockOf(e), s)
    requires ResetFor(a, x) in seen && seen[ResetFor(a, x)] == Protocol.FromStorage
    requires Once(Storage(a, x)) in seen && seen[Once(Storage(a, x))] == Protocol.FromStorage
    requires Committing(e, s.finality, a, hs)
    ensures
      || Protocol.Doomed(s, j, seen)
      || SlotValue(None, ReadSlot(Reached(e.start, a, hs), e.start, a, x))
         == Block.View(BlockOf(e), s.ledger.overlay, Storage(a, x))
  {
    if !Protocol.Doomed(s, j, seen) {
      NoFinalWriter(s, j, seen, ResetFor(a, x));
      NoFinalWriter(s, j, seen, Once(Storage(a, x)));
      forall h <- hs ensures SparesSlot(h, x) {
        Spared(e, s, a, x, hs, h);
      }
      hide *;
      SlotStays(e.start, a, hs, x, 0);
      StaysIsRead(Reached(e.start, a, hs), e.start, a, x);
      ProtocolSteps.CommittedView(BlockOf(e), s, Storage(a, x));
      ShownIsBase(BlockOf(e), s, Storage(a, x));
      BaseSlot(e, a, x);
    }
  }

  lemma StaysIsRead(m: Moment, database: World, a: Address, x: Slot)
    requires KeepsSlot(m, database, a, x)
    ensures ReadSlot(m, database, a, x) == database.slots(a, x)
  {
  }

  lemma ShownIsBase(b: Block.BlockSpec, s: Protocol.State, l: Location)
    requires s.finality <= |s.mem| && ProtocolSteps.ShowsBase(b, s, l)
    requires forall i :: 0 <= i < s.finality ==> l !in s.mem[i]
    ensures Block.View(b, s.ledger.overlay, l) == b.base(l)
  {
  }

  lemma BaseSlot(e: EvmBlock, a: Address, x: Slot)
    ensures BlockOf(e).base(Storage(a, x)) == SlotValue(None, e.start.slots(a, x))
  {
  }

  lemma NoFinalWriter(s: Protocol.State, j: TxId, seen: Protocol.Sources, q: Block.Probe)
    requires |s.mem| == |s.cells| && s.finality <= |s.mem| && s.finality <= j && !Protocol.Doomed(s, j, seen)
    requires q in seen && seen[q] == Protocol.FromStorage
    ensures forall i :: 0 <= i < s.finality ==> q.location !in s.mem[i]
  {
  }

  lemma Spared(e: EvmBlock, s: Protocol.State, a: Address, x: Slot, hs: seq<Happening>, h: Happening)
    requires HonestBlock(e) && ProtocolInvariant.Inv(BlockOf(e), s) && |e.txs| == |BlockOf(e).txs|
    requires InOrder(BlockOf(e), s) && Committing(e, s.finality, a, hs) && h in hs
    requires s.finality <= |s.mem|
    requires forall i :: 0 <= i < s.finality ==> StorageReset(a) !in s.mem[i] && Storage(a, x) !in s.mem[i]
    ensures SparesSlot(h, x)
  {
    hide HonestBlock, ProtocolInvariant.Inv, BlockOf, Leaves, InOrder;
    if h.Now? && h.event.Wipe? {
      var i: TxId, account :| i < s.finality && Leaves(e, i, a, account) && Resets(account);
      ShowsChange(e, s, i, a, account, StorageReset(a));
    } else if h.Now? && h.event.Commit? {
      var account := h.event.account;
      var i: TxId :| i < s.finality && Leaves(e, i, a, account);
      if Resets(account) {
        ShowsChange(e, s, i, a, account, StorageReset(a));
      } else if Survives(account) && SlotChanged(account, x) {
        ShowsChange(e, s, i, a, account, Storage(a, x));
      }
    }
  }

  /** An attempt that found the account unwritten, and is not doomed, reads the account of the start. */
  lemma AccountFallsThrough(
    e: EvmBlock, s: Protocol.State, j: TxId, seen: Protocol.Sources, a: Address, hs: seq<Happening>)
    requires HonestBlock(e) && |e.txs| == |BlockOf(e).txs| && a != e.beneficiary
    requires ProtocolInvariant.Inv(BlockOf(e), s) && s.finality <= j && InOrder(BlockOf(e), s)
    requires Once(Basic(a)) in seen && seen[Once(Basic(a))] == Protocol.FromStorage
    requires Committing(e, s.finality, a, hs)
    ensures
      || Protocol.Doomed(s, j, seen)
      || AccountValue(ReadInfo(Reached(e.start, a, hs), e.start, a))
         == Block.View(BlockOf(e), s.ledger.overlay, Basic(a))
  {
    if !Protocol.Doomed(s, j, seen) {
      NoFinalWriter(s, j, seen, Once(Basic(a)));
      forall h <- hs ensures SparesInfo(h, e.start.accounts(a)) {
        InfoSpared(e, s, a, hs, h);
      }
      hide *;
      InfoStays(e.start, a, hs);
      ProtocolSteps.CommittedView(BlockOf(e), s, Basic(a));
      ShownIsBase(BlockOf(e), s, Basic(a));
      BaseAccount(e, a);
    }
  }

  lemma BaseAccount(e: EvmBlock, a: Address)
    ensures BlockOf(e).base(Basic(a)) == AccountValue(e.start.accounts(a))
  {
  }

  lemma InfoSpared(e: EvmBlock, s: Protocol.State, a: Address, hs: seq<Happening>, h: Happening)
    requires HonestBlock(e) && ProtocolInvariant.Inv(BlockOf(e), s) && |e.txs| == |BlockOf(e).txs|
    requires InOrder(BlockOf(e), s) && Committing(e, s.finality, a, hs) && h in hs && a != e.beneficiary
    requires s.finality <= |s.mem| == |e.txs| && forall i :: 0 <= i < s.finality ==> Basic(a) !in s.mem[i]
    ensures SparesInfo(h, e.start.accounts(a))
  {
    hide HonestBlock, ProtocolInvariant.Inv, BlockOf, InOrder, SequentialWorld, WorkerEnding;
    if h.Now? && h.event.Commit? {
      var account := h.event.account;
      var i: TxId :| i < s.finality && Leaves(e, i, a, account);
      SameAccount(e, s, i, a);
      SameAccount(e, s, i + 1, a);
      NextAccount(e, i, a);
    }
  }

  lemma NextAccount(e: EvmBlock, i: TxId, a: Address)
    requires i < |e.txs| && WorkerEnding(e, i, SequentialWorld(e, i)).move.Done? && a in OutcomeAt(e, i).changes
    ensures SequentialWorld(e, i + 1).accounts(a)
      == InfoAfter(OutcomeAt(e, i).changes[a], SequentialWorld(e, i).accounts(a))
  {
    hide WorkerEnding;
  }

  /** Where no final transaction has published the account, it is still that of the start. */
  lemma SameAccount(e: EvmBlock, s: Protocol.State, k: nat, a: Address)
    requires HonestBlock(e) && ProtocolInvariant.Inv(BlockOf(e), s) && |e.txs| == |BlockOf(e).txs|
    requires InOrder(BlockOf(e), s) && k <= s.finality <= |e.txs| && a != e.beneficiary
    requires s.finality <= |s.mem| && forall i :: 0 <= i < s.finality ==> Basic(a) !in s.mem[i]
    ensures SequentialWorld(e, k).accounts(a) == e.start.accounts(a)
  {
    hide HonestBlock, ProtocolInvariant.Inv, BlockOf, InOrder, SequentialWorld, Block.SequentialOverlay;
    SequentialStands(e, k);
    NotInOverlay(BlockOf(e), s, k, Basic(a));
    BaseAccount(e, a);
    ResolvesBase(e, Block.SequentialOverlay(BlockOf(e), k), k, SequentialWorld(e, k), a);
  }

  lemma ResolvesBase(e: EvmBlock, overlay: Block.Overlay, k: nat, w: World, a: Address)
    requires StandsFor(e, overlay, k, w) && Basic(a) !in overlay && a != e.beneficiary
    ensures w.accounts(a) == e.start.accounts(a)
  {
    hide CodeOk;
    assert ResolveAccount(ViewOf(BlockOf(e), overlay), e.beneficiary, k, a) == w.accounts(a);
  }

  lemma {:induction false} NotInOverlay(b: Block.BlockSpec, s: Protocol.State, k: nat, l: Location)
    requires ProtocolInvariant.Inv(b, s) && InOrder(b, s) && k <= s.finality <= |b.txs|
    requires s.finality <= |s.mem| && forall i :: 0 <= i < s.finality ==> l !in s.mem[i]
    ensures l !in Block.SequentialOverlay(b, k)
  {
    hide ProtocolInvariant.Inv, InOrder, Block.SequentialOverlay, Block.SequentialAction;
    NextOverlay(b, k, l);
    if k > 0 {
      NotInOverlay(b, s, k - 1, l);
      ShowsRun(b, s, k - 1);
      ShowsHistory(b, s, k - 1);
    }
  }

  lemma NextOverlay(b: Block.BlockSpec, k: nat, l: Location)
    requires k <= |b.txs|
    ensures k == 0 ==> l !in Block.SequentialOverlay(b, k)
    ensures k > 0 && l in Block.SequentialOverlay(b, k) ==>
      var a := Block.SequentialAction(b, k - 1);
      l in Block.SequentialOverlay(b, k - 1) || l == History(k - 1) || (a.Finish? && l in a.writes)
  {
    hide Block.Run;
  }

  lemma ShowsHistory(b: Block.BlockSpec, s: Protocol.State, i: TxId)
    requires ProtocolInvariant.Inv(b, s) && i < s.finality
    ensures i < |s.mem| && History(i) in s.mem[i]
  {
  }

  // ----- over runs -----

  /**
   * In every state of every run whose final results are the sequential ones: whatever part of the final changes has
   * reached the cache, and whatever was inserted late, an attempt that falls through to the cache reads
   * what committed locations show, or it is doomed and will be rejected.
   */
  lemma CacheShowsCommittedState(
    e: EvmBlock, trace: seq<Protocol.State>, k: nat, j: TxId, seen: Protocol.Sources, a: Address, x: Slot,
    hs: seq<Happening>)
    requires HonestBlock(e) && NoOrphanSlots(e.start) && Protocol.IsRun(BlockOf(e), trace) && k < |trace|
    requires InOrder(BlockOf(e), trace[k])
    requires trace[k].finality <= j && Committing(e, trace[k].finality, a, hs)
    ensures |trace[k].mem| == |trace[k].cells|
    ensures
      var s, m := trace[k], Reached(e.start, a, hs);
      || Protocol.Doomed(s, j, seen)
      || (&& (FoundNothing(seen, ResetFor(a, x)) && FoundNothing(seen, Once(Storage(a, x))) ==>
               SlotValue(None, ReadSlot(m, e.start, a, x)) == Block.View(BlockOf(e), s.ledger.overlay, Storage(a, x)))
          && (FoundNothing(seen, Once(Basic(a))) && a != e.beneficiary ==>
               AccountValue(ReadInfo(m, e.start, a)) == Block.View(BlockOf(e), s.ledger.overlay, Basic(a))))
  {
    hide *;
    Serializability.RunKeeps(BlockOf(e), trace, k);
    SizesMatch(e, trace[k]);
    if FoundNothing(seen, ResetFor(a, x)) && FoundNothing(seen, Once(Storage(a, x))) {
      FoundIsThere(seen, ResetFor(a, x));
      FoundIsThere(seen, Once(Storage(a, x)));
      SlotFallsThrough(e, trace[k], j, seen, a, x, hs);
    }
    if FoundNothing(seen, Once(Basic(a))) && a != e.beneficiary {
      FoundIsThere(seen, Once(Basic(a)));
      AccountFallsThrough(e, trace[k], j, seen, a, hs);
    }
  }

  /** The lookup found nothing in multi-version memory. */
  predicate FoundNothing(seen: Protocol.Sources, q: Block.Probe) {
    q in seen && seen[q] == Protocol.FromStorage
  }

  lemma FoundIsThere(seen: Protocol.Sources, q: Block.Probe)
    requires FoundNothing(seen, q)
    ensures q in seen && seen[q] == Protocol.FromStorage
  {
  }

  lemma SizesMatch(e: EvmBlock, s: Protocol.State)
    requires ProtocolInvariant.Inv(BlockOf(e), s)
    ensures |e.txs| == |BlockOf(e).txs| == |s.mem| == |s.cells|
  {
  }
}
