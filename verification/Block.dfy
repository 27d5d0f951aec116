/**
 * Transactions as deterministic programs over locations, and their execution one after another, which
 * the parallel scheduler must reproduce.
 */
module Block {
  import opened Types

  /**
   * One lookup of a location. A location may be looked up several times, each time for another
   * purpose: `turn` tells them apart. A worker looks up the storage reset of an account again for
   * every slot it loads, and may find something else each time.
   */
  datatype Probe = Probe(location: Location, turn: nat)

  type Observations = map<Probe, Value>
  type Overlay = map<Location, Value>

  /** What a transaction does next, given everything it has observed so far. */
  datatype Action =
    | Read(probe: Probe)
    | Finish(writes: map<Location, Value>, effect: Effect, receipt: Receipt)
    | Fail(error: EvmError)

  /** A program makes at most `limit` lookups: gas bounds every execution. */
  datatype Program = Program(limit: nat, step: Observations -> Action)

  /**
   * `program` is the transaction as a speculative worker runs it, with the nonce check disabled;
   * `nonceMatches` is the check ordered commit performs against the committed state.
   */
  datatype Transaction = Transaction(program: Program, nonceMatches: Overlay -> bool)

  /** `base` is the state at the start of the block. */
  datatype BlockSpec = BlockSpec(txs: seq<Transaction>, base: Location -> Value)

  /** History entries belong to the beneficiary component; a program never writes them itself. */
  predicate HistoryFree(writes: map<Location, Value>) {
    forall l <- writes :: !l.History?
  }

  /**
   * The next action with the journal's guarantees applied: what a lookup found is kept, the number
   * of lookups is bounded, and history entries are not written directly.
   */
  function Next(p: Program, obs: Observations): (a: Action)
    ensures a.Read? ==> a.probe !in obs && |obs| < p.limit
    ensures a.Finish? ==> HistoryFree(a.writes)
  {
    match p.step(obs)
    case Read(q) => if q in obs || |obs| >= p.limit then Fail(FatalError(0)) else Read(q)
    case Finish(w, e, r) => if HistoryFree(w) then Finish(w, e, r) else Fail(FatalError(1))
    case Fail(e) => Fail(e)
  }

  function View(b: BlockSpec, overlay: Overlay, l: Location): Value {
    if l in overlay then overlay[l] else b.base(l)
  }

  /** Run a program to completion against one fixed state, starting from what it has observed. */
  function RunFrom(b: BlockSpec, p: Program, overlay: Overlay, obs: Observations): (a: Action)
    ensures !a.Read?
    ensures a.Finish? ==> HistoryFree(a.writes)
    decreases p.limit - |obs|
  {
    match Next(p, obs)
    case Read(q) => RunFrom(b, p, overlay, obs[q := View(b, overlay, q.location)])
    case a => a
  }

  function Run(b: BlockSpec, p: Program, overlay: Overlay): (a: Action)
    ensures !a.Read?
    ensures a.Finish? ==> HistoryFree(a.writes)
  {
    RunFrom(b, p, overlay, map[])
  }

  /** Run a program to completion on whatever each single lookup finds. */
  function Follow(p: Program, f: Probe -> Value, obs: Observations): (a: Action)
    ensures !a.Read?
    ensures a.Finish? ==> HistoryFree(a.writes)
    decreases p.limit - |obs|
  {
    match Next(p, obs)
    case Read(q) => Follow(p, f, obs[q := f(q)])
    case a => a
  }

  /** Every lookup of a location finds what one fixed state holds. */
  function Fixed(b: BlockSpec, overlay: Overlay): Probe -> Value {
    (q: Probe) => View(b, overlay, q.location)
  }

  lemma {:induction false} FollowsFixed(b: BlockSpec, p: Program, overlay: Overlay, obs: Observations)
    ensures Follow(p, Fixed(b, overlay), obs) == RunFrom(b, p, overlay, obs)
    decreases p.limit - |obs|
  {
    var a := Next(p, obs);
    if a.Read? {
      FollowsFixed(b, p, overlay, obs[a.probe := View(b, overlay, a.probe.location)]);
    }
  }

  /** Everything transaction `j` writes: its locations and its own history entry. */
  function AllWrites(j: TxId, writes: map<Location, Value>, effect: Effect): map<Location, Value> {
    writes[History(j) := EffectValue(effect)]
  }

  /** The in-block state after the first `k` transactions ran one after another without nonce checks. */
  function SequentialOverlay(b: BlockSpec, k: nat): Overlay
    requires k <= |b.txs|
  {
    if k == 0 then map[] else
    var before := SequentialOverlay(b, k - 1);
    match Run(b, b.txs[k - 1].program, before)
    case Finish(w, e, _) => before + AllWrites(k - 1, w, e)
    case _ => before
  }

  function SequentialAction(b: BlockSpec, j: TxId): (a: Action)
    requires j < |b.txs|
    ensures !a.Read?
    ensures a.Finish? ==> HistoryFree(a.writes)
  {
    Run(b, b.txs[j].program, SequentialOverlay(b, j))
  }

  /**
   * Observations are explained when every run that finds them runs through them: the program made
   * exactly these lookups in an order its own answers determine.
   */
  ghost predicate Explained(p: Program, obs: Observations) {
    && (forall f: Probe -> Value :: Yields(f, obs) ==> Follow(p, f, map[]) == Follow(p, f, obs))
    && forall q <- obs :: Asks(p, q)
  }

  /** At some point the program makes this lookup. */
  ghost predicate Asks(p: Program, q: Probe) {
    exists obs: Observations :: Next(p, obs) == Read(q)
  }

  ghost predicate Yields(f: Probe -> Value, obs: Observations) {
    forall q <- obs :: f(q) == obs[q]
  }

  predicate Agrees(b: BlockSpec, overlay: Overlay, obs: Observations) {
    forall q <- obs :: obs[q] == View(b, overlay, q.location)
  }

  lemma ExplainedExtends(p: Program, obs: Observations, q: Probe, v: Value)
    requires Explained(p, obs)
    requires Next(p, obs) == Read(q)
    ensures Explained(p, obs[q := v])
  {
    forall f: Probe -> Value | Yields(f, obs[q := v]) ensures Follow(p, f, map[]) == Follow(p, f, obs[q := v]) {
      assert q !in obs && f(q) == obs[q := v][q];
      assert forall m <- obs :: m in obs[q := v] && obs[q := v][m] == obs[m];
      assert Yields(f, obs);
    }
  }

  /** A state that agrees with explained observations runs through them. */
  lemma ExplainedRuns(b: BlockSpec, p: Program, overlay: Overlay, obs: Observations)
    requires Explained(p, obs) && Agrees(b, overlay, obs)
    ensures Run(b, p, overlay) == RunFrom(b, p, overlay, obs)
  {
    FollowsFixed(b, p, overlay, map[]);
    FollowsFixed(b, p, overlay, obs);
    assert Yields(Fixed(b, overlay), obs);
  }
}
