/**
 * The invariant of the protocol: what each transaction's own cell guarantees, what its recorded
 * reads mean, and why an accepted validation stays true until finality consults it.
 */
module ProtocolInvariant {
  import opened Types
  import opened Block
  import opened Protocol

  type Memory = map<Location, Entry>

  // ----- one transaction's cell, memory and journal -----

  ghost predicate AllEstimates(m: Memory) {
    forall l <- m :: m[l].estimate
  }

  function LiveEntries(j: TxId, incarnation: nat, run: Execution): Memory
    requires run.Succeeded?
  {
    var w := AllWrites(j, run.writes, run.effect);
    map l | l in w.Keys :: Entry(incarnation, w[l], false)
  }

  /** Between incarnations: exactly the last write set is visible, and all of it as estimates. */
  ghost predicate Retired(c: Cell, m: Memory, j: TxId) {
    m.Keys == LastWrites(c) + {History(j)} && AllEstimates(m)
  }

  /** After a success: exactly this incarnation's writes are visible, none of them as an estimate. */
  ghost predicate Live(c: Cell, m: Memory, j: TxId) {
    && c.result.Some? && c.result.value.execution.Succeeded?
    && m == LiveEntries(j, c.incarnation, c.result.value.execution)
  }

  ghost predicate ResultOk(b: BlockSpec, c: Cell, j: TxId)
    requires j < |b.txs|
  {
    && c.result.Some? && c.result.value.execution.Succeeded?
    && var r := c.result.value;
    && RunOk(b, j, r.obs, r.execution)
    && r.obs.Keys == r.seen.Keys && Kept(r.seen, r.versions)
    && r.writeSet == r.execution.writes.Keys
  }

  ghost predicate RunOk(b: BlockSpec, j: TxId, obs: Observations, run: Execution)
    requires j < |b.txs|
  {
    && run.Succeeded?
    && Explained(b.txs[j].program, obs)
    && Next(b.txs[j].program, obs) == Finish(run.writes, run.effect, run.receipt)
  }

  /** Every location that was looked up has a version in the read set, and one of its lookups found it. */
  ghost predicate Kept(seen: Sources, versions: map<Location, Version>) {
    forall q <- seen :: q.location in versions && Found(seen, q.location, versions[q.location])
  }

  ghost predicate Found(seen: Sources, l: Location, v: Version) {
    exists q <- seen :: q.location == l && seen[q] == v
  }

  ghost predicate AttemptOk(at: Attempt) {
    at.obs.Keys == at.seen.Keys && Kept(at.seen, at.versions)
  }

  /** Entries already written by the running incarnation, and stale estimates everywhere else. */
  ghost predicate PartlyPublished(c: Cell, m: Memory, at: Attempt, run: Execution, done: set<Location>)
    requires run.Succeeded? && done <= run.writes.Keys
  {
    forall l <- m ::
      if l in done then m[l] == Entry(c.incarnation, run.writes[l], at.blocked) else m[l].estimate
  }

  /** Everything is published, the history entry included; as estimates if the attempt was blocked. */
  ghost predicate Noted(c: Cell, m: Memory, j: TxId, at: Attempt, run: Execution)
    requires run.Succeeded?
  {
    && m.Keys == run.writes.Keys + {History(j)}
    && if at.blocked then AllEstimates(m) else m == LiveEntries(j, c.incarnation, run)
  }

  ghost predicate PhaseOk(b: BlockSpec, c: Cell, m: Memory, j: TxId)
    requires j < |b.txs|
  {
    match c.phase
    case Free =>
      (match c.status
       case Initial => c.result.None? && Retired(c, m, j)
       case Executing => Retired(c, m, j)
       case Conflict => Retired(c, m, j)
       case _ => Live(c, m, j) && ResultOk(b, c, j))
    case Reading(at) =>
      && c.status == Executing && Retired(c, m, j)
      && Explained(b.txs[j].program, at.obs) && AttemptOk(at)
    case Fetching(at, q) =>
      && c.status == Executing && Retired(c, m, j)
      && Explained(b.txs[j].program, at.obs) && at.obs.Keys + {q} == at.seen.Keys && Kept(at.seen, at.versions)
      && Next(b.txs[j].program, at.obs) == Read(q)
      && q in at.seen && at.seen[q] == FromStorage
    case Publishing(at, run, todo) =>
      && c.status == Executing && RunOk(b, j, at.obs, run) && AttemptOk(at)
      && todo <= run.writes.Keys
      && m.Keys == LastWrites(c) + (run.writes.Keys - todo) + {History(j)}
      && PartlyPublished(c, m, at, run, run.writes.Keys - todo)
    case Trimming(at, run, todo) =>
      && c.status == Executing && RunOk(b, j, at.obs, run) && AttemptOk(at)
      && todo <= LastWrites(c) - run.writes.Keys
      && m.Keys == run.writes.Keys + todo + {History(j)}
      && PartlyPublished(c, m, at, run, run.writes.Keys)
    case Noting(at, run) =>
      && c.status == Executing && RunOk(b, j, at.obs, run) && AttemptOk(at) && Noted(c, m, j, at, run)
    case Failing(_, _, todo) =>
      c.status == Executing && Retired(c, m, j)
    case Dropping(_) =>
      c.status == Executing && Retired(c, m, j)
    case Stamping(target) =>
      target < |b.txs| && RewindOk(b, c, m, j, target)
    case Lowering(target, _) =>
      target < |b.txs| && RewindOk(b, c, m, j, target)
    case Scanning(_, todo, _) =>
      && c.status == Validating && Live(c, m, j) && ResultOk(b, c, j)
      && todo <= c.result.value.versions.Keys
    case Marking(todo) =>
      && c.status == Validating && ResultOk(b, c, j)
      && todo <= LastWrites(c)
      && m.Keys == LastWrites(c) + {History(j)}
      && (forall l <- m :: l in todo || l == History(j) || m[l].estimate)
      && History(j) in m && m[History(j)].incarnation == c.incarnation
  }

  /** A rewind starts at the transaction itself after a success and behind it after a conflict. */
  ghost predicate RewindOk(b: BlockSpec, c: Cell, m: Memory, j: TxId, target: TxId)
    requires j < |b.txs|
  {
    || (c.status == Conflict && target == j + 1 && Retired(c, m, j))
    || (c.status == Executed && target == j && Live(c, m, j) && ResultOk(b, c, j))
  }

  /** The journal explains every visible entry, and an incarnation publishes a location only once. */
  ghost predicate JournalOk(c: Cell, m: Memory, g: Journal) {
    && (forall l <- m :: (m[l].incarnation, l) in g && g[(m[l].incarnation, l)] == m[l].value)
    && (forall k <- g :: k.0 <= c.incarnation)
    && (forall k <- g :: k.0 == c.incarnation && c.status == Executing ==> PublishedBy(c, k.1))
  }

  ghost predicate PublishedBy(c: Cell, l: Location) {
    match c.phase
    case Publishing(_, run, todo) => run.Succeeded? && l in run.writes && l !in todo
    case Trimming(_, run, _) => run.Succeeded? && l in run.writes
    case Noting(_, run) => run.Succeeded? && (l in run.writes || l.History?)
    case Dropping(_) => l.History?
    case _ => false
  }

  ghost predicate CellOk(b: BlockSpec, s: State, j: TxId)
    requires Wellformed(b, s) && j < |b.txs|
  {
    CellGood(b, s.cells[j], s.mem[j], s.journal[j], j)
  }

  ghost predicate CellGood(b: BlockSpec, c: Cell, m: Memory, g: Journal, j: TxId)
    requires j < |b.txs|
  {
    PhaseOk(b, c, m, j) && JournalOk(c, m, g) && (forall l <- LastWrites(c) :: !l.History?)
  }

  // ----- what recorded reads mean -----

  datatype Claimed = Nothing | Claimed(obs: Observations, seen: Sources)

  /** The reads a transaction currently vouches for; blocked attempts vouch for nothing. */
  function Vouched(c: Cell): Claimed {
    match c.phase
    case Reading(at) => if at.blocked then Nothing else Claimed(at.obs, at.seen)
    case Fetching(at, _) => if at.blocked then Nothing else Claimed(at.obs, at.seen)
    case Publishing(at, _, _) => if at.blocked then Nothing else Claimed(at.obs, at.seen)
    case Trimming(at, _, _) => if at.blocked then Nothing else Claimed(at.obs, at.seen)
    case Noting(at, _) => if at.blocked then Nothing else Claimed(at.obs, at.seen)
    case _ =>
      if c.status in {Executed, Validating, Unconfirmed, Finality} && c.result.Some?
      then Claimed(c.result.value.obs, c.result.value.seen) else Nothing
  }

  /** Where a lookup was resolved determines what it observed. */
  ghost predicate ReadOk(b: BlockSpec, s: State, j: TxId, v: Claimed, q: Probe)
    requires Wellformed(b, s) && v.Claimed? && q in v.seen && q in v.obs
  {
    match v.seen[q]
    case FromTx(i, inc) =>
      i < j && i < |s.journal| && (inc, q.location) in s.journal[i] && s.journal[i][(inc, q.location)] == v.obs[q]
    case FromStorage => v.obs[q] == b.base(q.location) || Doomed(s, j, v.seen)
  }

  ghost predicate ReadsOk(b: BlockSpec, s: State, j: TxId)
    requires Wellformed(b, s) && j < |b.txs|
  {
    var v := Vouched(s.cells[j]);
    v.Claimed? ==> forall q :: q in v.obs && q in v.seen ==> ReadOk(b, s, j, v, q)
  }

  // ----- why accepted validations stay true -----

  /**
   * The worker inside this transaction may disturb later readers, but it has yet to publish a rewind
   * timestamp newer than `ts`.
   */
  ghost predicate Threat(c: Cell, ts: nat) {
    match c.phase
    case Publishing(at, run, _) => at.blocked || !run.Succeeded? || WritesNew(c, run)
    case Trimming(at, run, _) => at.blocked || !run.Succeeded? || WritesNew(c, run)
    case Noting(at, run) => at.blocked || !run.Succeeded? || WritesNew(c, run)
    case Marking(_) => true
    case Stamping(_) => true
    case Lowering(_, stamp) => stamp > ts
    case _ => false
  }

  ghost predicate Threatened(s: State, j: TxId, ts: nat)
    requires j <= |s.cells|
  {
    exists i :: 0 <= i < j && Threat(s.cells[i], ts)
  }

  ghost predicate Rewound(s: State, j: TxId, ts: nat)
    requires j < |s.lower|
  {
    exists i :: 0 <= i <= j && s.lower[i] > ts
  }

  /** A validation stamped `ts` can no longer lead to finality, so it may be wrong. */
  ghost predicate Excused(s: State, j: TxId, ts: nat)
    requires j < |s.cells| == |s.lower|
  {
    Threatened(s, j, ts) || Rewound(s, j, ts)
  }

  ghost predicate AcceptedOk(s: State, j: TxId, ts: nat, pending: set<Location>)
    requires j < |s.cells| == |s.lower| == |s.mem|
  {
    s.cells[j].result.Some? ==>
      forall l <- s.cells[j].result.value.versions ::
        l in pending || Current(s.mem, l, j, s.cells[j].result.value.versions[l]) || Excused(s, j, ts)
  }

  ghost predicate ScanOk(s: State, j: TxId)
    requires j < |s.cells| == |s.lower| == |s.mem| == |s.confirmed|
  {
    && s.confirmed[j] < s.clock
    && (s.cells[j].status == Unconfirmed && s.cells[j].phase.Free? ==>
          AcceptedOk(s, j, s.confirmed[j], {}))
    && (s.cells[j].phase.Lowering? ==> s.cells[j].phase.stamp < s.clock)
    && (s.cells[j].phase.Scanning? ==>
          && s.confirmed[j] < s.cells[j].phase.stamp < s.clock
          && (!s.cells[j].phase.conflict ==> AcceptedOk(s, j, s.cells[j].phase.stamp, s.cells[j].phase.todo)))
  }

  ghost predicate ClockOk(s: State) {
    forall i :: 0 <= i < |s.lower| ==> s.lower[i] < s.clock
  }

  // ----- tasks, finality and commit -----

  ghost predicate TaskOk(s: State, t: Task) {
    && t.txid < |s.cells|
    && s.cells[t.txid].phase.Free?
    && s.cells[t.txid].incarnation == t.incarnation
    && s.cells[t.txid].status == (if t.Execution? then Executing else Validating)
  }

  ghost predicate TasksOk(s: State) {
    forall t <- s.tasks :: TaskOk(s, t) && s.tasks[t] == 1
  }

  /** What the results of the first `k` transactions write, in order. */
  function Merged(cells: seq<Cell>, k: nat): Overlay
    requires k <= |cells|
  {
    if k == 0 then map[] else
    var before, result := Merged(cells, k - 1), cells[k - 1].result;
    if result.Some? && result.value.execution.Succeeded?
    then before + AllWrites(k - 1, result.value.execution.writes, result.value.execution.effect)
    else before
  }

  lemma {:induction false} MergedSame(cells: seq<Cell>, cells': seq<Cell>, k: nat)
    requires k <= |cells| && k <= |cells'|
    requires forall i :: 0 <= i < k ==> cells'[i].result == cells[i].result
    ensures Merged(cells', k) == Merged(cells, k)
  {
    if k > 0 {
      MergedSame(cells, cells', k - 1);
    }
  }

  /** A finalized transaction holds a result, and every version in its read set is in force. */
  ghost predicate FinalOk(b: BlockSpec, s: State, j: TxId)
    requires Wellformed(b, s) && j < |b.txs|
  {
    && s.cells[j].status == Finality && s.cells[j].phase.Free?
    && s.cells[j].result.Some? && s.cells[j].result.value.execution.Succeeded?
    && (forall l <- s.cells[j].result.value.versions ::
          Current(s.mem, l, j, s.cells[j].result.value.versions[l]))
  }

  /** The validation is newer than every rewind at or before its transaction. */
  ghost predicate Ahead(s: State, j: TxId)
    requires j < |s.lower| == |s.confirmed|
  {
    forall i :: 0 <= i <= j ==> s.lower[i] < s.confirmed[j]
  }

  ghost predicate FinalityOk(b: BlockSpec, s: State)
    requires Wellformed(b, s)
  {
    && (forall j :: 0 <= j < s.finality ==> FinalOk(b, s, j) && s.lower[j] <= s.lowerTs && Ahead(s, j))
    && (forall j :: s.finality <= j < |b.txs| ==> s.cells[j].status != Finality)
  }

  /** Transaction `j` has a result with this receipt, and its nonce fits what the results before it leave. */
  ghost predicate Accepts(b: BlockSpec, cells: seq<Cell>, j: TxId, receipt: Receipt)
    requires j < |cells| && j < |b.txs|
  {
    && cells[j].result.Some? && cells[j].result.value.execution.Succeeded?
    && cells[j].result.value.execution.receipt == receipt
    && b.txs[j].nonceMatches(Merged(cells, j))
  }

  /** Committed state is what the results of the committed transactions leave. */
  ghost predicate CommitOk(b: BlockSpec, s: State)
    requires Wellformed(b, s)
  {
    && |s.ledger.receipts| == s.ledger.committed
    && (forall j :: 0 <= j < s.ledger.committed ==> Accepts(b, s.cells, j, s.ledger.receipts[j]))
    && (s.ledger.applying.None? ==> s.ledger.overlay == Merged(s.cells, s.ledger.committed))
    && (s.ledger.applying.Some? ==>
          && s.ledger.committed < s.finality && !s.ledger.stopped
          && b.txs[s.ledger.committed].nonceMatches(Merged(s.cells, s.ledger.committed))
          && s.ledger.overlay + s.ledger.applying.value == Merged(s.cells, s.ledger.committed + 1))
    && (forall j <- s.ledger.taken ::
          || j < s.ledger.committed
          || (j == s.ledger.committed < s.finality && (s.ledger.applying.Some? || s.ledger.stopped)))
  }

  /** Committed state depends on final results only. */
  lemma CommitKept(b: BlockSpec, s: State, s': State)
    requires Wellformed(b, s) && Wellformed(b, s') && CommitOk(b, s)
    requires s'.ledger == s.ledger && s'.finality >= s.finality
    requires forall i :: 0 <= i < s.finality ==> s'.cells[i].result == s.cells[i].result
    ensures CommitOk(b, s')
  {
    var k := s.ledger.committed;
    forall j: nat | j <= s.finality ensures Merged(s'.cells, j) == Merged(s.cells, j) {
      MergedSame(s.cells, s'.cells, j);
    }
    hide Merged;
    forall j | 0 <= j < k ensures Accepts(b, s'.cells, j, s.ledger.receipts[j]) {
      assert Accepts(b, s.cells, j, s.ledger.receipts[j]);
    }
  }

  /**
   * No scheduler inconsistency has been detected, a fatal error was met at the commit head, and the
   * commit loop stops for a reason only.
   */
  ghost predicate Consistent(s: State) {
    && (s.ledger.stopped ==> s.abort.Some?)
    && (s.abort.Some? ==>
          match s.abort.value
          case ParallelError(_) => false
          case FatalEvmError(j) => j <= s.ledger.committed
          case _ => true)
  }

  ghost predicate Inv(b: BlockSpec, s: State) {
    && Wellformed(b, s)
    && (forall j :: 0 <= j < |b.txs| ==> CellOk(b, s, j))
    && (forall j :: 0 <= j < |b.txs| ==> ReadsOk(b, s, j))
    && (forall j :: 0 <= j < |b.txs| ==> ScanOk(s, j))
    && ClockOk(s)
    && TasksOk(s)
    && FinalityOk(b, s)
    && CommitOk(b, s)
    && Consistent(s)
  }

  // ----- lookups under a change of one transaction's memory -----

  lemma CurrentBelow(mem: seq<Memory>, j: nat, m: Memory, l: Location, k: nat, v: Version)
    requires k <= j < |mem|
    ensures Latest(mem[j := m], l, k) == Latest(mem, l, k)
    ensures Current(mem[j := m], l, k, v) == Current(mem, l, k, v)
  {
    var mem' := mem[j := m];
    assert forall i :: 0 <= i < k ==> mem'[i] == mem[i];
    var r, r' := Latest(mem, l, k), Latest(mem', l, k);
    if r.Some? {
      assert l in mem'[r.value];
    }
    if r'.Some? {
      assert l in mem[r'.value];
    }
  }

  /** Changing an entry that is an estimate, or not touching `l`, keeps every current version of `l`. */
  lemma CurrentAbove(mem: seq<Memory>, j: nat, m: Memory, l: Location, k: nat, v: Version)
    requires j < k <= |mem|
    requires Current(mem, l, k, v)
    requires
      || (l in mem[j] && mem[j][l].estimate)
      || ((l in mem[j] <==> l in m) && (l in m ==> m[l] == mem[j][l]))
    ensures Current(mem[j := m], l, k, v)
  {
    var mem' := mem[j := m];
    match Latest(mem, l, k)
    case None =>
      assert forall i :: 0 <= i < k ==> l !in mem'[i];
    case Some(i) =>
      assert i != j || l in m;
      assert forall x :: i < x < k ==> l !in mem'[x];
      assert l in mem'[i];
  }
}
