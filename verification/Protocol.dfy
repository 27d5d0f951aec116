/**
 * The speculate / validate / finalize / commit protocol as a state machine.
 *
 * One step is one access to shared memory: a lookup, one published or removed or marked location,
 * one validated location, one clock tick, one timestamp update, one committed location. Each
 * transaction's lock is its `phase`: while it is not `Free` exactly one worker is inside
 * `execute_task` or `validate` for that transaction, at the point the phase names.
 *
 * Scheduling is left open: any eligible transaction may be claimed at any time, under every
 * dependency graph and every cursor position. Lookups are as the workers' database makes them: a
 * location may be looked up again, and its read set then keeps only the last version found.
 */
module Protocol {
  import opened Types
  import opened Block

  /** One transaction's version of one location. */
  datatype Entry = Entry(incarnation: nat, value: Value, estimate: bool)

  /** Where a read was resolved. */
  datatype Version = FromStorage | FromTx(txid: TxId, incarnation: nat)

  datatype Execution = Succeeded(writes: map<Location, Value>, effect: Effect, receipt: Receipt)
    | Failed(error: EvmError)

  /** Where each lookup was resolved. A history variable: what is kept and validated is less. */
  type Sources = map<Probe, Version>

  datatype TxResult = TxResult(
    obs: Observations, seen: Sources, versions: map<Location, Version>, writeSet: set<Location>, execution: Execution)

  /**
   * What the running incarnation has read. `versions` is its read set, which holds one version per
   * location: a later lookup overwrites what an earlier one recorded. `blocked` is set once it has
   * read an estimate.
   */
  datatype Attempt = Attempt(obs: Observations, seen: Sources, versions: map<Location, Version>, blocked: bool)

  datatype Phase =
    | Free
    | Reading(at: Attempt)
    | Fetching(at: Attempt, probe: Probe)
    | Publishing(at: Attempt, run: Execution, todo: set<Location>)
    | Trimming(at: Attempt, run: Execution, todo: set<Location>)
    | Noting(at: Attempt, run: Execution)
    | Failing(error: EvmError, blocked: bool, todo: set<Location>)
    | Dropping(blocked: bool)
    | Stamping(target: TxId)
    | Lowering(target: TxId, stamp: nat)
    | Scanning(stamp: nat, todo: set<Location>, conflict: bool)
    | Marking(todo: set<Location>)

  datatype Cell = Cell(status: Status, incarnation: nat, result: Option<TxResult>, phase: Phase)

  datatype Task = Execution(txid: TxId, incarnation: nat) | Validation(txid: TxId, incarnation: nat)

  datatype AbortReason =
    | FatalEvmError(txid: TxId)
    | CommitError(txid: TxId)
    | ParallelError(txid: TxId)
    | FallbackSequential

  /** What one transaction ever published: incarnation and location to value. A history variable. */
  type Journal = map<(nat, Location), Value>

  /**
   * `mem[i]` holds the entries transaction `i` currently has in multi-version memory, including its
   * beneficiary history entry. `lower` and `confirmed` are the rewind and validation timestamps;
   * `lowerTs` is the running maximum carried by the finality loop.
   */
  datatype State = State(
    cells: seq<Cell>,
    mem: seq<map<Location, Entry>>,
    journal: seq<Journal>,
    tasks: multiset<Task>,
    clock: nat,
    lower: seq<nat>,
    confirmed: seq<nat>,
    finality: nat,
    lowerTs: nat,
    ledger: Ledger,
    abort: Option<AbortReason>)

  /**
   * The ordered commit loop: `applying` is the part of the committing transaction not yet in
   * `overlay`, and `taken` are the results it has consumed. `failed` is the loop's own error: it could
   * not load what it needed to commit the next transaction.
   */
  datatype Ledger = Ledger(
    committed: nat,
    taken: set<TxId>,
    applying: Option<map<Location, Value>>,
    stopped: bool,
    failed: bool,
    overlay: Overlay,
    receipts: seq<Receipt>)

  function Init(b: BlockSpec): State {
    var n := |b.txs|;
    State(
      seq(n, (i: nat) => Cell(Initial, 0, None, Free)),
      seq(n, (i: nat) => map[History(i) := Entry(0, EffectValue(Unchanged), true)]),
      seq(n, (i: nat) => map[(0, History(i)) := EffectValue(Unchanged)]),
      multiset{}, 1, seq(n, (i: nat) => 0), seq(n, (i: nat) => 0), 0, 0,
      Ledger(0, {}, None, false, false, map[], []), None)
  }

  /** The newest writer of `l` below `j`. */
  function Latest(mem: seq<map<Location, Entry>>, l: Location, j: nat): (r: Option<TxId>)
    requires j <= |mem|
    ensures r.Some? ==> r.value < j && l in mem[r.value]
    ensures forall i :: (if r.Some? then r.value + 1 else 0) <= i < j ==> l !in mem[i]
  {
    if j == 0 then None
    else if l in mem[j - 1] then Some(j - 1)
    else Latest(mem, l, j - 1)
  }

  /** A recorded version is current when a fresh lookup resolves to it and finds no estimate. */
  predicate Current(mem: seq<map<Location, Entry>>, l: Location, j: nat, v: Version)
    requires j <= |mem|
  {
    match Latest(mem, l, j)
    case None => v == FromStorage
    case Some(i) => !mem[i][l].estimate && v == FromTx(i, mem[i][l].incarnation)
  }

  function LastWrites(c: Cell): set<Location> {
    if c.result.Some? then c.result.value.writeSet else {}
  }

  /** Whether this run touches a location the previous incarnation did not. */
  predicate WritesNew(c: Cell, run: Execution)
    requires run.Succeeded?
  {
    c.result.None? || !(run.writes.Keys <= c.result.value.writeSet)
  }

  /**
   * The attempt found a location unwritten that a finalized predecessor has in fact written.
   * Committed state may then already show that write, or values it implies elsewhere.
   */
  ghost predicate Doomed(s: State, j: TxId, seen: Sources)
    requires |s.mem| == |s.cells|
  {
    exists i, q :: 0 <= i < s.finality && i < j && i < |s.mem| && q in seen && seen[q] == FromStorage
      && q.location in s.mem[i]
  }

  /** No lookup found anything but what the read set records for its location in the end. */
  predicate Steady(r: TxResult) {
    forall q <- r.seen :: q.location in r.versions && r.seen[q] == r.versions[q.location]
  }

  datatype Step =
    | ClaimExecution(j: TxId)
    | ClaimValidation(j: TxId)
    | BeginExecution(task: Task)
    | Lookup(j: TxId, value: Value)
    | Fetch(j: TxId, value: Value)
    | Complete(j: TxId)
    | Publish(j: TxId, l: Location)
    | EndPublish(j: TxId)
    | Trim(j: TxId, l: Location)
    | Record(j: TxId)
    | Conclude(j: TxId, handoff: bool)
    | MarkFailed(j: TxId, l: Location)
    | Discard(j: TxId)
    | Drop(j: TxId)
    | Stamp(j: TxId)
    | Lower(j: TxId)
    | BeginValidation(task: Task)
    | Check(j: TxId, l: Location)
    | EndScan(j: TxId)
    | Mark(j: TxId, l: Location)
    | Invalidate(j: TxId)
    | Finalize
    | TakeResult(databaseFails: bool)
    | ApplyWrite(l: Location)
    | PublishCommit

  predicate Wellformed(b: BlockSpec, s: State) {
    var n := |b.txs|;
    && |s.cells| == |s.mem| == |s.journal| == |s.lower| == |s.confirmed| == n
    && s.ledger.committed <= s.finality <= n
    && (forall i :: 0 <= i < n ==> History(i) in s.mem[i])
  }

  // ----- updates of one component -----

  function WithCell(s: State, j: TxId, c: Cell): State
    requires j < |s.cells|
  {
    s.(cells := s.cells[j := c])
  }

  function WithPhase(s: State, j: TxId, p: Phase): State
    requires j < |s.cells|
  {
    WithCell(s, j, s.cells[j].(phase := p))
  }

  function WithEntry(s: State, j: TxId, l: Location, e: Entry): State
    requires j < |s.mem| == |s.journal|
  {
    s.(mem := s.mem[j := s.mem[j][l := e]], journal := s.journal[j := s.journal[j][(e.incarnation, l) := e.value]])
  }

  function Estimated(m: map<Location, Entry>, l: Location): map<Location, Entry> {
    if l in m then m[l := m[l].(estimate := true)] else m
  }

  function WithEstimate(s: State, j: TxId, l: Location): State
    requires j < |s.mem|
  {
    s.(mem := s.mem[j := Estimated(s.mem[j], l)])
  }

  /** The first abort cause is kept. */
  function Aborted(s: State, reason: AbortReason): State {
    if s.abort.None? then s.(abort := Some(reason)) else s
  }

  /** A rewind past the last transaction does nothing. */
  function RewindPhase(n: nat, target: TxId): Phase {
    if target < n then Stamping(target) else Free
  }

  // ----- claims -----

  predicate CanClaimExecution(b: BlockSpec, s: State, j: TxId)
    requires Wellformed(b, s)
  {
    j < |b.txs| && s.cells[j].phase.Free? && s.cells[j].status in {Initial, Conflict}
  }

  function ClaimExecutionStep(b: BlockSpec, s: State, j: TxId): State
    requires Wellformed(b, s) && CanClaimExecution(b, s, j)
  {
    var c := s.cells[j];
    WithCell(s, j, c.(status := Executing, incarnation := c.incarnation + 1))
      .(tasks := s.tasks + multiset{Execution(j, c.incarnation + 1)})
  }

  predicate CanClaimValidation(b: BlockSpec, s: State, j: TxId)
    requires Wellformed(b, s)
  {
    j < |b.txs| && s.cells[j].phase.Free? && s.cells[j].status in {Executed, Unconfirmed}
  }

  function ClaimValidationStep(b: BlockSpec, s: State, j: TxId): State
    requires Wellformed(b, s) && CanClaimValidation(b, s, j)
  {
    var c := s.cells[j];
    WithCell(s, j, c.(status := Validating)).(tasks := s.tasks + multiset{Validation(j, c.incarnation)})
  }

  // ----- execute_task -----

  predicate CanBeginExecution(b: BlockSpec, s: State, task: Task)
    requires Wellformed(b, s)
  {
    task in s.tasks && task.Execution? && task.txid < |b.txs| && s.cells[task.txid].phase.Free?
  }

  function BeginExecutionStep(b: BlockSpec, s: State, task: Task): State
    requires Wellformed(b, s) && CanBeginExecution(b, s, task)
  {
    var j := task.txid;
    var s1 := s.(tasks := s.tasks - multiset{task});
    if s.cells[j].status != Executing then s1
    else if s.cells[j].incarnation != task.incarnation then Aborted(s1, ParallelError(j))
    else WithPhase(s1, j, Reading(Attempt(map[], map[], map[], false)))
  }

  /** What the running incarnation does next. */
  function Wanted(b: BlockSpec, s: State, j: TxId): Action
    requires Wellformed(b, s) && j < |b.txs| && s.cells[j].phase.Reading?
  {
    Next(b.txs[j].program, s.cells[j].phase.at.obs)
  }

  /** Reading an estimate blocks the attempt; the value it then continues with is of no consequence. */
  predicate CanLookup(b: BlockSpec, s: State, j: TxId, value: Value)
    requires Wellformed(b, s)
  {
    && j < |b.txs| && s.cells[j].phase.Reading?
    && Wanted(b, s, j).Read?
    && var l := Wanted(b, s, j).probe.location;
    && var writer := Latest(s.mem, l, j);
    && (writer.Some? && !s.mem[writer.value][l].estimate ==> value == s.mem[writer.value][l].value)
  }

  function LookupStep(b: BlockSpec, s: State, j: TxId, value: Value): State
    requires Wellformed(b, s) && CanLookup(b, s, j, value)
  {
    var at := s.cells[j].phase.at;
    var q := Wanted(b, s, j).probe;
    WithPhase(s, j, Looked(at, q, Latest(s.mem, q.location, j), s.mem, value))
  }

  /** The attempt once a lookup was resolved; the read set keeps the last version of each location. */
  function Resolved(at: Attempt, q: Probe, v: Version): Attempt {
    at.(seen := at.seen[q := v], versions := at.versions[q.location := v])
  }

  function Looked(at: Attempt, q: Probe, writer: Option<TxId>, mem: seq<map<Location, Entry>>, value: Value): Phase
    requires writer.Some? ==> writer.value < |mem| && q.location in mem[writer.value]
  {
    match writer
    case None => Fetching(Resolved(at, q, FromStorage), q)
    case Some(i) =>
      var e := mem[i][q.location];
      Reading(Resolved(at, q, FromTx(i, e.incarnation))
        .(obs := at.obs[q := value], blocked := at.blocked || e.estimate))
  }

  ghost predicate CanFetch(b: BlockSpec, s: State, j: TxId, value: Value)
    requires Wellformed(b, s)
  {
    && j < |b.txs| && s.cells[j].phase.Fetching?
    && var p := s.cells[j].phase;
    && (value == View(b, s.ledger.overlay, p.probe.location) || Doomed(s, j, p.at.seen))
  }

  ghost function FetchStep(b: BlockSpec, s: State, j: TxId, value: Value): State
    requires Wellformed(b, s) && CanFetch(b, s, j, value)
  {
    var p := s.cells[j].phase;
    WithPhase(s, j, Reading(p.at.(obs := p.at.obs[p.probe := value])))
  }

  predicate CanComplete(b: BlockSpec, s: State, j: TxId)
    requires Wellformed(b, s)
  {
    j < |b.txs| && s.cells[j].phase.Reading? && !Wanted(b, s, j).Read?
  }

  /** A finished run publishes its writes; a failed one retires what its predecessor published. */
  function Completed(c: Cell, a: Action): Phase
    requires c.phase.Reading? && !a.Read?
  {
    match a
    case Finish(w, e, r) => Publishing(c.phase.at, Succeeded(w, e, r), w.Keys)
    case Fail(error) => Failing(error, c.phase.at.blocked, LastWrites(c))
  }

  function CompleteStep(b: BlockSpec, s: State, j: TxId): State
    requires Wellformed(b, s) && CanComplete(b, s, j)
  {
    WithPhase(s, j, Completed(s.cells[j], Wanted(b, s, j)))
  }

  predicate CanPublish(b: BlockSpec, s: State, j: TxId, l: Location)
    requires Wellformed(b, s)
  {
    && j < |b.txs| && s.cells[j].phase.Publishing? && l in s.cells[j].phase.todo
    && s.cells[j].phase.run.Succeeded? && l in s.cells[j].phase.run.writes
  }

  function PublishStep(b: BlockSpec, s: State, j: TxId, l: Location): State
    requires Wellformed(b, s) && CanPublish(b, s, j, l)
  {
    var p := s.cells[j].phase;
    WithEntry(WithPhase(s, j, Publishing(p.at, p.run, p.todo - {l})), j, l,
              Entry(s.cells[j].incarnation, p.run.writes[l], p.at.blocked))
  }

  predicate CanEndPublish(b: BlockSpec, s: State, j: TxId)
    requires Wellformed(b, s)
  {
    j < |b.txs| && s.cells[j].phase.Publishing? && s.cells[j].phase.todo == {} && s.cells[j].phase.run.Succeeded?
  }

  function EndPublishStep(b: BlockSpec, s: State, j: TxId): State
    requires Wellformed(b, s) && CanEndPublish(b, s, j)
  {
    var p := s.cells[j].phase;
    WithPhase(s, j, Trimming(p.at, p.run, LastWrites(s.cells[j]) - p.run.writes.Keys))
  }

  predicate CanTrim(b: BlockSpec, s: State, j: TxId, l: Location)
    requires Wellformed(b, s)
  {
    j < |b.txs| && s.cells[j].phase.Trimming? && l in s.cells[j].phase.todo
  }

  function TrimStep(b: BlockSpec, s: State, j: TxId, l: Location): State
    requires Wellformed(b, s) && CanTrim(b, s, j, l)
  {
    var p := s.cells[j].phase;
    WithPhase(s, j, Trimming(p.at, p.run, p.todo - {l})).(mem := s.mem[j := s.mem[j] - {l}])
  }

  predicate CanRecord(b: BlockSpec, s: State, j: TxId)
    requires Wellformed(b, s)
  {
    j < |b.txs| && s.cells[j].phase.Trimming? && s.cells[j].phase.todo == {} && s.cells[j].phase.run.Succeeded?
  }

  /** Publish the history entry. */
  function RecordStep(b: BlockSpec, s: State, j: TxId): State
    requires Wellformed(b, s) && CanRecord(b, s, j)
  {
    var c := s.cells[j];
    if c.incarnation <= s.mem[j][History(j)].incarnation then
      Aborted(WithPhase(s, j, Free), ParallelError(j))
    else
      WithEntry(WithPhase(s, j, Noting(c.phase.at, c.phase.run)), j, History(j),
                Entry(c.incarnation, EffectValue(c.phase.run.effect), c.phase.at.blocked))
  }

  predicate CanConclude(b: BlockSpec, s: State, j: TxId)
    requires Wellformed(b, s)
  {
    j < |b.txs| && s.cells[j].phase.Noting? && s.cells[j].phase.run.Succeeded?
  }

  /** How a finished run leaves its transaction, and whether it goes on to validate itself. */
  function Recorded(n: nat, c: Cell, j: TxId, handoff: bool): Cell
    requires c.phase.Noting? && c.phase.run.Succeeded?
  {
    var p := c.phase;
    var result := Some(TxResult(p.at.obs, p.at.seen, p.at.versions, p.run.writes.Keys, p.run));
    if p.at.blocked then Cell(Conflict, c.incarnation, result, RewindPhase(n, j + 1))
    else if handoff || WritesNew(c, p.run) then Cell(Executed, c.incarnation, result, RewindPhase(n, j))
    else Cell(Validating, c.incarnation, result, Free)
  }

  /** Store the result and decide what follows, once the dependents have been released. */
  function ConcludeStep(b: BlockSpec, s: State, j: TxId, handoff: bool): State
    requires Wellformed(b, s) && CanConclude(b, s, j)
  {
    var c := s.cells[j];
    var c' := Recorded(|b.txs|, c, j, handoff);
    var s' := WithCell(s, j, c');
    if c'.status == Validating then s'.(tasks := s.tasks + multiset{Validation(j, c.incarnation)}) else s'
  }

  predicate CanMarkFailed(b: BlockSpec, s: State, j: TxId, l: Location)
    requires Wellformed(b, s)
  {
    j < |b.txs| && s.cells[j].phase.Failing? && l in s.cells[j].phase.todo
  }

  function MarkFailedStep(b: BlockSpec, s: State, j: TxId, l: Location): State
    requires Wellformed(b, s) && CanMarkFailed(b, s, j, l)
  {
    var p := s.cells[j].phase;
    WithEstimate(WithPhase(s, j, Failing(p.error, p.blocked, p.todo - {l})), j, l)
  }

  predicate CanDiscard(b: BlockSpec, s: State, j: TxId)
    requires Wellformed(b, s)
  {
    j < |b.txs| && s.cells[j].phase.Failing? && s.cells[j].phase.todo == {}
  }

  /** A failed run keeps the previous write set as estimates; at the commit head it aborts the block. */
  function DiscardStep(b: BlockSpec, s: State, j: TxId): State
    requires Wellformed(b, s) && CanDiscard(b, s, j)
  {
    var c := s.cells[j];
    var p := c.phase;
    if c.incarnation <= s.mem[j][History(j)].incarnation then
      Aborted(WithPhase(s, j, Free), ParallelError(j))
    else
      var result := Some(TxResult(map[], map[], map[], LastWrites(c), Failed(p.error)));
      var s' := WithEntry(WithCell(s, j, c.(result := result, phase := Dropping(p.blocked))),
                          j, History(j), Entry(c.incarnation, EffectValue(Unchanged), true));
      if !p.blocked && s.ledger.committed == j then
        Aborted(s', if p.error.InvalidTransaction? then FallbackSequential else FatalEvmError(j))
      else s'
  }

  predicate CanDrop(b: BlockSpec, s: State, j: TxId)
    requires Wellformed(b, s)
  {
    j < |b.txs| && s.cells[j].phase.Dropping?
  }

  /** The failure is on record, and the transaction back in the graph. */
  function DropStep(b: BlockSpec, s: State, j: TxId): State
    requires Wellformed(b, s) && CanDrop(b, s, j)
  {
    WithCell(s, j, s.cells[j].(status := Conflict, phase := RewindPhase(|b.txs|, j + 1)))
  }

  // ----- rewinds -----

  predicate CanStamp(b: BlockSpec, s: State, j: TxId)
    requires Wellformed(b, s)
  {
    j < |b.txs| && s.cells[j].phase.Stamping?
  }

  function StampStep(b: BlockSpec, s: State, j: TxId): State
    requires Wellformed(b, s) && CanStamp(b, s, j)
  {
    WithPhase(s, j, Lowering(s.cells[j].phase.target, s.clock)).(clock := s.clock + 1)
  }

  predicate CanLower(b: BlockSpec, s: State, j: TxId)
    requires Wellformed(b, s)
  {
    j < |b.txs| && s.cells[j].phase.Lowering? && s.cells[j].phase.target < |b.txs|
  }

  function LowerStep(b: BlockSpec, s: State, j: TxId): State
    requires Wellformed(b, s) && CanLower(b, s, j)
  {
    var p := s.cells[j].phase;
    WithPhase(s, j, Free).(lower := s.lower[p.target := Max(s.lower[p.target], p.stamp)])
  }

  // ----- validate -----

  predicate CanBeginValidation(b: BlockSpec, s: State, task: Task)
    requires Wellformed(b, s)
  {
    task in s.tasks && task.Validation? && task.txid < |b.txs| && s.cells[task.txid].phase.Free?
  }

  /** The timestamp is taken before the scan starts. */
  function BeginValidationStep(b: BlockSpec, s: State, task: Task): State
    requires Wellformed(b, s) && CanBeginValidation(b, s, task)
  {
    var j := task.txid;
    var c := s.cells[j];
    var s1 := s.(tasks := s.tasks - multiset{task});
    if c.status != Validating then s1
    else if c.incarnation != task.incarnation then Aborted(s1, ParallelError(j))
    else if c.result.None? || j in s.ledger.taken then Aborted(s1, ParallelError(j))
    else if c.result.value.execution.Failed? then Aborted(s1, ParallelError(j))
    else WithPhase(s1, j, Scanning(s.clock, c.result.value.versions.Keys, false)).(clock := s.clock + 1)
  }

  predicate CanCheck(b: BlockSpec, s: State, j: TxId, l: Location)
    requires Wellformed(b, s)
  {
    && j < |b.txs| && s.cells[j].phase.Scanning? && l in s.cells[j].phase.todo
    && s.cells[j].result.Some? && l in s.cells[j].result.value.versions
  }

  function CheckStep(b: BlockSpec, s: State, j: TxId, l: Location): State
    requires Wellformed(b, s) && CanCheck(b, s, j, l)
  {
    var p := s.cells[j].phase;
    var valid := Current(s.mem, l, j, s.cells[j].result.value.versions[l]);
    WithPhase(s, j, Scanning(p.stamp, p.todo - {l}, p.conflict || !valid))
  }

  predicate CanEndScan(b: BlockSpec, s: State, j: TxId)
    requires Wellformed(b, s)
  {
    j < |b.txs| && s.cells[j].phase.Scanning? && s.cells[j].phase.todo == {}
  }

  function EndScanStep(b: BlockSpec, s: State, j: TxId): State
    requires Wellformed(b, s) && CanEndScan(b, s, j)
  {
    var c := s.cells[j];
    if c.phase.conflict then
      WithPhase(s, j, Marking(LastWrites(c)))
    else
      WithCell(s, j, c.(status := Unconfirmed, phase := Free))
        .(confirmed := s.confirmed[j := Max(s.confirmed[j], c.phase.stamp)])
  }

  predicate CanMark(b: BlockSpec, s: State, j: TxId, l: Location)
    requires Wellformed(b, s)
  {
    j < |b.txs| && s.cells[j].phase.Marking? && l in s.cells[j].phase.todo
  }

  function MarkStep(b: BlockSpec, s: State, j: TxId, l: Location): State
    requires Wellformed(b, s) && CanMark(b, s, j, l)
  {
    WithEstimate(WithPhase(s, j, Marking(s.cells[j].phase.todo - {l})), j, l)
  }

  predicate CanInvalidate(b: BlockSpec, s: State, j: TxId)
    requires Wellformed(b, s)
  {
    j < |b.txs| && s.cells[j].phase.Marking? && s.cells[j].phase.todo == {}
  }

  function InvalidateStep(b: BlockSpec, s: State, j: TxId): State
    requires Wellformed(b, s) && CanInvalidate(b, s, j)
  {
    var c := s.cells[j];
    if s.mem[j][History(j)].incarnation != c.incarnation then
      Aborted(WithPhase(s, j, Free), ParallelError(j))
    else
      WithEstimate(WithCell(s, j, c.(status := Conflict, phase := RewindPhase(|b.txs|, j + 1))), j, History(j))
  }

  // ----- finality and commit -----

  predicate CanFinalize(b: BlockSpec, s: State)
    requires Wellformed(b, s)
  {
    && s.finality < |b.txs|
    && s.cells[s.finality].phase.Free?
    && s.cells[s.finality].status == Unconfirmed
    && s.confirmed[s.finality] > Max(s.lowerTs, s.lower[s.finality])
  }

  function FinalizeStep(b: BlockSpec, s: State): State
    requires Wellformed(b, s) && CanFinalize(b, s)
  {
    var j := s.finality;
    WithCell(s, j, s.cells[j].(status := Finality))
      .(finality := j + 1, lowerTs := Max(s.lowerTs, s.lower[j]))
  }

  predicate CanTakeResult(b: BlockSpec, s: State)
    requires Wellformed(b, s)
  {
    !s.ledger.stopped && s.ledger.applying.None? && s.ledger.committed < s.finality
  }

  /** Take the next finalized result, check its nonce against committed state, and start applying it. */
  function TakeResultStep(b: BlockSpec, s: State, databaseFails: bool): State
    requires Wellformed(b, s) && CanTakeResult(b, s)
  {
    var j := s.ledger.committed;
    var c := s.cells[j];
    var halted := s.(ledger := s.ledger.(stopped := true, taken := s.ledger.taken + {j}));
    if c.result.None? || j in s.ledger.taken then
      Aborted(s.(ledger := s.ledger.(stopped := true)), ParallelError(j))
    else
      match c.result.value.execution
      case Failed(_) => Aborted(halted, ParallelError(j))
      case Succeeded(w, e, r) =>
        if databaseFails then Aborted(halted.(ledger := halted.ledger.(failed := true)), CommitError(j))
        else if !b.txs[j].nonceMatches(s.ledger.overlay) then Aborted(halted, FallbackSequential)
        else s.(ledger := s.ledger.(taken := s.ledger.taken + {j}, applying := Some(AllWrites(j, w, e))))
  }

  predicate CanApplyWrite(b: BlockSpec, s: State, l: Location)
    requires Wellformed(b, s)
  {
    s.ledger.applying.Some? && l in s.ledger.applying.value
  }

  function ApplyWriteStep(b: BlockSpec, s: State, l: Location): State
    requires Wellformed(b, s) && CanApplyWrite(b, s, l)
  {
    var todo := s.ledger.applying.value;
    s.(ledger := s.ledger.(overlay := s.ledger.overlay[l := todo[l]], applying := Some(todo - {l})))
  }

  predicate CanPublishCommit(b: BlockSpec, s: State)
    requires Wellformed(b, s)
  {
    && s.ledger.applying == Some(map[]) && s.ledger.committed < s.finality
    && s.cells[s.ledger.committed].result.Some?
    && s.cells[s.ledger.committed].result.value.execution.Succeeded?
  }

  function PublishCommitStep(b: BlockSpec, s: State): State
    requires Wellformed(b, s) && CanPublishCommit(b, s)
  {
    s.(ledger := s.ledger.(
         committed := s.ledger.committed + 1,
         applying := None,
         receipts := s.ledger.receipts + [s.cells[s.ledger.committed].result.value.execution.receipt]))
  }

  // ----- runs -----

  /** Steps of an execution, as opposed to validation, finality and commit. */
  predicate OnExecution(step: Step) {
    match step
    case ClaimExecution(_) => true
    case BeginExecution(_) => true
    case Lookup(_, _) => true
    case Fetch(_, _) => true
    case Complete(_) => true
    case Publish(_, _) => true
    case EndPublish(_) => true
    case Trim(_, _) => true
    case Record(_) => true
    case Conclude(_, _) => true
    case MarkFailed(_, _) => true
    case Discard(_) => true
    case Drop(_) => true
    case _ => false
  }

  ghost predicate CanExecute(b: BlockSpec, s: State, step: Step)
    requires Wellformed(b, s)
  {
    match step
    case ClaimExecution(j) => CanClaimExecution(b, s, j)
    case BeginExecution(task) => CanBeginExecution(b, s, task)
    case Lookup(j, value) => CanLookup(b, s, j, value)
    case Fetch(j, value) => CanFetch(b, s, j, value)
    case Complete(j) => CanComplete(b, s, j)
    case Publish(j, l) => CanPublish(b, s, j, l)
    case EndPublish(j) => CanEndPublish(b, s, j)
    case Trim(j, l) => CanTrim(b, s, j, l)
    case Record(j) => CanRecord(b, s, j)
    case Conclude(j, _) => CanConclude(b, s, j)
    case MarkFailed(j, l) => CanMarkFailed(b, s, j, l)
    case Discard(j) => CanDiscard(b, s, j)
    case Drop(j) => CanDrop(b, s, j)
    case _ => false
  }

  ghost predicate CanValidate(b: BlockSpec, s: State, step: Step)
    requires Wellformed(b, s)
  {
    match step
    case ClaimValidation(j) => CanClaimValidation(b, s, j)
    case BeginValidation(task) => CanBeginValidation(b, s, task)
    case Stamp(j) => CanStamp(b, s, j)
    case Lower(j) => CanLower(b, s, j)
    case Check(j, l) => CanCheck(b, s, j, l)
    case EndScan(j) => CanEndScan(b, s, j)
    case Mark(j, l) => CanMark(b, s, j, l)
    case Invalidate(j) => CanInvalidate(b, s, j)
    case Finalize => CanFinalize(b, s)
    case TakeResult(_) => CanTakeResult(b, s)
    case ApplyWrite(l) => CanApplyWrite(b, s, l)
    case PublishCommit => CanPublishCommit(b, s)
    case _ => false
  }

  ghost predicate Enabled(b: BlockSpec, s: State, step: Step)
    requires Wellformed(b, s)
  {
    if OnExecution(step) then CanExecute(b, s, step) else CanValidate(b, s, step)
  }

  ghost function ApplyExecution(b: BlockSpec, s: State, step: Step): State
    requires Wellformed(b, s) && CanExecute(b, s, step)
  {
    match step
    case ClaimExecution(j) => ClaimExecutionStep(b, s, j)
    case BeginExecution(task) => BeginExecutionStep(b, s, task)
    case Lookup(j, value) => LookupStep(b, s, j, value)
    case Fetch(j, value) => FetchStep(b, s, j, value)
    case Complete(j) => CompleteStep(b, s, j)
    case Publish(j, l) => PublishStep(b, s, j, l)
    case EndPublish(j) => EndPublishStep(b, s, j)
    case Trim(j, l) => TrimStep(b, s, j, l)
    case Record(j) => RecordStep(b, s, j)
    case Conclude(j, handoff) => ConcludeStep(b, s, j, handoff)
    case MarkFailed(j, l) => MarkFailedStep(b, s, j, l)
    case Discard(j) => DiscardStep(b, s, j)
    case Drop(j) => DropStep(b, s, j)
    case _ => s
  }

  ghost function ApplyValidation(b: BlockSpec, s: State, step: Step): State
    requires Wellformed(b, s) && CanValidate(b, s, step)
  {
    match step
    case ClaimValidation(j) => ClaimValidationStep(b, s, j)
    case BeginValidation(task) => BeginValidationStep(b, s, task)
    case Stamp(j) => StampStep(b, s, j)
    case Lower(j) => LowerStep(b, s, j)
    case Check(j, l) => CheckStep(b, s, j, l)
    case EndScan(j) => EndScanStep(b, s, j)
    case Mark(j, l) => MarkStep(b, s, j, l)
    case Invalidate(j) => InvalidateStep(b, s, j)
    case Finalize => FinalizeStep(b, s)
    case TakeResult(fails) => TakeResultStep(b, s, fails)
    case ApplyWrite(l) => ApplyWriteStep(b, s, l)
    case PublishCommit => PublishCommitStep(b, s)
    case _ => s
  }

  ghost function Apply(b: BlockSpec, s: State, step: Step): State
    requires Wellformed(b, s) && Enabled(b, s, step)
  {
    if OnExecution(step) then ApplyExecution(b, s, step) else ApplyValidation(b, s, step)
  }

  ghost predicate IsStep(b: BlockSpec, s: State, s': State) {
    Wellformed(b, s) && exists step :: Enabled(b, s, step) && s' == Apply(b, s, step)
  }

  /** A run: every interleaving of workers, the finality loop and the commit loop. */
  ghost predicate IsRun(b: BlockSpec, trace: seq<State>) {
    && |trace| > 0
    && trace[0] == Init(b)
    && forall k :: 0 <= k < |trace| - 1 ==> IsStep(b, trace[k], trace[k + 1])
  }
}
