/**
 * Retries end at the finality index: an execution that begins when everything before it is final
 * reads only what will never change, is never blocked, is never rejected by validation, and ends as
 * the transaction ends on the state the final results leave.
 */
module LastAttempt {
  import opened Types
  import opened Block
  import opened Protocol
  import opened ProtocolInvariant
  import opened ProtocolSteps
  import opened ProtocolPublish
  import opened ProtocolValidate
  import opened Serializability
  import opened SteadyReads

  function ActionOf(run: Execution): Action {
    match run
    case Succeeded(w, e, r) => Finish(w, e, r)
    case Failed(error) => Fail(error)
  }

  /** Run on the state `before`, the transaction ends like this. */
  ghost predicate Does(b: BlockSpec, i: TxId, before: Overlay, run: Execution) {
    i < |b.txs| && Run(b, b.txs[i].program, before) == ActionOf(run)
  }

  /** Every recorded version, and every version found on the way, is the one in force below `i`. */
  ghost predicate ReadsHold(seen: Sources, versions: map<Location, Version>, mem: seq<Memory>, i: TxId)
    requires i <= |mem|
  {
    AllCurrent(mem, i, seen) && forall l <- versions :: Current(mem, l, i, versions[l])
  }

  ghost predicate ResultHolds(b: BlockSpec, r: TxResult, mem: seq<Memory>, before: Overlay, i: TxId)
    requires i <= |mem|
  {
    r.execution.Succeeded? && ReadsHold(r.seen, r.versions, mem, i) && Does(b, i, before, r.execution)
  }

  ghost predicate AttemptHolds(at: Attempt, mem: seq<Memory>, i: TxId)
    requires i <= |mem|
  {
    !at.blocked && ReadsHold(at.seen, at.versions, mem, i)
  }

  ghost predicate RunHolds(b: BlockSpec, run: Execution, before: Overlay, i: TxId) {
    run.Succeeded? && Does(b, i, before, run)
  }

  /**
   * The incarnation is on its way to finality: it is not blocked, no scan finds a conflict, nothing
   * marks it; if it is in conflict at all, its execution ended in an EVM error. However it ends, the
   * transaction ends so on the state `before`.
   */
  ghost predicate Holds(b: BlockSpec, c: Cell, mem: seq<Memory>, before: Overlay, i: TxId)
    requires i <= |mem|
  {
    match c.phase
    case Reading(at) => AttemptHolds(at, mem, i)
    case Fetching(at, _) => AttemptHolds(at, mem, i)
    case Publishing(at, run, _) => AttemptHolds(at, mem, i) && RunHolds(b, run, before, i)
    case Trimming(at, run, _) => AttemptHolds(at, mem, i) && RunHolds(b, run, before, i)
    case Noting(at, run) => AttemptHolds(at, mem, i) && RunHolds(b, run, before, i)
    case Failing(error, blocked, _) => !blocked && Does(b, i, before, Failed(error))
    case Dropping(blocked) =>
      && !blocked && c.result.Some? && c.result.value.execution.Failed?
      && Does(b, i, before, c.result.value.execution)
    case Scanning(_, _, conflict) =>
      !conflict && c.status == Validating && c.result.Some? && ResultHolds(b, c.result.value, mem, before, i)
    case Marking(_) => false
    case _ =>
      && c.result.Some?
      && var r := c.result.value;
      && if c.status == Conflict then r.execution.Failed? && Does(b, i, before, r.execution)
         else c.status in {Executed, Validating, Unconfirmed, Finality} && ResultHolds(b, r, mem, before, i)
  }

  lemma {:induction false} LatestBelow(mem: seq<Memory>, mem': seq<Memory>, l: Location, i: nat)
    requires i <= |mem| && i <= |mem'| && forall j :: 0 <= j < i ==> mem'[j] == mem[j]
    ensures Latest(mem', l, i) == Latest(mem, l, i)
  {
    if i > 0 {
      LatestBelow(mem, mem', l, i - 1);
    }
  }

  /** Only memory below `i` matters. */
  lemma HoldsBelow(b: BlockSpec, c: Cell, mem: seq<Memory>, mem': seq<Memory>, before: Overlay, i: TxId)
    requires i <= |mem| && i <= |mem'| && forall j :: 0 <= j < i ==> mem'[j] == mem[j]
    requires Holds(b, c, mem, before, i)
    ensures Holds(b, c, mem', before, i)
  {
    hide Does;
    forall l: Location, v: Version ensures Current(mem', l, i, v) == Current(mem, l, i, v) {
      LatestBelow(mem, mem', l, i);
    }
  }

  /** Everything below the finality index is final, and shows no estimates. */
  lemma FinalsShowNoEstimates(b: BlockSpec, s: State, i: TxId, l: Location)
    requires Inv(b, s) && i <= s.finality
    ensures i <= |s.mem|
    ensures
      var writer := Latest(s.mem, l, i);
      writer.Some? ==> !s.mem[writer.value][l].estimate
  {
    FinalsLive(b, s);
    hide FinalOk;
  }

  // ----- the steps of `i` itself -----

  lemma LookupHolds(b: BlockSpec, s: State, i: TxId, value: Value, before: Overlay)
    requires Inv(b, s) && i <= s.finality && i < |b.txs| && CanLookup(b, s, i, value)
    requires i <= |s.mem| && Holds(b, s.cells[i], s.mem, before, i)
    ensures Holds(b, LookupStep(b, s, i, value).cells[i], s.mem, before, i)
  {
    var q := Wanted(b, s, i).probe;
    FinalsShowNoEstimates(b, s, i, q.location);
    hide Inv, Holds, Looked, Next;
    LookedHolds(b, s.cells[i], s.mem, before, i, q, value);
  }

  lemma LookedHolds(b: BlockSpec, c: Cell, mem: seq<Memory>, before: Overlay, i: TxId, q: Probe, value: Value)
    requires i <= |mem| && c.phase.Reading? && Holds(b, c, mem, before, i)
    requires
      var writer := Latest(mem, q.location, i);
      writer.Some? ==> !mem[writer.value][q.location].estimate
    ensures Holds(b, c.(phase := Looked(c.phase.at, q, Latest(mem, q.location, i), mem, value)), mem, before, i)
  {
  }

  /** An execution that ends has seen the final state only, so it ends as it does on that state. */
  lemma CompleteHolds(b: BlockSpec, s: State, i: TxId)
    requires Inv(b, s) && i <= s.finality && i < |b.txs| && CanComplete(b, s, i)
    requires i <= |s.mem| && Holds(b, s.cells[i], s.mem, Merged(s.cells, i), i)
    ensures Holds(b, CompleteStep(b, s, i).cells[i], s.mem, Merged(s.cells, i), i)
  {
    Facts(b, s, i);
    hide Inv, Merged, Holds, Wanted, Completed, Run;
    ReadingRuns(b, s, i);
    CompletedHolds(b, s.cells[i], s.mem, Merged(s.cells, i), i, Wanted(b, s, i));
  }

  lemma CompletedHolds(b: BlockSpec, c: Cell, mem: seq<Memory>, before: Overlay, i: TxId, a: Action)
    requires i <= |mem| && i < |b.txs| && c.phase.Reading? && !a.Read?
    requires Holds(b, c, mem, before, i) && Run(b, b.txs[i].program, before) == a
    ensures Holds(b, c.(phase := Completed(c, a)), mem, before, i)
  {
    hide ReadsHold, LastWrites, Run;
  }

  /** All its reads being in force, an attempt that is about to end does so on the final state. */
  lemma ReadingRuns(b: BlockSpec, s: State, i: TxId)
    requires Inv(b, s) && i <= s.finality && i < |b.txs| && CanComplete(b, s, i)
    requires i <= |s.mem| && Holds(b, s.cells[i], s.mem, Merged(s.cells, i), i)
    ensures Run(b, b.txs[i].program, Merged(s.cells, i)) == Wanted(b, s, i)
  {
    assert CellOk(b, s, i);
    var at := s.cells[i].phase.at;
    assert Explained(b.txs[i].program, at.obs) && AttemptOk(at);
    assert AttemptHolds(at, s.mem, i);
    hide Inv, CellOk, Merged, Holds, Next, AllCurrent, Explained;
    CurrentReads(b, s, i);
    ExplainedRuns(b, b.txs[i].program, Merged(s.cells, i), at.obs);
  }

  /** Fetching and publishing. */
  lemma ExecutionHolds(b: BlockSpec, s: State, i: TxId, step: Step, before: Overlay)
    requires Wellformed(b, s) && Enabled(b, s, step) && i < |s.cells| && Holds(b, s.cells[i], s.mem, before, i)
    requires step.Fetch? || step.Publish? || step.EndPublish? || step.Trim?
    requires step.j == i
    ensures Holds(b, Apply(b, s, step).cells[i], s.mem, before, i)
  {
    hide ReadsHold, Does, Next, View, Doomed, LastWrites;
  }

  lemma RecordHolds(b: BlockSpec, s: State, i: TxId, before: Overlay)
    requires Wellformed(b, s) && CanRecord(b, s, i) && i < |b.txs| && CellOk(b, s, i)
    requires Holds(b, s.cells[i], s.mem, before, i)
    ensures Holds(b, RecordStep(b, s, i).cells[i], s.mem, before, i)
  {
    HistoryOlder(b, s.cells[i], s.mem[i], s.journal[i], i);
    hide CellOk, ReadsHold, Does;
  }

  lemma ConcludeHolds(b: BlockSpec, s: State, i: TxId, handoff: bool, before: Overlay)
    requires Wellformed(b, s) && CanConclude(b, s, i) && i < |b.txs| && Holds(b, s.cells[i], s.mem, before, i)
    ensures Holds(b, ConcludeStep(b, s, i, handoff).cells[i], s.mem, before, i)
  {
    hide Holds, Recorded;
    RecordedHolds(b, s.cells[i], s.mem, before, i, handoff);
  }

  lemma RecordedHolds(b: BlockSpec, c: Cell, mem: seq<Memory>, before: Overlay, i: TxId, handoff: bool)
    requires i <= |mem| && c.phase.Noting? && c.phase.run.Succeeded? && Holds(b, c, mem, before, i)
    ensures Holds(b, Recorded(|b.txs|, c, i, handoff), mem, before, i)
  {
    hide ReadsHold, Does, WritesNew;
  }

  lemma DiscardHolds(b: BlockSpec, s: State, i: TxId, before: Overlay)
    requires Wellformed(b, s) && CanDiscard(b, s, i) && i < |b.txs| && CellOk(b, s, i)
    requires Holds(b, s.cells[i], s.mem, before, i)
    ensures Holds(b, DiscardStep(b, s, i).cells[i], s.mem, before, i)
  {
    HistoryOlder(b, s.cells[i], s.mem[i], s.journal[i], i);
    hide CellOk, ReadsHold, Does, LastWrites;
  }

  /** Marking a failure, rewinding, claiming and validating. */
  lemma ValidationHolds(b: BlockSpec, s: State, i: TxId, step: Step, before: Overlay)
    requires Wellformed(b, s) && Enabled(b, s, step) && i < |s.cells| && Holds(b, s.cells[i], s.mem, before, i)
    requires step.MarkFailed? || step.Drop? || step.Stamp? || step.Lower? || step.ClaimValidation? || step.Check?
      || step.EndScan?
    requires step.j == i
    ensures Holds(b, Apply(b, s, step).cells[i], s.mem, before, i)
  {
    hide Current, LastWrites, Estimated, Does;
  }

  /** A validation that begins finds its result, and no conflict yet. */
  lemma BeginHolds(b: BlockSpec, s: State, i: TxId, task: Task, before: Overlay)
    requires Inv(b, s) && CanBeginValidation(b, s, task) && task.txid == i && s.finality <= i < |b.txs|
    requires Holds(b, s.cells[i], s.mem, before, i)
    ensures Holds(b, BeginValidationStep(b, s, task).cells[i], s.mem, before, i)
  {
    NotTaken(b, s, i);
    assert TaskOk(s, task);
    hide Inv, ReadsHold, Does;
  }

  // ----- every step -----

  /** A loop leaves the cell alone, except that it may make it final. */
  lemma LoopHolds(b: BlockSpec, s: State, i: TxId, step: Step, before: Overlay)
    requires Wellformed(b, s) && Enabled(b, s, step) && Actor(step).None?
    requires i < |s.cells| && Holds(b, s.cells[i], s.mem, before, i)
    ensures i < |Apply(b, s, step).cells| && Holds(b, Apply(b, s, step).cells[i], s.mem, before, i)
  {
    hide ReadsHold, Does, AllWrites;
  }

  /** The step starts another incarnation of `i`. */
  predicate Restarts(step: Step, i: TxId) {
    (step.ClaimExecution? || step.BeginExecution?) && Actor(step) == Some(i)
  }

  lemma NotMarking(b: BlockSpec, s: State, i: TxId, before: Overlay)
    requires i < |s.cells| && i <= |s.mem| && Holds(b, s.cells[i], s.mem, before, i)
    ensures !s.cells[i].phase.Marking?
  {
  }

  lemma OwnHolds(b: BlockSpec, s: State, i: TxId, step: Step)
    requires Inv(b, s) && Wellformed(b, s) && s.finality == i < |b.txs| && CellOk(b, s, i) && Enabled(b, s, step)
    requires i < |s.cells| && i <= |s.mem| && Holds(b, s.cells[i], s.mem, Merged(s.cells, i), i)
    requires Actor(step) == Some(i) && !Restarts(step, i)
    ensures i < |Apply(b, s, step).cells| && Holds(b, Apply(b, s, step).cells[i], s.mem, Merged(s.cells, i), i)
  {
    hide Inv, Wellformed, CellOk, Holds, Merged;
    WorkerTouches(b, s, step);
    var before := Merged(s.cells, i);
    match step
    case Lookup(_, value) => LookupHolds(b, s, i, value, before);
    case Complete(_) => CompleteHolds(b, s, i);
    case Record(_) => RecordHolds(b, s, i, before);
    case Conclude(_, handoff) => ConcludeHolds(b, s, i, handoff, before);
    case Discard(_) => DiscardHolds(b, s, i, before);
    case BeginValidation(task) => BeginHolds(b, s, i, task, before);
    case Mark(_, _) => NotMarking(b, s, i, before);
    case Invalidate(_) => NotMarking(b, s, i, before);
    case _ =>
      if step.Fetch? || step.Publish? || step.EndPublish? || step.Trim? {
        ExecutionHolds(b, s, i, step, before);
      } else {
        ValidationHolds(b, s, i, step, before);
      }
  }

  lemma Facts(b: BlockSpec, s: State, i: TxId)
    requires Inv(b, s) && i < |b.txs|
    ensures Wellformed(b, s) && |s.cells| == |s.mem| == |b.txs| && CellOk(b, s, i)
  {
  }

  /** Memory below the finality index does not change, whoever takes the step. */
  lemma BelowIsFrozen(b: BlockSpec, s: State, step: Step, i: TxId)
    requires Inv(b, s) && Enabled(b, s, step) && i <= s.finality && i < |b.txs|
    ensures
      var s' := Apply(b, s, step);
      && i <= |s.mem| == |s'.mem| && i < |s'.cells| && i <= s'.finality
      && (forall j :: 0 <= j < i ==> s'.mem[j] == s.mem[j])
      && i <= |s.cells| && Merged(s'.cells, i) == Merged(s.cells, i)
  {
    Facts(b, s, i);
    hide Inv, Enabled, Apply, Wellformed, CellOk, Merged;
    StepFreezes(b, s, step);
    MergedSame(s.cells, Apply(b, s, step).cells, i);
  }

  lemma StepHolds(b: BlockSpec, s: State, i: TxId, step: Step)
    requires Inv(b, s) && Enabled(b, s, step) && i <= s.finality && i < |b.txs|
    requires i < |s.cells| && i <= |s.mem| && Holds(b, s.cells[i], s.mem, Merged(s.cells, i), i) && !Restarts(step, i)
    ensures
      var s' := Apply(b, s, step);
      i < |s'.cells| && i <= |s'.mem| && Holds(b, s'.cells[i], s'.mem, Merged(s'.cells, i), i)
  {
    hide Inv, Enabled, Apply, Holds, CellOk, Wellformed, Merged;
    Facts(b, s, i);
    var s' := Apply(b, s, step);
    StepActor(b, s, step);
    BelowIsFrozen(b, s, step, i);
    if Actor(step).None? {
      LoopHolds(b, s, i, step, Merged(s.cells, i));
    } else if Actor(step) != Some(i) {
      WorkerTouches(b, s, step);
    } else {
      OwnHolds(b, s, i, step);
    }
    HoldsBelow(b, s'.cells[i], s.mem, s'.mem, Merged(s.cells, i), i);
  }

  /** While the incarnation stays the current one, nothing restarts it. */
  lemma NoRestart(b: BlockSpec, s: State, i: TxId, step: Step)
    requires Inv(b, s) && Enabled(b, s, step) && i < |b.txs| && i < |s.cells| && i <= |s.mem|
    requires Holds(b, s.cells[i], s.mem, Merged(s.cells, i), i)
    requires i < |Apply(b, s, step).cells| && Apply(b, s, step).cells[i].incarnation == s.cells[i].incarnation
    ensures !Restarts(step, i)
  {
    NoTaskLeft(b, s, i);
    hide Inv, Holds, Merged;
  }

  /** An incarnation that is on its way has no execution task. */
  lemma NoTaskLeft(b: BlockSpec, s: State, i: TxId)
    requires Inv(b, s) && i < |s.cells| && i <= |s.mem| && Holds(b, s.cells[i], s.mem, Merged(s.cells, i), i)
    ensures forall t <- s.tasks :: t.Execution? ==> t.txid != i
  {
    TasksAreOk(b, s);
    hide Inv, Does, ReadsHold, Merged;
  }

  lemma TasksAreOk(b: BlockSpec, s: State)
    requires Inv(b, s)
    ensures forall t <- s.tasks :: TaskOk(s, t)
  {
    hide CellOk, ReadsOk, ScanOk, FinalityOk, CommitOk;
  }

  /** An execution that begins has read nothing yet. */
  lemma FirstHolds(b: BlockSpec, s: State, task: Task)
    requires Inv(b, s) && Enabled(b, s, BeginExecution(task))
    ensures
      var s' := Apply(b, s, BeginExecution(task));
      && task.txid < |b.txs| && task.txid < |s.cells| && task.txid < |s'.cells| && task.txid <= |s'.mem|
      && Holds(b, s'.cells[task.txid], s'.mem, Merged(s'.cells, task.txid), task.txid)
  {
    assert TaskOk(s, task);
  }

  /**
   * `task` began to execute in state `k`, when everything before its transaction was final, and its
   * incarnation is the current one up to state `k'`.
   */
  ghost predicate Late(b: BlockSpec, trace: seq<State>, k: nat, task: Task, k': nat) {
    && k < k' < |trace|
    && Wellformed(b, trace[k]) && Enabled(b, trace[k], BeginExecution(task))
    && trace[k + 1] == Apply(b, trace[k], BeginExecution(task)) && task.txid <= trace[k].finality
    && forall m :: k < m <= k' && task.txid < |trace[m].cells| ==>
         trace[m].cells[task.txid].incarnation == task.incarnation
  }

  lemma LateSooner(b: BlockSpec, trace: seq<State>, k: nat, task: Task, k': nat)
    requires Late(b, trace, k, task, k')
    ensures Wellformed(b, trace[k]) && Enabled(b, trace[k], BeginExecution(task))
    ensures trace[k + 1] == Apply(b, trace[k], BeginExecution(task)) && task.txid <= trace[k].finality
    ensures k + 1 < k' ==>
      && Late(b, trace, k, task, k' - 1)
      && (task.txid < |trace[k' - 1].cells| ==> trace[k' - 1].cells[task.txid].incarnation == task.incarnation)
      && (task.txid < |trace[k'].cells| ==> trace[k'].cells[task.txid].incarnation == task.incarnation)
  {
  }

  lemma {:induction false} LastAttemptFrom(b: BlockSpec, trace: seq<State>, k: nat, task: Task, k': nat)
    requires IsRun(b, trace) && k < k' < |trace| && Late(b, trace, k, task, k')
    ensures task.txid < |b.txs| && task.txid < |trace[k'].cells| && task.txid <= |trace[k'].mem|
    ensures task.txid <= trace[k'].finality
    ensures
      Holds(b, trace[k'].cells[task.txid], trace[k'].mem, Merged(trace[k'].cells, task.txid), task.txid)
    decreases k'
  {
    hide *;
    var i := task.txid;
    RunKeeps(b, trace, k' - 1);
    LateSooner(b, trace, k, task, k');
    if k' == k + 1 {
      FirstHolds(b, trace[k], task);
      BelowIsFrozen(b, trace[k], BeginExecution(task), i);
    } else {
      LastAttemptFrom(b, trace, k, task, k' - 1);
      var step := RunStep(b, trace, k' - 1);
      Facts(b, trace[k' - 1], i);
      BelowIsFrozen(b, trace[k' - 1], step, i);
      NoRestart(b, trace[k' - 1], i, step);
      StepHolds(b, trace[k' - 1], i, step);
    }
  }

  /** The phase belongs to a finished execution, whose result is in place. */
  predicate Finished(phase: Phase) {
    phase.Free? || phase.Stamping? || phase.Lowering? || phase.Scanning?
  }

  predicate Attempting(phase: Phase) {
    phase.Reading? || phase.Fetching? || phase.Publishing? || phase.Trimming? || phase.Noting?
  }

  /**
   * An execution that begins when everything before its transaction is final is never blocked on an
   * estimate and never rejected by validation, for as long as it is the current incarnation: it is on
   * its way to finality, or it ended in an EVM error. Retries of the transaction at the finality
   * index therefore end with the first execution that does not fail. Success or error, it is what the
   * transaction does on the state the final results leave.
   */
  lemma LastAttemptValidates(b: BlockSpec, trace: seq<State>, k: nat, task: Task, k': nat)
    requires IsRun(b, trace) && Late(b, trace, k, task, k')
    ensures task.txid < |trace[k'].cells|
    ensures
      var c := trace[k'].cells[task.txid];
      && !c.phase.Marking? && (c.phase.Scanning? ==> !c.phase.conflict)
      && (Attempting(c.phase) ==> !c.phase.at.blocked)
      && (Finished(c.phase) ==>
            && c.result.Some? && (c.status == Conflict <==> c.result.value.execution.Failed?)
            && Does(b, task.txid, Merged(trace[k'].cells, task.txid), c.result.value.execution))
  {
    hide IsRun, Late, AllCurrent, Does, Merged;
    LateSooner(b, trace, k, task, k');
    LateIsLater(b, trace, k, task, k');
    LastAttemptFrom(b, trace, k, task, k');
  }

  lemma LateIsLater(b: BlockSpec, trace: seq<State>, k: nat, task: Task, k': nat)
    requires Late(b, trace, k, task, k')
    ensures k < k' < |trace|
  {
  }

  /** If moreover the results before it are the sequential ones, that is what sequential execution does. */
  lemma LastAttemptIsSequential(b: BlockSpec, trace: seq<State>, k: nat, task: Task, k': nat)
    requires IsRun(b, trace) && Late(b, trace, k, task, k')
    requires k' < |trace| && task.txid < |trace[k'].cells| && Finished(trace[k'].cells[task.txid].phase)
    requires task.txid <= |trace[k'].cells| == |b.txs| && SequentialBelow(b, trace[k'].cells, task.txid)
    ensures task.txid < |b.txs| && trace[k'].cells[task.txid].result.Some?
    ensures SequentialAction(b, task.txid) == ActionOf(trace[k'].cells[task.txid].result.value.execution)
  {
    hide *;
    var i := task.txid;
    LateIsLater(b, trace, k, task, k');
    LastAttemptFrom(b, trace, k, task, k');
    LastAttemptValidates(b, trace, k, task, k');
    RunKeeps(b, trace, k');
    DoesSequentially(b, trace[k'].cells, i, trace[k'].cells[i].result.value.execution);
  }

  /** Memory below does not change any more, so repeated lookups find the same: such a result is steady. */
  lemma LastAttemptIsSteady(b: BlockSpec, trace: seq<State>, k: nat, task: Task, k': nat)
    requires IsRun(b, trace) && Late(b, trace, k, task, k')
    requires k' < |trace| && task.txid < |trace[k'].cells| && Finished(trace[k'].cells[task.txid].phase)
    ensures
      var result := trace[k'].cells[task.txid].result;
      result.Some? && (result.value.execution.Succeeded? ==> Steady(result.value))
  {
    hide *;
    LateIsLater(b, trace, k, task, k');
    LastAttemptFrom(b, trace, k, task, k');
    LastAttemptValidates(b, trace, k, task, k');
    RunKeeps(b, trace, k');
    var i := task.txid;
    var c := trace[k'].cells[i];
    if c.result.value.execution.Succeeded? {
      HoldsReads(b, c, trace[k'].mem, Merged(trace[k'].cells, i), i);
      SucceededIsKept(b, trace[k'], i);
      CurrentIsUnique(trace[k'].mem, i, c.result.value);
    }
  }

  lemma HoldsReads(b: BlockSpec, c: Cell, mem: seq<Memory>, before: Overlay, i: TxId)
    requires i <= |mem| && Holds(b, c, mem, before, i) && Finished(c.phase)
    requires c.result.Some? && c.result.value.execution.Succeeded?
    ensures ReadsHold(c.result.value.seen, c.result.value.versions, mem, i)
    ensures c.status in {Executed, Validating, Unconfirmed, Finality}
  {
    hide ReadsHold, Does;
  }

  lemma SucceededIsKept(b: BlockSpec, s: State, i: TxId)
    requires Inv(b, s) && i < |b.txs| && i < |s.cells| && Finished(s.cells[i].phase)
    requires s.cells[i].status in {Executed, Validating, Unconfirmed, Finality} && s.cells[i].result.Some?
    ensures Kept(s.cells[i].result.value.seen, s.cells[i].result.value.versions)
  {
    assert CellOk(b, s, i);
    hide Inv, RunOk, Kept, Live;
  }

  /** Only one version of a location is in force. */
  lemma CurrentIsUnique(mem: seq<Memory>, i: TxId, r: TxResult)
    requires i <= |mem| && ReadsHold(r.seen, r.versions, mem, i) && Kept(r.seen, r.versions)
    ensures Steady(r)
  {
    forall q <- r.seen ensures q.location in r.versions && r.seen[q] == r.versions[q.location] {
      assert Current(mem, q.location, i, r.seen[q]) && Current(mem, q.location, i, r.versions[q.location]);
    }
  }

  /** The failed result of `j` at the end of the run is that of an execution that began late. */
  ghost predicate FailedLate(b: BlockSpec, trace: seq<State>, j: TxId) {
    && |trace| > 0 && j < |trace[|trace| - 1].cells|
    && exists k: nat, task, m: nat ::
         && Late(b, trace, k, task, m) && task.txid == j && m < |trace| && j < |trace[m].cells|
         && Finished(trace[m].cells[j].phase)
         && trace[m].cells[j].result == trace[|trace| - 1].cells[j].result
  }

  /** The error of such a result is the one that sequential execution meets. */
  lemma LateFailureIsSequential(b: BlockSpec, trace: seq<State>, j: TxId, error: EvmError)
    requires IsRun(b, trace) && FailedLate(b, trace, j)
    requires
      var s := trace[|trace| - 1];
      && s.cells[j].result.Some? && s.cells[j].result.value.execution == Failed(error)
      && |s.cells| == |b.txs| && SequentialBelow(b, s.cells, j)
    ensures j < |b.txs| && SequentialAction(b, j) == Fail(error)
  {
    hide *;
    var k, task, m := LateWitness(b, trace, j);
    LastAttemptFrom(b, trace, k, task, m);
    RunFreezes(b, trace, m, |trace| - 1);
    FrozenBelow(trace[m], trace[|trace| - 1], j);
    SequentialFrozen(b, trace[|trace| - 1].cells, trace[m].cells, j);
    LastAttemptIsSequential(b, trace, k, task, m);
    IsFailure(error);
  }

  lemma IsFailure(error: EvmError)
    ensures ActionOf(Failed(error)) == Fail(error)
  {
  }

  lemma LateWitness(b: BlockSpec, trace: seq<State>, j: TxId) returns (k: nat, task: Task, m: nat)
    requires FailedLate(b, trace, j)
    ensures Late(b, trace, k, task, m) && task.txid == j && k < m < |trace| && j < |trace[m].cells|
    ensures Finished(trace[m].cells[j].phase) && j < |trace[|trace| - 1].cells|
    ensures trace[m].cells[j].result == trace[|trace| - 1].cells[j].result
  {
    hide Late, Finished;
    k, task, m :|
      && Late(b, trace, k, task, m) && task.txid == j && m < |trace| && j < |trace[m].cells|
      && Finished(trace[m].cells[j].phase)
      && trace[m].cells[j].result == trace[|trace| - 1].cells[j].result;
    LateIsLater(b, trace, k, task, m);
  }

  lemma FrozenBelow(s: State, s': State, j: TxId)
    requires Frozen(s, s') && j <= s.finality
    ensures j <= |s.cells| == |s'.cells|
    ensures forall i :: 0 <= i < j ==> s'.cells[i].result == s.cells[i].result
  {
  }

  lemma DoesSequentially(b: BlockSpec, cells: seq<Cell>, i: TxId, run: Execution)
    requires i < |cells| == |b.txs| && SequentialBelow(b, cells, i) && Does(b, i, Merged(cells, i), run)
    ensures SequentialAction(b, i) == ActionOf(run)
  {
    hide Run;
  }
}
