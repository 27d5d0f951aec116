/**
 * Which abort cause a run ends with. An error at the commit head sends the block to sequential
 * replay if the transaction is merely invalid, and stops it only if the error is fatal.
 */
module AbortCause {
  import opened Types
  import opened Block
  import opened Protocol
  import Serializability

  /** From `s` to `s'`, the execution of `j` that failed with `error` puts its failure on record. */
  ghost predicate Stores(s: State, s': State, j: TxId, error: EvmError, blocked: bool) {
    && j < |s.cells| == |s'.cells|
    && s.cells[j].phase.Failing? && s.cells[j].phase.error == error && s.cells[j].phase.blocked == blocked
    && s'.cells[j].phase.Dropping?
    && s'.cells[j].result.Some? && s'.cells[j].result.value.execution == Failed(error)
  }

  /** What must have happened between `s` and `s'` to abort the block for `reason`. */
  ghost predicate Raises(b: BlockSpec, s: State, s': State, reason: AbortReason) {
    var head := s.ledger.committed;
    match reason
    case FatalEvmError(j) => j == head && exists error: EvmError :: error.FatalError? && Stores(s, s', j, error, false)
    case CommitError(j) => j == head && s'.ledger.failed
    case FallbackSequential =>
      || (exists error: EvmError :: error.InvalidTransaction? && Stores(s, s', head, error, false))
      || (head < |b.txs| && s'.ledger.stopped && !b.txs[head].nonceMatches(s.ledger.overlay))
    case ParallelError(_) => true
  }

  lemma DiscardRaises(b: BlockSpec, s: State, j: TxId)
    requires Wellformed(b, s) && CanDiscard(b, s, j) && s.abort.None?
    ensures
      var s' := DiscardStep(b, s, j);
      s'.abort.Some? ==> Raises(b, s, s', s'.abort.value)
  {
    var s' := DiscardStep(b, s, j);
    if s'.abort.Some? && !s'.abort.value.ParallelError? {
      assert Stores(s, s', j, s.cells[j].phase.error, false);
    }
  }

  lemma ExecutionRaises(b: BlockSpec, s: State, step: Step)
    requires Wellformed(b, s) && CanExecute(b, s, step) && s.abort.None? && !step.Discard?
    ensures
      var s' := ApplyExecution(b, s, step);
      s'.abort.Some? ==> s'.abort.value.ParallelError?
  {
  }

  lemma ValidationRaises(b: BlockSpec, s: State, step: Step)
    requires Wellformed(b, s) && CanValidate(b, s, step) && s.abort.None?
    ensures
      var s' := ApplyValidation(b, s, step);
      s'.abort.Some? ==> Raises(b, s, s', s'.abort.value)
  {
  }

  lemma StepRaises(b: BlockSpec, s: State, step: Step)
    requires Wellformed(b, s) && Enabled(b, s, step) && s.abort.None?
    ensures
      var s' := Apply(b, s, step);
      s'.abort.Some? ==> Raises(b, s, s', s'.abort.value)
  {
    hide DiscardStep, Raises, CanDiscard, CanValidate, ApplyValidation;
    if step.Discard? {
      DiscardRaises(b, s, step.j);
    } else if OnExecution(step) {
      ExecutionRaises(b, s, step);
      ParallelErrorsAreRaised(b, s, Apply(b, s, step));
    } else {
      ValidationRaises(b, s, step);
    }
  }

  lemma ParallelErrorsAreRaised(b: BlockSpec, s: State, s': State)
    ensures s'.abort.Some? && s'.abort.value.ParallelError? ==> Raises(b, s, s', s'.abort.value)
  {
  }

  /** The first abort cause is the only one. */
  lemma StepKeepsAbort(b: BlockSpec, s: State, step: Step)
    requires Wellformed(b, s) && Enabled(b, s, step) && s.abort.Some?
    ensures Apply(b, s, step).abort == s.abort
  {
    if OnExecution(step) {
      ExecutionKeepsAbort(b, s, step);
    } else {
      ValidationKeepsAbort(b, s, step);
    }
  }

  lemma ExecutionKeepsAbort(b: BlockSpec, s: State, step: Step)
    requires Wellformed(b, s) && CanExecute(b, s, step) && s.abort.Some?
    ensures ApplyExecution(b, s, step).abort == s.abort
  {
  }

  lemma ValidationKeepsAbort(b: BlockSpec, s: State, step: Step)
    requires Wellformed(b, s) && CanValidate(b, s, step) && s.abort.Some?
    ensures ApplyValidation(b, s, step).abort == s.abort
  {
  }

  /** Whose transaction a step is about, if it is about one. */
  function Actor(s: State, step: Step): TxId {
    match step
    case BeginExecution(task) => task.txid
    case BeginValidation(task) => task.txid
    case Finalize => s.finality
    case TakeResult(_) => s.ledger.committed
    case ApplyWrite(_) => s.ledger.committed
    case PublishCommit => s.ledger.committed
    case _ => step.j
  }

  lemma OthersAreLeftByExecution(b: BlockSpec, s: State, step: Step, j: TxId)
    requires Wellformed(b, s) && CanExecute(b, s, step) && j < |s.cells| && j != Actor(s, step)
    ensures
      var s' := ApplyExecution(b, s, step);
      |s'.cells| == |s.cells| && s'.cells[j] == s.cells[j]
  {
    hide Next, Wanted, Looked, Completed, Recorded, LastWrites, Doomed, WritesNew, Latest, Estimated, View;
  }

  lemma OthersAreLeft(b: BlockSpec, s: State, step: Step, j: TxId)
    requires Wellformed(b, s) && Enabled(b, s, step) && j < |s.cells| && j != Actor(s, step)
    ensures |Apply(b, s, step).cells| == |s.cells| && Apply(b, s, step).cells[j] == s.cells[j]
  {
    hide LastWrites, Latest, Estimated, Current, AllWrites, CanExecute, ApplyExecution;
    if OnExecution(step) {
      OthersAreLeftByExecution(b, s, step, j);
    }
  }

  /** A failure goes on record in one step only. */
  lemma OnlyDiscardStores(b: BlockSpec, s: State, step: Step, j: TxId, error: EvmError, blocked: bool)
    requires Wellformed(b, s) && Enabled(b, s, step) && Stores(s, Apply(b, s, step), j, error, blocked)
    ensures step == Discard(j)
  {
    if j != Actor(s, step) {
      hide Enabled, Apply, Actor;
      OthersAreLeft(b, s, step, j);
    }
  }

  // ----- runs -----

  lemma {:induction false} AbortIsKept(b: BlockSpec, trace: seq<State>, k: nat, m: nat)
    requires IsRun(b, trace) && k <= m < |trace| && trace[k].abort.Some?
    ensures trace[m].abort == trace[k].abort
    decreases m
  {
    hide Apply, Enabled, Wellformed;
    if k < m {
      AbortIsKept(b, trace, k, m - 1);
      var step := Serializability.RunStep(b, trace, m - 1);
      StepKeepsAbort(b, trace[m - 1], step);
    }
  }

  /** Every abort cause was raised by one step of the run, from which on it is the cause. */
  lemma {:induction false} AbortWasRaised(b: BlockSpec, trace: seq<State>, m: nat) returns (k: nat)
    requires IsRun(b, trace) && m < |trace| && trace[m].abort.Some?
    ensures k < m && trace[k].abort.None? && trace[k + 1].abort == trace[m].abort
    ensures Raises(b, trace[k], trace[k + 1], trace[m].abort.value)
    decreases m
  {
    hide Apply, Enabled, Wellformed, Raises;
    if m > 0 {
      var step := Serializability.RunStep(b, trace, m - 1);
      if trace[m - 1].abort.Some? {
        StepKeepsAbort(b, trace[m - 1], step);
        k := AbortWasRaised(b, trace, m - 1);
      } else {
        StepRaises(b, trace[m - 1], step);
        k := m - 1;
      }
    }
  }

  /**
   * What putting a failure on record does to a run that has not aborted. Behind the commit head, or
   * after reading an estimate, nothing; at the head an invalid transaction sends the rest of the
   * block to sequential replay, and only a fatal error stops it. The run keeps that cause.
   */
  lemma FailureDecides(
    b: BlockSpec, trace: seq<State>, k: nat, m: nat, j: TxId, error: EvmError, blocked: bool)
    requires IsRun(b, trace) && k + 1 <= m < |trace| && trace[k].abort.None?
    requires Stores(trace[k], trace[k + 1], j, error, blocked)
    ensures
      if blocked || trace[k].ledger.committed != j then trace[k + 1].abort.None?
      else
        trace[m].abort == trace[k + 1].abort ==
          if error.InvalidTransaction? then Some(FallbackSequential) else Some(FatalEvmError(j))
  {
    var step := Serializability.RunStep(b, trace, k);
    OnlyDiscardStores(b, trace[k], step, j, error, blocked);
    Serializability.ParallelErrorIsUnreachable(b, trace, k + 1);
    StoringAborts(b, trace[k], j);
    hide Apply, Enabled, Wellformed, DiscardStep;
    if trace[k + 1].abort.Some? {
      AbortIsKept(b, trace, k + 1, m);
    }
  }

  lemma StoringAborts(b: BlockSpec, s: State, j: TxId)
    requires Wellformed(b, s) && CanDiscard(b, s, j) && s.abort.None?
    ensures
      var s', p := DiscardStep(b, s, j), s.cells[j].phase;
      || (s'.abort.Some? && s'.abort.value.ParallelError?)
      || (s'.abort ==
          if p.blocked || s.ledger.committed != j then None
          else if p.error.InvalidTransaction? then Some(FallbackSequential)
          else Some(FatalEvmError(j)))
  {
  }

  /** No execution of the run puts a fatal error on record. */
  ghost predicate NeverFatal(trace: seq<State>) {
    forall k: nat, j: TxId :: k < |trace| && j < |trace[k].cells| ==> !HoldsFatal(trace[k].cells[j])
  }

  predicate HoldsFatal(c: Cell) {
    c.result.Some? && c.result.value.execution.Failed? && c.result.value.execution.error.FatalError?
  }

  /** The commit loop loads everything it needs. */
  ghost predicate NeverStarved(trace: seq<State>) {
    forall k: nat :: k < |trace| ==> !trace[k].ledger.failed
  }

  lemma FatalIsHeld(b: BlockSpec, s: State, s': State)
    requires s'.abort.Some? && Raises(b, s, s', s'.abort.value)
    ensures s'.abort.value.FatalEvmError? ==>
      var j := s'.abort.value.txid;
      j < |s'.cells| && HoldsFatal(s'.cells[j])
  {
  }

  lemma StarvedIsSeen(b: BlockSpec, s: State, s': State)
    requires s'.abort.Some? && Raises(b, s, s', s'.abort.value)
    ensures s'.abort.value.CommitError? ==> s'.ledger.failed
  {
  }

  lemma CleanAt(trace: seq<State>, k: nat)
    requires NeverFatal(trace) && NeverStarved(trace) && k < |trace|
    ensures !trace[k].ledger.failed && forall j: TxId :: j < |trace[k].cells| ==> !HoldsFatal(trace[k].cells[j])
  {
  }

  /** Without a fatal error and with a database that answers, a run aborts only to fall back. */
  lemma CleanRunFallsBack(b: BlockSpec, trace: seq<State>, m: nat)
    requires IsRun(b, trace) && m < |trace| && NeverFatal(trace) && NeverStarved(trace)
    ensures trace[m].abort.Some? ==> trace[m].abort == Some(FallbackSequential)
  {
    hide *;
    if trace[m].abort.Some? {
      var k := AbortWasRaised(b, trace, m);
      Serializability.ParallelErrorIsUnreachable(b, trace, m);
      FatalIsHeld(b, trace[k], trace[k + 1]);
      StarvedIsSeen(b, trace[k], trace[k + 1]);
      CleanAt(trace, k + 1);
    }
  }
}
