/** What the protocol guarantees about every run. */
module Serializability {
  import opened Types
  import opened Block
  import opened Protocol
  import opened ProtocolInvariant
  import opened ProtocolFrame
  import opened ProtocolSteps
  import opened ProtocolPublish
  import opened ProtocolValidate
  import opened ProtocolCommit
  import opened SteadyReads

  lemma InitialState(b: BlockSpec)
    ensures Inv(b, Init(b))
  {
    var s := Init(b);
    forall j | 0 <= j < |b.txs| ensures CellOk(b, s, j) && ReadsOk(b, s, j) && ScanOk(s, j) {
    }
  }

  lemma StepKeeps(b: BlockSpec, s: State, step: Step)
    requires Inv(b, s) && Enabled(b, s, step)
    ensures Inv(b, Apply(b, s, step))
  {
    hide Inv;
    match step
    case ClaimExecution(j) => ClaimExecutionKeeps(b, s, j);
    case ClaimValidation(j) => ClaimValidationKeeps(b, s, j);
    case BeginExecution(task) => BeginExecutionKeeps(b, s, task);
    case Lookup(j, value) => LookupKeeps(b, s, j, value);
    case Fetch(j, value) => FetchKeeps(b, s, j, value);
    case Complete(j) => CompleteKeeps(b, s, j);
    case Publish(j, l) => PublishKeeps(b, s, j, l);
    case EndPublish(j) => EndPublishKeeps(b, s, j);
    case Trim(j, l) => TrimKeeps(b, s, j, l);
    case Record(j) => RecordKeeps(b, s, j);
    case Conclude(j, handoff) => ConcludeKeeps(b, s, j, handoff);
    case MarkFailed(j, l) => MarkFailedKeeps(b, s, j, l);
    case Discard(j) => DiscardKeeps(b, s, j);
    case Drop(j) => DropKeeps(b, s, j);
    case Stamp(j) => StampKeeps(b, s, j);
    case Lower(j) => LowerKeeps(b, s, j);
    case BeginValidation(task) => BeginValidationKeeps(b, s, task);
    case Check(j, l) => CheckKeeps(b, s, j, l);
    case EndScan(j) => EndScanKeeps(b, s, j);
    case Mark(j, l) => MarkKeeps(b, s, j, l);
    case Invalidate(j) => InvalidateKeeps(b, s, j);
    case Finalize => FinalizeKeeps(b, s);
    case TakeResult(fails) => TakeResultKeeps(b, s, fails);
    case ApplyWrite(l) => ApplyWriteKeeps(b, s, l);
    case PublishCommit => PublishCommitKeeps(b, s);
  }

  lemma RunStep(b: BlockSpec, trace: seq<State>, k: nat) returns (step: Step)
    requires IsRun(b, trace) && k + 1 < |trace|
    ensures Wellformed(b, trace[k]) && Enabled(b, trace[k], step) && trace[k + 1] == Apply(b, trace[k], step)
  {
    assert IsStep(b, trace[k], trace[k + 1]);
    step :| Enabled(b, trace[k], step) && trace[k + 1] == Apply(b, trace[k], step);
  }

  lemma {:induction false} RunKeeps(b: BlockSpec, trace: seq<State>, k: nat)
    requires IsRun(b, trace) && k < |trace|
    ensures Inv(b, trace[k])
  {
    if k == 0 {
      InitialState(b);
    } else {
      hide *;
      RunKeeps(b, trace, k - 1);
      var step := RunStep(b, trace, k - 1);
      StepKeeps(b, trace[k - 1], step);
    }
  }

  lemma Parts(b: BlockSpec, s: State)
    requires Inv(b, s)
    ensures Wellformed(b, s) && FinalityOk(b, s) && CommitOk(b, s) && Consistent(s)
  {
  }

  // ----- finality never changes its mind -----

  ghost predicate Frozen(s: State, s': State) {
    && s.finality <= s'.finality
    && |s.cells| == |s.mem| == |s'.cells| == |s'.mem| && s.finality <= |s.cells|
    && forall j :: 0 <= j < s.finality ==> s'.cells[j] == s.cells[j] && s'.mem[j] == s.mem[j]
  }

  /** A worker's step touches the cell and memory of its own transaction only. */
  lemma WorkerTouches(b: BlockSpec, s: State, step: Step)
    requires Wellformed(b, s) && Enabled(b, s, step) && Actor(step).Some?
    ensures Touches(s, Apply(b, s, step), Actor(step).value)
  {
    hide Apply, Enabled, Wellformed;
    if step.ClaimExecution? || step.ClaimValidation? || step.BeginExecution? || step.BeginValidation? {
      ClaimsTouch(b, s, step);
    } else if step.Lookup? || step.Fetch? || step.Complete? || step.Stamp? || step.Lower? {
      ReadsTouch(b, s, step);
    } else if step.Publish? || step.EndPublish? || step.Trim? || step.Record? || step.Conclude? {
      WritesTouch(b, s, step);
    } else if step.Check? || step.EndScan? {
      ScansTouch(b, s, step);
    } else {
      MarksTouch(b, s, step);
    }
  }

  lemma StepFreezes(b: BlockSpec, s: State, step: Step)
    requires Inv(b, s) && Enabled(b, s, step)
    ensures Frozen(s, Apply(b, s, step))
  {
    hide Inv, Apply, Enabled, Wellformed;
    StepActor(b, s, step);
    if Actor(step).None? {
      LoopsTouch(b, s, step);
    } else {
      WorkerTouches(b, s, step);
    }
  }

  ghost predicate Touches(s: State, s': State, j: TxId) {
    && s'.finality == s.finality && j < |s.cells| == |s.mem| == |s'.cells| == |s'.mem|
    && s'.cells == s.cells[j := s'.cells[j]] && s'.mem == s.mem[j := s'.mem[j]]
  }

  lemma ClaimsTouch(b: BlockSpec, s: State, step: Step)
    requires Wellformed(b, s) && Enabled(b, s, step)
    requires step.ClaimExecution? || step.ClaimValidation? || step.BeginExecution? || step.BeginValidation?
    ensures Actor(step).Some? && Touches(s, Apply(b, s, step), Actor(step).value)
  {
  }

  lemma ReadsTouch(b: BlockSpec, s: State, step: Step)
    requires Wellformed(b, s) && Enabled(b, s, step)
    requires step.Lookup? || step.Fetch? || step.Complete? || step.Stamp? || step.Lower?
    ensures Actor(step).Some? && Touches(s, Apply(b, s, step), Actor(step).value)
  {
    hide Looked, Completed, View, Doomed, Next;
  }

  lemma WritesTouch(b: BlockSpec, s: State, step: Step)
    requires Wellformed(b, s) && Enabled(b, s, step)
    requires step.Publish? || step.EndPublish? || step.Trim? || step.Record? || step.Conclude?
    ensures Actor(step).Some? && Touches(s, Apply(b, s, step), Actor(step).value)
  {
    hide LastWrites, Recorded, WritesNew, RewindPhase;
  }

  lemma MarksTouch(b: BlockSpec, s: State, step: Step)
    requires Wellformed(b, s) && Enabled(b, s, step)
    requires step.MarkFailed? || step.Discard? || step.Drop? || step.Mark? || step.Invalidate?
    ensures Actor(step).Some? && Touches(s, Apply(b, s, step), Actor(step).value)
  {
    hide LastWrites, Estimated, RewindPhase;
  }

  lemma ScansTouch(b: BlockSpec, s: State, step: Step)
    requires Wellformed(b, s) && Enabled(b, s, step)
    requires step.Check? || step.EndScan?
    ensures Actor(step).Some? && Touches(s, Apply(b, s, step), Actor(step).value)
  {
    hide LastWrites, Current;
  }

  lemma LoopsTouch(b: BlockSpec, s: State, step: Step)
    requires Wellformed(b, s) && Enabled(b, s, step) && Actor(step).None?
    ensures Frozen(s, Apply(b, s, step))
  {
    hide AllWrites;
  }

  /** The transaction whose worker takes the step, if a worker takes it. */
  function Actor(step: Step): Option<TxId> {
    match step
    case BeginExecution(task) => Some(task.txid)
    case BeginValidation(task) => Some(task.txid)
    case Finalize => None
    case TakeResult(_) => None
    case ApplyWrite(_) => None
    case PublishCommit => None
    case _ => Some(step.j)
  }

  lemma StepActor(b: BlockSpec, s: State, step: Step)
    requires Inv(b, s) && Enabled(b, s, step)
    ensures Wellformed(b, s)
    ensures Actor(step).Some? ==> s.finality <= Actor(step).value < |b.txs|
  {
    match Actor(step)
    case None =>
    case Some(j) =>
      if step.BeginExecution? || step.BeginValidation? {
        assert TaskOk(s, step.task);
      }
      Rely(b, s, j);
  }

  lemma FrozenReflexive(b: BlockSpec, s: State)
    requires Inv(b, s)
    ensures Frozen(s, s)
  {
  }

  lemma FrozenTransitive(s: State, s': State, s'': State)
    requires Frozen(s, s') && Frozen(s', s'')
    ensures Frozen(s, s'')
  {
  }

  lemma {:induction false} RunFreezes(b: BlockSpec, trace: seq<State>, k: nat, k': nat)
    requires IsRun(b, trace) && k <= k' < |trace|
    ensures Frozen(trace[k], trace[k'])
    decreases k'
  {
    hide *;
    RunKeeps(b, trace, k);
    FrozenReflexive(b, trace[k]);
    if k < k' {
      RunFreezes(b, trace, k, k' - 1);
      RunKeeps(b, trace, k' - 1);
      var step := RunStep(b, trace, k' - 1);
      StepFreezes(b, trace[k' - 1], step);
      FrozenTransitive(trace[k], trace[k' - 1], trace[k']);
    }
  }

  /** A finalized transaction: its result, and that every version it read is the one in force. */
  ghost predicate Settles(b: BlockSpec, s: State, j: TxId, result: Option<TxResult>)
    requires Wellformed(b, s)
  {
    && j < s.finality && s.cells[j].status == Finality
    && s.cells[j].result == result && result.Some?
    && (forall l <- result.value.versions :: Current(s.mem, l, j, result.value.versions[l]))
    && (forall i :: 0 <= i <= j ==> s.lower[i] < s.confirmed[j])
  }

  /**
   * Finality is stable. In every later state of the run a finalized transaction keeps its result,
   * each version in its read set is still the latest preceding one and no estimate, and its
   * validation timestamp exceeds every rewind timestamp at or before it.
   */
  lemma FinalityIsStable(b: BlockSpec, trace: seq<State>, k: nat, k': nat, j: TxId)
    requires IsRun(b, trace) && k <= k' < |trace|
    requires j < trace[k].finality
    ensures Wellformed(b, trace[k']) && j < |trace[k].cells|
    ensures Settles(b, trace[k'], j, trace[k].cells[j].result)
  {
    RunFreezes(b, trace, k, k');
    RunKeeps(b, trace, k');
    FinalSettles(b, trace[k'], j);
    hide Inv;
  }

  lemma FinalSettles(b: BlockSpec, s: State, j: TxId)
    requires Inv(b, s) && j < s.finality
    ensures Settles(b, s, j, s.cells[j].result)
  {
    hide Inv, CommitOk;
    Parts(b, s);
    assert FinalOk(b, s, j) && Ahead(s, j);
  }

  /** Transaction `j` succeeds, with this receipt, on the state the ones before it leave, and its nonce fits. */
  ghost predicate Commits(b: BlockSpec, j: TxId, receipt: Receipt)
    requires j < |b.txs|
  {
    && SequentialAction(b, j).Finish? && SequentialAction(b, j).receipt == receipt
    && b.txs[j].nonceMatches(SequentialOverlay(b, j))
  }

  /**
   * In every state of every run the committed receipts are those of the final results, every
   * committed nonce fits what the results before it leave, and between commits the committed state is
   * what the committed results leave.
   */
  lemma CommittedPrefixIsFinal(b: BlockSpec, trace: seq<State>, k: nat)
    requires IsRun(b, trace) && k < |trace|
    ensures
      var s := trace[k];
      && |s.cells| == |b.txs| && |s.ledger.receipts| == s.ledger.committed <= s.finality <= |b.txs|
      && (forall j :: 0 <= j < s.ledger.committed ==> Accepts(b, s.cells, j, s.ledger.receipts[j]))
      && (s.ledger.applying.None? ==> s.ledger.overlay == Merged(s.cells, s.ledger.committed))
  {
    hide Inv, FinalityOk, IsRun, Merged;
    RunKeeps(b, trace, k);
    Parts(b, trace[k]);
  }

  /**
   * Serializability. In every state of every run, as far as the committed results are steady, the
   * committed receipts are those of executing the transactions one after another and every committed
   * nonce fits the state before it; if all are steady, then between commits the committed state is the
   * state of that execution.
   */
  lemma CommittedPrefixIsSequential(b: BlockSpec, trace: seq<State>, k: nat, n: nat)
    requires IsRun(b, trace) && k < |trace|
    requires n <= trace[k].ledger.committed && n <= |trace[k].cells| && SteadyBelow(trace[k].cells, n)
    ensures
      var ledger := trace[k].ledger;
      && |ledger.receipts| == ledger.committed <= |b.txs|
      && (forall j :: 0 <= j < n ==> Commits(b, j, ledger.receipts[j]))
      && (ledger.applying.None? && n == ledger.committed ==> ledger.overlay == SequentialOverlay(b, n))
  {
    hide Inv, IsRun, SteadyBelow, SequentialBelow, Commits, SequentialOverlay;
    RunKeeps(b, trace, k);
    CommittedPrefixIsFinal(b, trace, k);
    SteadyIsSequential(b, trace[k], n);
    CommitsInOrder(b, trace, k, n);
  }

  /** As far as the committed results are the sequential ones, so is everything that is committed. */
  lemma CommitsInOrder(b: BlockSpec, trace: seq<State>, k: nat, n: nat)
    requires IsRun(b, trace) && k < |trace| && n <= trace[k].ledger.committed
    requires n <= |trace[k].cells| == |b.txs| && SequentialBelow(b, trace[k].cells, n)
    ensures
      var ledger := trace[k].ledger;
      && |ledger.receipts| == ledger.committed <= |b.txs|
      && (forall j :: 0 <= j < n ==> Commits(b, j, ledger.receipts[j]))
      && (ledger.applying.None? && n == ledger.committed ==> ledger.overlay == SequentialOverlay(b, n))
  {
    hide SequentialAction, SequentialOverlay, IsRun, Merged;
    CommittedPrefixIsFinal(b, trace, k);
    forall j | 0 <= j < n ensures Commits(b, j, trace[k].ledger.receipts[j]) {
      assert Accepts(b, trace[k].cells, j, trace[k].ledger.receipts[j]);
    }
  }

  lemma SteadyLedgerIsSequential(b: BlockSpec, trace: seq<State>, k: nat)
    requires IsRun(b, trace) && k < |trace| && SteadyLedger(trace[k])
    ensures
      var ledger := trace[k].ledger;
      && |ledger.receipts| == ledger.committed <= |b.txs|
      && (forall j :: 0 <= j < ledger.committed ==> Commits(b, j, ledger.receipts[j]))
      && (ledger.applying.None? ==> ledger.overlay == SequentialOverlay(b, ledger.committed))
  {
    hide IsRun, SteadyBelow, Commits, SequentialOverlay;
    CommittedPrefixIsSequential(b, trace, k, trace[k].ledger.committed);
  }

  /** While a commit is being applied, what is in place plus what remains is the next sequential state. */
  lemma CommitInProgressIsSequential(b: BlockSpec, trace: seq<State>, k: nat)
    requires IsRun(b, trace) && k < |trace|
    requires trace[k].ledger.applying.Some?
    requires trace[k].ledger.committed < |trace[k].cells| && SteadyBelow(trace[k].cells, trace[k].ledger.committed + 1)
    ensures
      var ledger := trace[k].ledger;
      && ledger.committed < |b.txs|
      && ledger.overlay + ledger.applying.value == SequentialOverlay(b, ledger.committed + 1)
  {
    hide Inv, SequentialAction, SequentialOverlay, FinalityOk, IsRun, Merged, SteadyBelow;
    RunKeeps(b, trace, k);
    Parts(b, trace[k]);
    SteadyIsSequential(b, trace[k], trace[k].ledger.committed + 1);
    assert Merged(trace[k].cells, trace[k].ledger.committed + 1)
      == SequentialOverlay(b, trace[k].ledger.committed + 1);
  }

  /** No scheduler inconsistency is ever detected. */
  lemma ParallelErrorIsUnreachable(b: BlockSpec, trace: seq<State>, k: nat)
    requires IsRun(b, trace) && k < |trace|
    ensures trace[k].abort.Some? ==> !trace[k].abort.value.ParallelError?
  {
    RunKeeps(b, trace, k);
  }

  // ----- when a re-execution may skip the rewind -----

  /** A conflicting transaction shows exactly its last write set, and its history entry, as estimates. */
  lemma ConflictShowsEstimates(b: BlockSpec, trace: seq<State>, k: nat, j: TxId)
    requires IsRun(b, trace) && k < |trace| && j < |b.txs|
    ensures Wellformed(b, trace[k])
    ensures trace[k].cells[j].status == Conflict ==>
              && trace[k].mem[j].Keys == LastWrites(trace[k].cells[j]) + {History(j)}
              && forall l <- trace[k].mem[j] :: trace[k].mem[j][l].estimate
  {
    RunKeeps(b, trace, k);
    assert CellOk(b, trace[k], j);
    hide Inv, ResultOk, RunOk;
  }

  /** The running incarnation writes no location its predecessor had not written, and is not blocked. */
  ghost predicate MaySkipRewind(c: Cell) {
    && (c.phase.Publishing? || c.phase.Trimming?)
    && !c.phase.at.blocked && c.phase.run.Succeeded? && !WritesNew(c, c.phase.run)
  }

  /**
   * Skipping the rewind is sound. While such an incarnation publishes, trims and records, no lookup
   * that any transaction could have accepted before the step is rejected after it.
   */
  lemma RewindMayBeSkipped(
    b: BlockSpec, trace: seq<State>, k: nat, step: Step, reader: TxId, l: Location, v: Version)
    requires IsRun(b, trace) && k < |trace| && Wellformed(b, trace[k]) && Enabled(b, trace[k], step)
    requires step.Publish? || step.Trim? || step.Record?
    requires MaySkipRewind(trace[k].cells[step.j])
    requires reader < |b.txs| && Current(trace[k].mem, l, reader, v)
    ensures Wellformed(b, Apply(b, trace[k], step)) && Current(Apply(b, trace[k], step).mem, l, reader, v)
  {
    var s := trace[k];
    RunKeeps(b, trace, k);
    assert CellOk(b, s, step.j);
    hide *;
    StepKeeps(b, s, step);
    Parts(b, Apply(b, s, step));
    SkipKeepsCurrent(b, s, step, reader, l, v);
  }

  lemma SkipKeepsCurrent(b: BlockSpec, s: State, step: Step, reader: TxId, l: Location, v: Version)
    requires Wellformed(b, s) && Enabled(b, s, step) && Wellformed(b, Apply(b, s, step))
    requires step.Publish? || step.Trim? || step.Record?
    requires CellOk(b, s, step.j) && MaySkipRewind(s.cells[step.j])
    requires reader < |b.txs| && Current(s.mem, l, reader, v)
    ensures Current(Apply(b, s, step).mem, l, reader, v)
  {
    var j := step.j;
    var m, m' := s.mem[j], Apply(b, s, step).mem[j];
    SkipIsQuiet(b, s, step);
    assert Apply(b, s, step).mem == s.mem[j := m'];
    hide Enabled, Apply, CellOk;
    if reader <= j {
      CurrentBelow(s.mem, j, m', l, reader, v);
    } else {
      assert QuietAt(m, m', l);
      CurrentAbove(s.mem, j, m', l, reader, v);
    }
  }

  lemma PublishIsQuiet(b: BlockSpec, s: State, j: TxId, l: Location)
    requires Wellformed(b, s) && CanPublish(b, s, j, l) && j < |b.txs|
    requires CellOk(b, s, j) && MaySkipRewind(s.cells[j])
    ensures Quiet(s.mem[j], PublishStep(b, s, j, l).mem[j])
  {
    var c := s.cells[j];
    PublishCell(b, c, s.mem[j], s.journal[j], j, l);
    hide CellGood, Quiet, WritesNew;
    assert !Threat(PublishedCell(c, l), 0);
  }

  lemma TrimIsQuiet(b: BlockSpec, s: State, j: TxId, l: Location)
    requires Wellformed(b, s) && CanTrim(b, s, j, l) && j < |b.txs| && CellOk(b, s, j)
    ensures Quiet(s.mem[j], TrimStep(b, s, j, l).mem[j])
  {
    hide RunOk;
  }

  lemma RecordIsQuiet(b: BlockSpec, s: State, j: TxId)
    requires Wellformed(b, s) && CanRecord(b, s, j) && j < |b.txs| && CellOk(b, s, j)
    ensures Quiet(s.mem[j], RecordStep(b, s, j).mem[j])
  {
    HistoryOlder(b, s.cells[j], s.mem[j], s.journal[j], j);
    hide CellGood;
  }

  lemma SkipIsQuiet(b: BlockSpec, s: State, step: Step)
    requires Wellformed(b, s) && Enabled(b, s, step)
    requires step.Publish? || step.Trim? || step.Record?
    requires CellOk(b, s, step.j) && MaySkipRewind(s.cells[step.j])
    ensures Quiet(s.mem[step.j], Apply(b, s, step).mem[step.j])
  {
    hide CellOk, MaySkipRewind, Quiet, PublishStep, TrimStep, RecordStep;
    match step
    case Publish(j, l) => PublishIsQuiet(b, s, j, l);
    case Trim(j, l) => TrimIsQuiet(b, s, j, l);
    case Record(j) => RecordIsQuiet(b, s, j);
  }
}
