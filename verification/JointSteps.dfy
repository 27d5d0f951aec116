/** The two machines stay in step. */
module JointSteps {
  import opened Types
  import opened Block
  import opened Joint
  import opened Reachability
  import SI = SchedulingInvariant

  /** A move of `i` keeps the match if it does at `i`. */
  lemma OneTx(p: P.State, s: S.State, p': P.State, s': S.State, i: TxId)
    requires Match(p, s) && i < |s.txs| == |s'.txs| == |p'.cells|
    requires p'.cells == p.cells[i := p'.cells[i]] && s'.txs == s.txs[i := s'.txs[i]]
    requires SameStamps(p', s') && forall t <- p.tasks :: t.txid != i ==> t in p'.tasks
    requires SameTx(p', i, p'.cells[i], s'.txs[i])
    ensures Match(p', s')
  {
    hide SamePoint, SameStamps;
    forall k | 0 <= k < |s'.txs| ensures SameTx(p', k, p'.cells[k], s'.txs[k]) {
      assert SameTx(p, k, p.cells[k], s.txs[k]);
    }
  }

  // ----- the scheduler alone -----

  /** Claims, cursors and the graph concern the scheduler only. */
  lemma ClaimsMatch(p: P.State, s: S.State, step: S.Step)
    requires Match(p, s) && S.Enabled(s, step) && PlanAlone(p, s, step)
    requires
      || step.Fetch? || step.Claim? || step.Start? || step.ReleaseDependents? || step.Check? || step.Take?
      || step.Unbar?
    ensures Match(p, S.Apply(s, step))
  {
    hide SameTx, S.FirstUnexecuted;
    var s' := S.Apply(s, step);
    assert s'.txs == s.txs && SameStamps(p, s');
  }

  /** The lock holder turns to the graph, and back. */
  lemma TurnsMatch(p: P.State, s: S.State, step: S.Step)
    requires Match(p, s) && S.Enabled(s, step) && PlanAlone(p, s, step)
    requires step.Finish? || step.Block? || step.Error? || step.Rewind? || step.LinkAgain?
    ensures Match(p, S.Apply(s, step))
  {
    var i, s' := step.txid, S.Apply(s, step);
    assert SameTx(p, i, p.cells[i], s.txs[i]);
    hide Match;
    OneTx(p, s, p, s', i);
  }

  lemma SweepsMatch(p: P.State, s: S.State, step: S.Step)
    requires Match(p, s) && S.Enabled(s, step) && PlanAlone(p, s, step)
    requires step.Sweep? || step.EndSweep?
    ensures Match(p, S.Apply(s, step))
  {
    var i, s' := step.txid, S.Apply(s, step);
    assert SameTx(p, i, p.cells[i], s.txs[i]);
    hide Match;
    OneTx(p, s, p, s', i);
  }

  lemma PlanMatches(p: P.State, s: S.State, step: S.Step)
    requires Match(p, s) && S.Enabled(s, step) && PlanAlone(p, s, step)
    ensures Match(p, S.Apply(s, step))
  {
    hide Match, S.Enabled, S.Apply;
    if step.Finish? || step.Block? || step.Error? || step.Rewind? || step.LinkAgain? {
      TurnsMatch(p, s, step);
    } else if step.Sweep? || step.EndSweep? {
      SweepsMatch(p, s, step);
    } else {
      ClaimsMatch(p, s, step);
    }
  }

  // ----- an execution, a scan or the commit loop alone -----

  lemma ExecutionMatches(b: BlockSpec, p: P.State, s: S.State, work: P.Step)
    requires Match(p, s) && P.Wellformed(b, p) && P.Enabled(b, p, work)
    requires
      || work.Lookup? || work.Fetch? || work.Complete? || work.Publish? || work.EndPublish? || work.Trim?
      || work.MarkFailed?
    ensures Match(P.Apply(b, p, work), s)
  {
    var j, p' := work.j, P.Apply(b, p, work);
    assert SameTx(p, j, p.cells[j], s.txs[j]);
    hide Match, Next, P.Doomed, View, P.Latest, P.LastWrites;
    OneTx(p, s, p', s, j);
  }

  lemma RecordMatches(b: BlockSpec, p: P.State, s: S.State, j: TxId)
    requires Match(p, s) && Reaches(b, p) && P.Wellformed(b, p) && P.CanRecord(b, p, j)
    ensures Match(P.RecordStep(b, p, j), s)
  {
    assert SameTx(p, j, p.cells[j], s.txs[j]);
    hide Match, Reaches;
    EntryIsOlder(b, p, j);
    OneTx(p, s, P.RecordStep(b, p, j), s, j);
  }

  lemma DiscardMatches(b: BlockSpec, p: P.State, s: S.State, j: TxId)
    requires Match(p, s) && Reaches(b, p) && P.Wellformed(b, p) && P.CanDiscard(b, p, j)
    ensures Match(P.DiscardStep(b, p, j), s)
  {
    assert SameTx(p, j, p.cells[j], s.txs[j]);
    hide Match, Reaches, P.LastWrites;
    EntryIsOlder(b, p, j);
    OneTx(p, s, P.DiscardStep(b, p, j), s, j);
  }

  lemma ScanMatches(b: BlockSpec, p: P.State, s: S.State, work: P.Step)
    requires Match(p, s) && P.Wellformed(b, p) && P.Enabled(b, p, work) && WorkAlone(p, work)
    requires work.Check? || work.EndScan? || work.Mark?
    ensures Match(P.Apply(b, p, work), s)
  {
    var j, p' := work.j, P.Apply(b, p, work);
    assert SameTx(p, j, p.cells[j], s.txs[j]);
    hide Match, P.LastWrites, P.Current;
    OneTx(p, s, p', s, j);
  }

  lemma LedgerMatches(b: BlockSpec, p: P.State, s: S.State, work: P.Step)
    requires Match(p, s) && P.Wellformed(b, p) && P.Enabled(b, p, work)
    requires work.TakeResult? || work.ApplyWrite?
    ensures Match(P.Apply(b, p, work), s)
  {
    hide SamePoint, AllWrites;
    var p' := P.Apply(b, p, work);
    assert p'.cells == p.cells && p'.tasks == p.tasks && SameStamps(p', s);
    forall k | 0 <= k < |s.txs| ensures SameTx(p', k, p'.cells[k], s.txs[k]) {
      assert SameTx(p, k, p.cells[k], s.txs[k]);
    }
  }

  lemma EndsMatch(b: BlockSpec, p: P.State, s: S.State, work: P.Step)
    requires Match(p, s) && Reaches(b, p) && P.Wellformed(b, p) && P.Enabled(b, p, work)
    requires work.Record? || work.Discard?
    ensures Match(P.Apply(b, p, work), s)
  {
    hide Match, Reaches, P.RecordStep, P.DiscardStep;
    if work.Record? {
      RecordMatches(b, p, s, work.j);
    } else {
      DiscardMatches(b, p, s, work.j);
    }
  }

  lemma WorkMatches(b: BlockSpec, p: P.State, s: S.State, work: P.Step)
    requires Match(p, s) && Reaches(b, p) && P.Wellformed(b, p) && P.Enabled(b, p, work) && WorkAlone(p, work)
    ensures Match(P.Apply(b, p, work), s)
  {
    hide Match, Reaches, P.Wellformed, P.Enabled, P.Apply;
    if work.Record? || work.Discard? {
      EndsMatch(b, p, s, work);
    } else if work.Check? || work.EndScan? || work.Mark? {
      ScanMatches(b, p, s, work);
    } else if work.TakeResult? || work.ApplyWrite? {
      LedgerMatches(b, p, s, work);
    } else {
      ExecutionMatches(b, p, s, work);
    }
  }

  // ----- both together -----

  lemma StartMatches(b: BlockSpec, p: P.State, s: S.State, i: TxId)
    requires Match(p, s) && P.Wellformed(b, p) && i < |s.txs|
    requires P.CanClaimExecution(b, p, i) && S.CanStart(s, i)
    ensures Match(P.ClaimExecutionStep(b, p, i), S.StartStep(s, i))
  {
    assert SameTx(p, i, p.cells[i], s.txs[i]);
    hide Match;
    OneTx(p, s, P.ClaimExecutionStep(b, p, i), S.StartStep(s, i), i);
  }

  lemma TakeMatches(b: BlockSpec, p: P.State, s: S.State, i: TxId)
    requires Match(p, s) && P.Wellformed(b, p) && i < |s.txs|
    requires P.CanClaimValidation(b, p, i) && S.CanTake(s, i)
    ensures Match(P.ClaimValidationStep(b, p, i), S.TakeStep(s, i))
  {
    assert SameTx(p, i, p.cells[i], s.txs[i]);
    hide Match;
    OneTx(p, s, P.ClaimValidationStep(b, p, i), S.TakeStep(s, i), i);
  }

  lemma RunMatches(b: BlockSpec, p: P.State, s: S.State, i: TxId)
    requires Match(p, s) && P.Wellformed(b, p) && i < |s.txs|
    requires P.CanBeginExecution(b, p, TaskFor(p.cells[i], i)) && S.InPhase(s, i, Executing, S.Pending)
    ensures Match(P.BeginExecutionStep(b, p, TaskFor(p.cells[i], i)), S.RunStep(s, i))
  {
    assert SameTx(p, i, p.cells[i], s.txs[i]);
    hide Match;
    OneTx(p, s, P.BeginExecutionStep(b, p, TaskFor(p.cells[i], i)), S.RunStep(s, i), i);
  }

  /** A validation finds its result and starts to scan. */
  lemma ScanForm(b: BlockSpec, p: P.State, i: TxId)
    requires Reaches(b, p) && P.Wellformed(b, p) && i < |b.txs| && p.cells[i].status == Validating
    requires P.CanBeginValidation(b, p, TaskFor(p.cells[i], i))
    ensures p.cells[i].result.Some?
    ensures P.BeginValidationStep(b, p, TaskFor(p.cells[i], i)) == p.(
      tasks := p.tasks - multiset{TaskFor(p.cells[i], i)}, clock := p.clock + 1,
      cells := p.cells[i := p.cells[i].(phase :=
        P.Scanning(p.clock, p.cells[i].result.value.versions.Keys, false))])
  {
    hide Reaches;
    PendingResult(b, p, i);
  }

  /** A rejected result is withdrawn. */
  lemma InvalidateForm(b: BlockSpec, p: P.State, i: TxId)
    requires Reaches(b, p) && P.Wellformed(b, p) && P.CanInvalidate(b, p, i)
    ensures
      var p' := P.InvalidateStep(b, p, i);
      p' == p.(mem := p'.mem,
               cells := p.cells[i := p.cells[i].(status := Conflict, phase := P.RewindPhase(|b.txs|, i + 1))])
  {
    hide Reaches;
    EntryIsCurrent(b, p, i);
  }

  lemma ScannedMatches(p: P.State, s: S.State, i: TxId, p': P.State, todo: set<Location>)
    requires Match(p, s) && S.InPhase(s, i, Validating, S.Pending)
    requires p' == p.(
      tasks := p.tasks - multiset{TaskFor(p.cells[i], i)}, clock := p.clock + 1,
      cells := p.cells[i := p.cells[i].(phase := P.Scanning(p.clock, todo, false))])
    ensures Match(p', S.ScanStep(s, i))
  {
    assert SameTx(p, i, p.cells[i], s.txs[i]);
    hide Match;
    OneTx(p, s, p', S.ScanStep(s, i), i);
  }

  lemma BeginScanMatches(b: BlockSpec, p: P.State, s: S.State, i: TxId)
    requires Match(p, s) && Reaches(b, p) && P.Wellformed(b, p) && i < |s.txs| == |b.txs| == |p.cells|
    requires p.cells[i].status == Validating && S.InPhase(s, i, Validating, S.Pending)
    requires P.CanBeginValidation(b, p, TaskFor(p.cells[i], i))
    ensures Match(P.BeginValidationStep(b, p, TaskFor(p.cells[i], i)), S.ScanStep(s, i))
  {
    hide *;
    ScanForm(b, p, i);
    ScannedMatches(p, s, i, P.BeginValidationStep(b, p, TaskFor(p.cells[i], i)), p.cells[i].result.value.versions.Keys);
  }

  lemma ConcludeMatches(b: BlockSpec, p: P.State, s: S.State, i: TxId)
    requires Match(p, s) && P.Wellformed(b, p) && i < |s.txs|
    requires P.CanConclude(b, p, i) && S.CanNote(s, i)
    ensures Match(P.ConcludeStep(b, p, i, s.txs[i].phase.ending.HandOff?), S.NoteStep(s, i))
  {
    assert SameTx(p, i, p.cells[i], s.txs[i]);
    hide Match, P.WritesNew;
    OneTx(p, s, P.ConcludeStep(b, p, i, s.txs[i].phase.ending.HandOff?), S.NoteStep(s, i), i);
  }

  lemma DropMatches(b: BlockSpec, p: P.State, s: S.State, i: TxId)
    requires Match(p, s) && P.Wellformed(b, p) && i < |s.txs|
    requires P.CanDrop(b, p, i) && S.CanNote(s, i)
    ensures Match(P.DropStep(b, p, i), S.NoteStep(s, i))
  {
    assert SameTx(p, i, p.cells[i], s.txs[i]);
    hide Match;
    OneTx(p, s, P.DropStep(b, p, i), S.NoteStep(s, i), i);
  }

  lemma StampMatches(b: BlockSpec, p: P.State, s: S.State, i: TxId)
    requires Match(p, s) && P.Wellformed(b, p) && i < |s.txs|
    requires P.CanStamp(b, p, i) && S.CanStamp(s, i)
    ensures Match(P.StampStep(b, p, i), S.StampStep(s, i))
  {
    assert SameTx(p, i, p.cells[i], s.txs[i]);
    hide Match;
    OneTx(p, s, P.StampStep(b, p, i), S.StampStep(s, i), i);
  }

  lemma LowerMatches(b: BlockSpec, p: P.State, s: S.State, i: TxId)
    requires Match(p, s) && P.Wellformed(b, p) && i < |s.txs|
    requires P.CanLower(b, p, i) && S.CanLower(s, i)
    ensures Match(P.LowerStep(b, p, i), S.LowerStep(s, i))
  {
    assert SameTx(p, i, p.cells[i], s.txs[i]);
    hide Match;
    OneTx(p, s, P.LowerStep(b, p, i), S.LowerStep(s, i), i);
  }

  lemma AcceptMatches(b: BlockSpec, p: P.State, s: S.State, i: TxId)
    requires Match(p, s) && P.Wellformed(b, p) && i < |s.txs|
    requires P.CanEndScan(b, p, i) && !p.cells[i].phase.conflict && S.CanJudge(s, i)
    ensures Match(P.EndScanStep(b, p, i), S.AcceptStep(s, i))
  {
    assert SameTx(p, i, p.cells[i], s.txs[i]);
    hide Match;
    OneTx(p, s, P.EndScanStep(b, p, i), S.AcceptStep(s, i), i);
  }

  lemma WithdrawnMatches(p: P.State, s: S.State, i: TxId, p': P.State)
    requires Match(p, s) && S.CanJudge(s, i) && |p'.cells| == |s.txs|
    requires p' == p.(mem := p'.mem,
      cells := p.cells[i := p.cells[i].(status := Conflict, phase := P.RewindPhase(|s.txs|, i + 1))])
    ensures Match(p', S.RejectStep(s, i))
  {
    assert SameTx(p, i, p.cells[i], s.txs[i]);
    hide Match;
    OneTx(p, s, p', S.RejectStep(s, i), i);
  }

  lemma RejectMatches(b: BlockSpec, p: P.State, s: S.State, i: TxId)
    requires Match(p, s) && Reaches(b, p) && P.Wellformed(b, p) && i < |s.txs| == |b.txs| == |p.cells|
    requires P.CanInvalidate(b, p, i) && S.CanJudge(s, i)
    ensures Match(P.InvalidateStep(b, p, i), S.RejectStep(s, i))
  {
    hide *;
    InvalidateForm(b, p, i);
    WithdrawnMatches(p, s, i, P.InvalidateStep(b, p, i));
  }

  lemma FinalizeMatches(b: BlockSpec, p: P.State, s: S.State)
    requires Match(p, s) && P.Wellformed(b, p) && P.CanFinalize(b, p) && S.CanFinalize(s)
    ensures Match(P.FinalizeStep(b, p), S.FinalizeStep(s))
  {
    var i := s.prefix.finality;
    assert SameTx(p, i, p.cells[i], s.txs[i]);
    hide Match;
    OneTx(p, s, P.FinalizeStep(b, p), S.FinalizeStep(s), i);
  }

  lemma CommitMatches(b: BlockSpec, p: P.State, s: S.State)
    requires Match(p, s) && P.Wellformed(b, p) && P.CanPublishCommit(b, p) && S.CanCommit(s)
    ensures Match(P.PublishCommitStep(b, p), S.CommitStep(s))
  {
    hide SamePoint;
    var p', s' := P.PublishCommitStep(b, p), S.CommitStep(s);
    forall k | 0 <= k < |s.txs| ensures SameTx(p', k, p'.cells[k], s'.txs[k]) {
      assert SameTx(p, k, p.cells[k], s.txs[k]);
    }
  }

  lemma BothMatch(b: BlockSpec, p: P.State, s: S.State, step: S.Step, work: P.Step)
    requires Match(p, s) && Reaches(b, p) && P.Wellformed(b, p) && P.Enabled(b, p, work) && S.Enabled(s, step)
    requires Together(p, s, step, work)
    ensures Match(P.Apply(b, p, work), S.Apply(s, step))
  {
    hide Match, Reaches, P.Wellformed, P.Enabled, P.Apply, S.Enabled, S.Apply;
    if step.Start? || step.Run? || step.Note? {
      ExecutingMatches(b, p, s, step, work);
    } else {
      ValidatingMatches(b, p, s, step, work);
    }
  }

  lemma ExecutingMatches(b: BlockSpec, p: P.State, s: S.State, step: S.Step, work: P.Step)
    requires Match(p, s) && P.Wellformed(b, p) && P.Enabled(b, p, work) && S.Enabled(s, step)
    requires Together(p, s, step, work) && (step.Start? || step.Run? || step.Note?)
    ensures Match(P.Apply(b, p, work), S.Apply(s, step))
  {
    hide Match, TaskFor, P.ClaimExecutionStep, P.BeginExecutionStep, P.ConcludeStep, P.DropStep;
    hide S.StartStep, S.RunStep, S.NoteStep;
    match step
    case Start(i) => StartMatches(b, p, s, i);
    case Run(i) => RunMatches(b, p, s, i);
    case Note(i) =>
      if p.cells[i].phase.Dropping? {
        DropMatches(b, p, s, i);
      } else {
        ConcludeMatches(b, p, s, i);
      }
  }

  lemma ValidatingMatches(b: BlockSpec, p: P.State, s: S.State, step: S.Step, work: P.Step)
    requires Match(p, s) && Reaches(b, p) && P.Wellformed(b, p) && P.Enabled(b, p, work) && S.Enabled(s, step)
    requires Together(p, s, step, work) && !step.Start? && !step.Run? && !step.Note?
    ensures Match(P.Apply(b, p, work), S.Apply(s, step))
  {
    SameCount(p, s);
    hide Match, Reaches, TaskFor, P.StampStep, P.LowerStep, P.ClaimValidationStep, P.BeginValidationStep, P.EndScanStep;
    hide P.InvalidateStep, P.FinalizeStep, P.PublishCommitStep;
    hide S.StampStep, S.LowerStep, S.TakeStep, S.ScanStep, S.AcceptStep, S.RejectStep, S.FinalizeStep, S.CommitStep;
    match step
    case Stamp(i) => StampMatches(b, p, s, i);
    case Lower(i) => LowerMatches(b, p, s, i);
    case Take(i) => TakeMatches(b, p, s, i);
    case Scan(i) =>
      StatusIs(p, s, i);
      BeginScanMatches(b, p, s, i);
    case Accept(i) => AcceptMatches(b, p, s, i);
    case Reject(i) => RejectMatches(b, p, s, i);
    case Finalize => FinalizeMatches(b, p, s);
    case Commit => CommitMatches(b, p, s);
  }

  lemma StatusIs(p: P.State, s: S.State, i: TxId)
    requires Match(p, s) && i < |s.txs|
    ensures p.cells[i].status == s.txs[i].status
  {
    assert SameTx(p, i, p.cells[i], s.txs[i]);
  }

  lemma SameCount(p: P.State, s: S.State)
    requires Match(p, s)
    ensures |p.cells| == |s.txs|
  {
  }
}
