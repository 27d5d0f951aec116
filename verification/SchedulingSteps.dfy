/** Each step of the scheduler keeps its invariant. */
module SchedulingSteps {
  import opened Types
  import opened DependencyGraph
  import opened Scheduling
  import opened SchedulingInvariant

  // ----- steps inside one transaction's lock -----

  lemma LockedStep(s: State, s': State, i: TxId)
    requires Inv(s) && Moved(s, s', i)
    requires s'.graph == s.graph && s'.sweeps == s.sweeps && s'.claims == s.claims && s'.prefix == s.prefix
    requires s'.stamps.lower == s.stamps.lower && s'.stamps.confirmed == s.stamps.confirmed
    requires s'.stamps.cursor == s.stamps.cursor && s'.stamps.clock >= s.stamps.clock
    requires TxOk(s', i) && CheckOk(s', i) && StampOk(s', i)
    requires Owned(s.txs[i]) ==> Owned(s'.txs[i])
    requires Waiting(s'.txs[i]) ==> Waiting(s.txs[i])
    requires !s.txs[i].phase.Rewinding?
    ensures Inv(s')
  {
    TxsFrame(s, s', i);
    GraphFrame(s, s', i);
    ChecksFrame(s, s', i);
  }

  lemma RunKeeps(s: State, i: TxId)
    requires Inv(s) && InPhase(s, i, Executing, Pending)
    ensures Inv(RunStep(s, i))
  {
    assert TxOk(s, i) && StampOk(s, i);
    LockedStep(s, RunStep(s, i), i);
  }

  /** What the end of an execution makes of its own transaction. */
  lemma NotedTx(s: State, i: TxId)
    requires CanNote(s, i) && TxOk(s, i) && StampOk(s, i)
    ensures
      var s' := NoteStep(s, i);
      && Wellformed(s') && TxOk(s', i) && CheckOk(s', i) && StampOk(s', i)
      && !Owned(s.txs[i]) && (Waiting(s'.txs[i]) ==> Waiting(s.txs[i]))
  {
    match s.txs[i].phase.ending
    case HandOff =>
    case Fresh =>
    case Repeat =>
    case Retry =>
  }

  lemma NoteKeeps(s: State, i: TxId)
    requires Inv(s) && CanNote(s, i)
    ensures Inv(NoteStep(s, i))
  {
    assert TxOk(s, i) && StampOk(s, i);
    NotedTx(s, i);
    hide TxOk, CheckOk, StampOk, Owned, Waiting, Inv, Wellformed;
    LockedStep(s, NoteStep(s, i), i);
  }

  lemma StampKeeps(s: State, i: TxId)
    requires Inv(s) && CanStamp(s, i)
    ensures Inv(StampStep(s, i))
  {
    assert TxOk(s, i) && StampOk(s, i);
    LockedStep(s, StampStep(s, i), i);
  }

  lemma ScanKeeps(s: State, j: TxId)
    requires Inv(s) && InPhase(s, j, Validating, Pending)
    ensures Inv(ScanStep(s, j))
  {
    assert TxOk(s, j) && StampOk(s, j);
    var s' := ScanStep(s, j);
    forall k | 0 <= k < |s.txs| ensures s.stamps.lower[k] < s.stamps.clock {
      assert StampOk(s, k);
    }
    LockedStep(s, s', j);
  }

  lemma RejectKeeps(s: State, j: TxId)
    requires Inv(s) && CanJudge(s, j)
    ensures Inv(RejectStep(s, j))
  {
    assert TxOk(s, j) && StampOk(s, j);
    LockedStep(s, RejectStep(s, j), j);
  }

  // ----- timestamps and the validation cursor -----

  /** A rewind that has been stamped but not yet moved the cursor covers everything it makes stale. */
  lemma LowerChecks(s: State, i: TxId)
    requires Inv(s) && CanLower(s, i)
    ensures ChecksOk(LowerStep(s, i))
  {
    var s' := LowerStep(s, i);
    var target := s.txs[i].phase.target;
    assert TxOk(s, i) && StampOk(s, i);
    assert i >= s.prefix.finality && target >= i;
    forall j | 0 <= j < |s'.txs| ensures CheckOk(s', j) && StampOk(s', j) {
      assert CheckOk(s, j) && StampOk(s, j);
      if target <= j {
        assert RewindsTo(s'.txs[i].phase, j);
      } else {
        assert forall k :: 0 <= k <= j ==> s'.stamps.lower[k] == s.stamps.lower[k];
        if m :| 0 <= m < |s.txs| && RewindsTo(s.txs[m].phase, j) {
          assert RewindsTo(s'.txs[m].phase, j);
        }
      }
    }
    assert forall k :: 0 <= k < s.prefix.finality ==> s'.stamps.lower[k] == s.stamps.lower[k];
  }

  lemma LowerKeeps(s: State, i: TxId)
    requires Inv(s) && CanLower(s, i)
    ensures Inv(LowerStep(s, i))
  {
    assert TxOk(s, i);
    TxsFrame(s, LowerStep(s, i), i);
    GraphFrame(s, LowerStep(s, i), i);
    LowerChecks(s, i);
  }

  lemma RewindChecks(s: State, i: TxId)
    requires Inv(s) && CanRewind(s, i)
    ensures ChecksOk(RewindStep(s, i))
  {
    var s' := RewindStep(s, i);
    var target := s.txs[i].phase.target;
    assert TxOk(s, i) && StampOk(s, i);
    forall j | 0 <= j < |s'.txs| ensures CheckOk(s', j) && StampOk(s', j) {
      assert CheckOk(s, j) && StampOk(s, j);
      if m :| target > j && 0 <= m < |s.txs| && RewindsTo(s.txs[m].phase, j) {
        assert RewindsTo(s'.txs[m].phase, j);
      }
    }
  }

  lemma RewindKeeps(s: State, i: TxId)
    requires Inv(s) && CanRewind(s, i)
    ensures Inv(RewindStep(s, i))
  {
    assert TxOk(s, i);
    TxsFrame(s, RewindStep(s, i), i);
    GraphFrame(s, RewindStep(s, i), i);
    RewindChecks(s, i);
  }

  lemma CheckKeeps(s: State)
    requires Inv(s) && CanCheck(s)
    ensures Inv(CheckStep(s))
  {
    var s' := CheckStep(s);
    var i := s.stamps.cursor;
    assert TxOk(s, i) && StampOk(s, i);
    TxsFrame(s, s', i);
    GraphFrame(s, s', i);
    forall j | 0 <= j < |s'.txs| ensures CheckOk(s', j) && StampOk(s', j) {
      assert CheckOk(s, j) && StampOk(s, j);
      assert forall m :: 0 <= m < |s.txs| ==> RewindsTo(s'.txs[m].phase, j) == RewindsTo(s.txs[m].phase, j);
    }
  }

  lemma TakeKeeps(s: State, j: TxId)
    requires Inv(s) && CanTake(s, j)
    ensures Inv(TakeStep(s, j))
  {
    var s' := TakeStep(s, j);
    assert TxOk(s, j) && StampOk(s, j);
    TxsFrame(s, s', j);
    GraphFrame(s, s', j);
    ChecksFrame(s, s', j);
  }

  lemma AcceptChecks(s: State, j: TxId)
    requires Inv(s) && CanJudge(s, j)
    ensures ChecksOk(AcceptStep(s, j))
  {
    var s' := AcceptStep(s, j);
    assert TxOk(s, j) && StampOk(s, j);
    forall k | 0 <= k < |s'.txs| ensures CheckOk(s', k) && StampOk(s', k) {
      assert CheckOk(s, k) && StampOk(s, k);
      if m :| 0 <= m < |s.txs| && RewindsTo(s.txs[m].phase, k) {
        assert RewindsTo(s'.txs[m].phase, k);
      }
    }
  }

  lemma AcceptKeeps(s: State, j: TxId)
    requires Inv(s) && CanJudge(s, j)
    ensures Inv(AcceptStep(s, j))
  {
    assert TxOk(s, j);
    TxsFrame(s, AcceptStep(s, j), j);
    GraphFrame(s, AcceptStep(s, j), j);
    AcceptChecks(s, j);
  }

  lemma FinalizeKeeps(s: State)
    requires Inv(s) && CanFinalize(s)
    ensures Inv(FinalizeStep(s))
  {
    var s' := FinalizeStep(s);
    var f := s.prefix.finality;
    assert TxOk(s, f) && StampOk(s, f);
    GraphFrame(s, s', f);
    forall k | 0 <= k < |s'.txs| ensures TxOk(s', k) {
      assert TxOk(s, k);
    }
    forall k | 0 <= k < |s'.txs| ensures CheckOk(s', k) && StampOk(s', k) {
      assert CheckOk(s, k) && StampOk(s, k);
      if m :| 0 <= m < |s.txs| && RewindsTo(s.txs[m].phase, k) {
        assert RewindsTo(s'.txs[m].phase, k);
      }
    }
    assert LowerTsOk(s');
  }

  // ----- steps that change the graph -----

  /** A step that leaves every timestamp, the cursor and every validation alone. */
  lemma NoCheck(s: State, s': State, i: TxId)
    requires Inv(s) && Moved(s, s', i)
    requires s'.stamps == s.stamps && s'.claims.checking == s.claims.checking
    requires s'.prefix.finality == s.prefix.finality && s'.prefix.lowerTs == s.prefix.lowerTs
    requires !s.txs[i].phase.Rewinding? || s'.txs[i] == s.txs[i]
    requires
      || s'.txs[i] == s.txs[i]
      || (!s'.txs[i].phase.Scanning? && !s'.txs[i].phase.Lowering? && !s'.txs[i].phase.Free?)
      || (s'.txs[i].phase.Free? && s'.txs[i].status.Conflict?)
    ensures ChecksOk(s')
  {
    assert CheckOk(s, i) && StampOk(s, i);
    if m :| 0 <= m < |s.txs| && RewindsTo(s.txs[m].phase, i) {
      assert RewindsTo(s'.txs[m].phase, i);
    }
    ChecksFrame(s, s', i);
  }

  lemma ClaimEntry(s: State, i: TxId, k: TxId)
    requires CanClaim(s, i) && Wellformed(ClaimStep(s, i)) && k < |s.txs|
    requires TxOk(s, i) && EntryOk(s, k)
    ensures EntryOk(ClaimStep(s, i), k)
  {
  }

  lemma ClaimGraph(s: State, i: TxId)
    requires Inv(s) && CanClaim(s, i)
    ensures GraphOk(ClaimStep(s, i))
  {
    var s' := ClaimStep(s, i);
    assert TxOk(s, i) && Wellformed(s');
    forall k | 0 <= k < |s'.txs| ensures EntryOk(s', k) {
      ClaimEntry(s, i, k);
    }
  }

  lemma ClaimKeeps(s: State, i: TxId)
    requires Inv(s) && CanClaim(s, i)
    ensures Inv(ClaimStep(s, i))
  {
    var s' := ClaimStep(s, i);
    assert TxOk(s, i);
    TxsFrame(s, s', i);
    NoCheck(s, s', i);
    ClaimGraph(s, i);
  }

  lemma FetchKeeps(s: State)
    requires Inv(s)
    ensures Inv(FetchIndex(s))
  {
    var s' := FetchIndex(s);
    forall k | 0 <= k < |s'.txs| ensures TxOk(s', k) && CheckOk(s', k) && StampOk(s', k) {
      assert TxOk(s, k) && CheckOk(s, k) && StampOk(s, k);
      assert forall m :: 0 <= m < |s.txs| ==> RewindsTo(s'.txs[m].phase, k) == RewindsTo(s.txs[m].phase, k);
    }
    forall k | 0 <= k < |s'.txs| ensures EntryOk(s', k) {
      assert EntryOk(s, k);
    }
  }

  lemma StartEntry(s: State, i: TxId, k: TxId)
    requires CanStart(s, i) && Wellformed(StartStep(s, i)) && k < |s.txs|
    requires TxOk(s, i) && EntryOk(s, k)
    ensures EntryOk(StartStep(s, i), k)
  {
  }

  lemma StartGraph(s: State, i: TxId)
    requires Inv(s) && CanStart(s, i)
    ensures GraphOk(StartStep(s, i))
  {
    var s' := StartStep(s, i);
    assert TxOk(s, i) && Wellformed(s');
    forall k | 0 <= k < |s'.txs| ensures EntryOk(s', k) {
      StartEntry(s, i, k);
    }
  }

  lemma StartKeeps(s: State, i: TxId)
    requires Inv(s) && CanStart(s, i)
    ensures Inv(StartStep(s, i))
  {
    var s' := StartStep(s, i);
    assert TxOk(s, i);
    TxsFrame(s, s', i);
    NoCheck(s, s', i);
    StartGraph(s, i);
  }

  lemma FinishKeeps(s: State, i: TxId)
    requires Inv(s) && CanFinish(s, i)
    ensures Inv(FinishStep(s, i))
  {
    var s' := FinishStep(s, i);
    assert TxOk(s, i);
    TxsFrame(s, s', i);
    NoCheck(s, s', i);
    forall k | 0 <= k < |s'.txs| ensures EntryOk(s', k) {
      assert EntryOk(s, k);
    }
  }

  /** Linking or offering `i` puts it in the graph with nothing lost. */
  lemma AddGraph(s: State, s': State, i: TxId, d: Option<TxId>)
    requires GraphOk(s) && Moved(s, s', i)
    requires d.Some? ==> d.value < i && s.sweeps[d.value].None?
    requires s'.graph == Added(s.graph, i, d) && s'.sweeps == s.sweeps && s'.claims == s.claims
    requires s'.prefix == s.prefix
    ensures GraphOk(s')
  {
    forall k | 0 <= k < |s'.txs| ensures EntryOk(s', k) {
      assert EntryOk(s, k);
    }
  }

  lemma BlockKeeps(s: State, i: TxId, d: Option<TxId>)
    requires Inv(s) && CanBlock(s, i, d)
    ensures Inv(BlockStep(s, i, d))
  {
    var s' := BlockStep(s, i, d);
    assert TxOk(s, i);
    TxsFrame(s, s', i);
    NoCheck(s, s', i);
    AddGraph(s, s', i, d);
  }

  lemma LinkKeeps(s: State, j: TxId, d: Option<TxId>)
    requires Inv(s) && CanLink(s, j, d)
    ensures Inv(LinkStep(s, j, d))
  {
    var s' := LinkStep(s, j, d);
    assert TxOk(s, j);
    TxsFrame(s, s', j);
    NoCheck(s, s', j);
    AddGraph(s, s', j, d);
  }

  lemma ErrorKeeps(s: State, i: TxId)
    requires Inv(s) && InPhase(s, i, Executing, Running)
    ensures Inv(ErrorStep(s, i))
  {
    var s' := ErrorStep(s, i);
    assert TxOk(s, i);
    TxsFrame(s, s', i);
    NoCheck(s, s', i);
    forall k | 0 <= k < |s'.txs| ensures EntryOk(s', k) {
      assert EntryOk(s, k);
    }
  }

  /** The examined dependent is offered, handed out, or was not waiting for `d` at all. */
  lemma SweptEntry(s: State, d: TxId, t: TxId)
    requires CanSweep(s, d, t) && Wellformed(SweepStep(s, d, t))
    requires TxOk(s, d) && EntryOk(s, t)
    ensures EntryOk(SweepStep(s, d, t), t)
  {
  }

  lemma SweepEntry(s: State, d: TxId, t: TxId, k: TxId)
    requires CanSweep(s, d, t) && Wellformed(SweepStep(s, d, t)) && k < |s.txs|
    requires TxOk(s, d) && EntryOk(s, k)
    ensures EntryOk(SweepStep(s, d, t), k)
  {
    if k == t {
      SweptEntry(s, d, t);
    } else {
      var s' := SweepStep(s, d, t);
      assert s'.graph.dependents[k] == s.graph.dependents[k];
      assert forall i :: 0 <= i < |s.txs| ==> (Active(s, i) ==> Active(s', i));
    }
  }

  lemma SweepGraph(s: State, d: TxId, t: TxId)
    requires Inv(s) && CanSweep(s, d, t)
    ensures GraphOk(SweepStep(s, d, t))
  {
    var s' := SweepStep(s, d, t);
    assert TxOk(s, d) && Wellformed(s');
    forall k | 0 <= k < |s'.txs| ensures EntryOk(s', k) {
      SweepEntry(s, d, t, k);
    }
  }

  lemma SweepKeeps(s: State, d: TxId, t: TxId)
    requires Inv(s) && CanSweep(s, d, t)
    ensures Inv(SweepStep(s, d, t))
  {
    var s' := SweepStep(s, d, t);
    assert TxOk(s, d);
    TxsFrame(s, s', d);
    NoCheck(s, s', d);
    SweepGraph(s, d, t);
  }

  lemma EndSweepEntry(s: State, d: TxId, expands: bool, k: TxId)
    requires CanEndSweep(s, d) && Wellformed(EndSweepStep(s, d, expands)) && k < |s.txs|
    requires TxOk(s, d) && EntryOk(s, k)
    ensures EntryOk(EndSweepStep(s, d, expands), k)
  {
  }

  lemma EndSweepGraph(s: State, d: TxId, expands: bool)
    requires Inv(s) && CanEndSweep(s, d)
    ensures GraphOk(EndSweepStep(s, d, expands))
  {
    var s' := EndSweepStep(s, d, expands);
    assert TxOk(s, d) && Wellformed(s');
    forall k | 0 <= k < |s'.txs| ensures EntryOk(s', k) {
      EndSweepEntry(s, d, expands, k);
    }
  }

  lemma EndSweepKeeps(s: State, d: TxId, expands: bool)
    requires Inv(s) && CanEndSweep(s, d)
    ensures Inv(EndSweepStep(s, d, expands))
  {
    var s' := EndSweepStep(s, d, expands);
    assert TxOk(s, d);
    TxsFrame(s, s', d);
    NoCheck(s, s', d);
    EndSweepGraph(s, d, expands);
  }

  lemma ReleaseKeeps(s: State, d: TxId)
    requires Inv(s) && CanRelease(s, d)
    ensures Inv(ReleaseStep(s, d))
  {
    var s' := ReleaseStep(s, d);
    assert TxOk(s, d);
    TxsFrame(s, s', d);
    NoCheck(s, s', d);
    forall k | 0 <= k < |s'.txs| ensures EntryOk(s', k) {
      assert EntryOk(s, k);
    }
  }

  // ----- commit -----

  lemma CommitKeeps(s: State)
    requires Inv(s) && CanCommit(s)
    ensures Inv(CommitStep(s))
  {
    var s' := CommitStep(s);
    assert TxOk(s, 0);
    TxsFrame(s, s', 0);
    NoCheck(s, s', 0);
    forall k | 0 <= k < |s'.txs| ensures EntryOk(s', k) {
      assert EntryOk(s, k);
    }
  }

  lemma UnbarKeeps(s: State)
    requires Inv(s) && CanUnbar(s)
    ensures Inv(UnbarStep(s))
  {
    var s' := UnbarStep(s);
    assert TxOk(s, 0);
    TxsFrame(s, s', 0);
    NoCheck(s, s', 0);
    forall k | 0 <= k < |s'.txs| ensures EntryOk(s', k) {
      assert EntryOk(s, k);
    }
  }

  lemma ExecutionKeeps(s: State, step: Step)
    requires Inv(s) && CanExecute(s, step)
    ensures Inv(ApplyExecution(s, step))
  {
    hide Inv, Wellformed;
    match step
    case Fetch => FetchKeeps(s);
    case Claim(i) => ClaimKeeps(s, i);
    case Start(i) => StartKeeps(s, i);
    case Run(i) => RunKeeps(s, i);
    case Finish(i) => FinishKeeps(s, i);
    case Block(i, d) => BlockKeeps(s, i, d);
    case Error(i) => ErrorKeeps(s, i);
    case Sweep(d, t) => SweepKeeps(s, d, t);
    case EndSweep(d, expands) => EndSweepKeeps(s, d, expands);
    case ReleaseDependents(d) => ReleaseKeeps(s, d);
    case Note(i) => NoteKeeps(s, i);
    case LinkAgain(j, d) => LinkKeeps(s, j, d);
    case _ =>
  }

  lemma ValidationKeeps(s: State, step: Step)
    requires Inv(s) && CanValidate(s, step)
    ensures Inv(ApplyValidation(s, step))
  {
    hide Inv, Wellformed;
    match step
    case Stamp(i) => StampKeeps(s, i);
    case Lower(i) => LowerKeeps(s, i);
    case Rewind(i) => RewindKeeps(s, i);
    case Check => CheckKeeps(s);
    case Take(j) => TakeKeeps(s, j);
    case Scan(j) => ScanKeeps(s, j);
    case Accept(j) => AcceptKeeps(s, j);
    case Reject(j) => RejectKeeps(s, j);
    case Finalize => FinalizeKeeps(s);
    case Commit => CommitKeeps(s);
    case Unbar => UnbarKeeps(s);
    case _ =>
  }

  lemma StepKeeps(s: State, step: Step)
    requires Inv(s) && Enabled(s, step)
    ensures Inv(Apply(s, step))
  {
    hide Inv, Wellformed, CanExecute, CanValidate, ApplyExecution, ApplyValidation;
    if OnExecution(step) {
      ExecutionKeeps(s, step);
    } else {
      ValidationKeeps(s, step);
    }
  }
}
