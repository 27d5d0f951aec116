/**
 * What holds of the one system: it never deadlocks before the block is committed or aborted, and what
 * it commits is sequential.
 */
module JointProgress {
  import opened Types
  import opened Block
  import opened Joint
  import opened JointSteps
  import opened Reachability
  import opened SteadyReads
  import PI = ProtocolInvariant
  import SchedulingSteps
  import Progress

  ghost predicate Inv(b: BlockSpec, j: State) {
    && |j.plan.txs| == |b.txs| && Sized(b, j)
    && Reaches(b, j.work) && SI.Inv(j.plan) && Match(j.work, j.plan)
  }

  lemma Begins(b: BlockSpec)
    ensures Inv(b, State(P.Init(b), S.InitState(|b.txs|)))
  {
    Start(b);
    SI.InitOk(|b.txs|);
    hide Reaches, SI.Inv;
  }

  lemma PlanSize(s: S.State, step: S.Step)
    requires S.Enabled(s, step)
    ensures |S.Apply(s, step).txs| == |s.txs|
  {
    hide S.Enabled;
  }

  lemma WorkSize(b: BlockSpec, p: P.State, p': P.State)
    requires P.Wellformed(b, p) && P.Wellformed(b, p')
    ensures |p'.cells| == |p.cells|
  {
  }

  lemma MoveKeeps(b: BlockSpec, j: State, move: Move)
    requires Inv(b, j) && Sized(b, j) && Enabled(b, j, move)
    ensures Inv(b, Apply(b, j, move))
  {
    hide Reaches, SI.Inv, Match, S.Enabled, S.Apply, P.Enabled, P.Apply, P.Wellformed, PlanAlone, WorkAlone, Together;
    match move
    case Plan(step) =>
      PlanMatches(j.work, j.plan, step);
      SchedulingSteps.StepKeeps(j.plan, step);
      PlanSize(j.plan, step);
    case Work(work) =>
      WorkMatches(b, j.work, j.plan, work);
      var p' := Go(b, j.work, work);
      WorkSize(b, j.work, p');
    case Both(step, work) =>
      BothMatch(b, j.work, j.plan, step, work);
      SchedulingSteps.StepKeeps(j.plan, step);
      PlanSize(j.plan, step);
      var p' := Go(b, j.work, work);
      WorkSize(b, j.work, p');
  }

  lemma {:induction false} RunKeeps(b: BlockSpec, trace: seq<State>, k: nat)
    requires IsRun(b, trace) && k < |trace|
    ensures Inv(b, trace[k])
  {
    if k == 0 {
      Begins(b);
    } else {
      RunKeeps(b, trace, k - 1);
      assert IsStep(b, trace[k - 1], trace[k]);
      hide Inv, Sized, Enabled, Apply;
      var move :| Enabled(b, trace[k - 1], move) && trace[k] == Apply(b, trace[k - 1], move);
      MoveKeeps(b, trace[k - 1], move);
    }
  }

  // ----- what is committed is sequential -----

  /**
   * In every state of every run of the whole system, if everything committed is steady, the committed
   * receipts and, between commits, the committed state are those of sequential execution.
   */
  lemma CommitsSequentially(b: BlockSpec, trace: seq<State>, k: nat)
    requires IsRun(b, trace) && k < |trace| && SteadyLedger(trace[k].work)
    ensures
      var ledger := trace[k].work.ledger;
      && |ledger.receipts| == ledger.committed <= |b.txs|
      && (forall i :: 0 <= i < ledger.committed ==> Serializability.Commits(b, i, ledger.receipts[i]))
      && (ledger.applying.None? ==> ledger.overlay == SequentialOverlay(b, ledger.committed))
  {
    RunKeeps(b, trace, k);
    var s := trace[k].work;
    hide IsRun, P.IsRun, SteadyLedger, Serializability.Commits, SequentialOverlay, Match, SI.Inv;
    var run :| |run| > 0 && P.IsRun(b, run) && run[|run| - 1] == s;
    Serializability.SteadyLedgerIsSequential(b, run, |run| - 1);
  }

  // ----- it never gets stuck -----

  /** The move is possible and gets somewhere. */
  ghost predicate Useful(b: BlockSpec, j: State, move: Move)
    requires Sized(b, j)
  {
    && Enabled(b, j, move)
    && match move
       case Work(_) => true
       case Plan(step) => Progress.Advances(j.plan, step)
       case Both(step, _) => Progress.Advances(j.plan, step)
  }

  /** What an execution or a scan has in hand. */
  lemma InHand(b: BlockSpec, p: P.State, i: TxId)
    requires Reaches(b, p) && P.Wellformed(b, p) && i < |b.txs|
    ensures
      match p.cells[i].phase
      case Publishing(_, run, todo) => run.Succeeded? && todo <= run.writes.Keys
      case Trimming(_, run, _) => run.Succeeded?
      case Noting(_, run) => run.Succeeded?
      case Scanning(_, todo, _) => p.cells[i].result.Some? && todo <= p.cells[i].result.value.versions.Keys
      case _ => true
  {
    ReachesInv(b, p);
    assert PI.CellOk(b, p, i);
    hide Reaches, PI.Inv, PI.RunOk, PI.AttemptOk, PI.Retired, PI.LiveEntries;
  }

  /** An execution that has not ended can go on. */
  lemma ExecutionGoesOn(b: BlockSpec, p: P.State, i: TxId) returns (work: P.Step)
    requires Reaches(b, p) && P.Wellformed(b, p) && i < |b.txs| && Running(p.cells[i].phase)
    requires !p.cells[i].phase.Noting? && !p.cells[i].phase.Dropping?
    ensures WorkAlone(p, work) && P.Enabled(b, p, work)
  {
    hide Reaches, P.Enabled, WorkAlone;
    if p.cells[i].phase.Reading? || p.cells[i].phase.Fetching? {
      work := ReadingGoesOn(b, p, i);
    } else {
      InHand(b, p, i);
      work := WritingGoesOn(b, p, i);
    }
  }

  lemma ReadingGoesOn(b: BlockSpec, p: P.State, i: TxId) returns (work: P.Step)
    requires P.Wellformed(b, p) && i < |b.txs| && (p.cells[i].phase.Reading? || p.cells[i].phase.Fetching?)
    ensures WorkAlone(p, work) && P.Enabled(b, p, work)
  {
    hide Next, P.Doomed, View, P.LastWrites;
    match p.cells[i].phase
    case Reading(_) =>
      var a := P.Wanted(b, p, i);
      if a.Read? {
        var writer := P.Latest(p.mem, a.probe.location, i);
        var l := a.probe.location;
        work := P.Lookup(i, if writer.Some? then p.mem[writer.value][l].value else b.base(l));
      } else {
        work := P.Complete(i);
      }
    case Fetching(_, q) => work := P.Fetch(i, View(b, p.ledger.overlay, q.location));
  }

  lemma WritingGoesOn(b: BlockSpec, p: P.State, i: TxId) returns (work: P.Step)
    requires P.Wellformed(b, p) && i < |b.txs|
    requires
      match p.cells[i].phase
      case Publishing(_, run, todo) => run.Succeeded? && todo <= run.writes.Keys
      case Trimming(_, run, _) => run.Succeeded?
      case Failing(_, _, _) => true
      case _ => false
    ensures WorkAlone(p, work) && P.Enabled(b, p, work)
  {
    hide P.LastWrites;
    match p.cells[i].phase
    case Publishing(_, _, todo) =>
      if l :| l in todo {
        work := P.Publish(i, l);
      } else {
        work := P.EndPublish(i);
      }
    case Trimming(_, _, todo) =>
      if l :| l in todo {
        work := P.Trim(i, l);
      } else {
        work := P.Record(i);
      }
    case Failing(_, _, todo) =>
      if l :| l in todo {
        work := P.MarkFailed(i, l);
      } else {
        work := P.Discard(i);
      }
  }

  lemma TxMatches(b: BlockSpec, j: State, i: TxId)
    requires Inv(b, j) && i < |b.txs|
    ensures Sized(b, j) && Reaches(b, j.work) && P.Wellformed(b, j.work) && S.Wellformed(j.plan)
    ensures |j.plan.txs| == |b.txs| == |j.work.cells| && |j.plan.sweeps| == |b.txs|
    ensures SameTx(j.work, i, j.work.cells[i], j.plan.txs[i]) && SI.TxOk(j.plan, i)
    ensures SameStamps(j.work, j.plan)
  {
    hide Reaches;
  }

  /** An execution goes on, or its lock holder turns to the graph. */
  lemma RunnerAdvances(b: BlockSpec, j: State, i: TxId) returns (move: Move)
    requires Inv(b, j) && i < |b.txs| && j.plan.txs[i].phase.Running?
    requires forall d :: 0 <= d < |j.plan.sweeps| ==> j.plan.sweeps[d].None?
    ensures Sized(b, j) && Useful(b, j, move)
  {
    TxMatches(b, j, i);
    hide Inv, Reaches, P.Wellformed, P.Enabled, WorkAlone;
    var phase := j.work.cells[i].phase;
    if phase.Noting? || phase.Dropping? {
      InHand(b, j.work, i);
      move := Plan(
        if EndedWell(phase) then S.Finish(i) else if EndedBlocked(phase) then S.Block(i, None) else S.Error(i));
    } else {
      var work := ExecutionGoesOn(b, j.work, i);
      move := Work(work);
    }
  }

  /** A scan goes on, or ends. */
  lemma ScanGoesOn(b: BlockSpec, j: State, i: TxId) returns (move: Move)
    requires Inv(b, j) && i < |b.txs| && j.plan.txs[i].phase.Scanning?
    requires i < |j.work.cells| && j.work.cells[i].phase.Scanning?
    ensures Sized(b, j) && Useful(b, j, move)
  {
    hide Inv, Reaches, P.Wellformed, P.Current, P.LastWrites;
    TxMatches(b, j, i);
    InHand(b, j.work, i);
    var phase := j.work.cells[i].phase;
    if l :| l in phase.todo {
      move := Work(P.Check(i, l));
    } else if phase.conflict {
      move := Work(P.EndScan(i));
    } else {
      move := Both(S.Accept(i), P.EndScan(i));
    }
  }

  lemma MarkGoesOn(b: BlockSpec, j: State, i: TxId) returns (move: Move)
    requires Inv(b, j) && i < |b.txs| && j.plan.txs[i].phase.Scanning?
    requires i < |j.work.cells| && j.work.cells[i].phase.Marking?
    ensures Sized(b, j) && Useful(b, j, move)
  {
    hide Inv, Reaches, P.Wellformed, P.Current, P.LastWrites;
    TxMatches(b, j, i);
    var phase := j.work.cells[i].phase;
    if l :| l in phase.todo {
      move := Work(P.Mark(i, l));
    } else {
      move := Both(S.Reject(i), P.Invalidate(i));
    }
  }

  lemma TaskGoesOn(b: BlockSpec, j: State, i: TxId) returns (move: Move)
    requires Inv(b, j) && i < |b.txs| && j.plan.txs[i].phase.Pending?
    ensures Sized(b, j) && Useful(b, j, move)
  {
    hide Inv, Reaches, P.Wellformed;
    TxMatches(b, j, i);
    var c := j.work.cells[i];
    if c.status == Executing {
      move := Both(S.Run(i), P.BeginExecution(TaskFor(c, i)));
    } else {
      move := Both(S.Scan(i), P.BeginValidation(TaskFor(c, i)));
    }
  }

  lemma NoteGoesOn(b: BlockSpec, j: State, i: TxId) returns (move: Move)
    requires Inv(b, j) && i < |b.txs| && j.plan.txs[i].phase.Noting?
    ensures Sized(b, j) && Useful(b, j, move)
  {
    hide Inv, Reaches, P.Wellformed, P.WritesNew;
    TxMatches(b, j, i);
    InHand(b, j.work, i);
    if j.work.cells[i].phase.Dropping? {
      move := Both(S.Note(i), P.Drop(i));
    } else {
      move := Both(S.Note(i), P.Conclude(i, j.plan.txs[i].phase.ending.HandOff?));
    }
  }

  lemma RewindGoesOn(b: BlockSpec, j: State, i: TxId) returns (move: Move)
    requires Inv(b, j) && i < |b.txs|
    requires
      var phase := j.plan.txs[i].phase;
      phase.Stamping? || phase.Lowering? || phase.Rewinding? || phase.Linking?
    requires forall d :: 0 <= d < |j.plan.sweeps| ==> j.plan.sweeps[d].None?
    ensures Sized(b, j) && Useful(b, j, move)
  {
    hide Inv, Reaches, P.Wellformed;
    TxMatches(b, j, i);
    match j.plan.txs[i].phase
    case Stamping(_, _) => move := Both(S.Stamp(i), P.Stamp(i));
    case Lowering(_, _, _) => move := Both(S.Lower(i), P.Lower(i));
    case Rewinding(_, _) => move := Plan(S.Rewind(i));
    case Linking => move := Plan(S.LinkAgain(i, None));
  }

  /** What a locked transaction looks like. */
  lemma LockedForms(b: BlockSpec, j: State, i: TxId)
    requires Inv(b, j) && i < |b.txs| && !j.plan.txs[i].phase.Free?
    requires i < |j.plan.sweeps| && j.plan.sweeps[i].None?
    ensures !j.plan.txs[i].phase.Sweeping? && i < |j.work.cells|
    ensures j.plan.txs[i].phase.Scanning? ==> j.work.cells[i].phase.Scanning? || j.work.cells[i].phase.Marking?
  {
    hide Inv, Reaches, P.Wellformed, S.Wellformed;
    TxMatches(b, j, i);
  }

  /** Whoever holds a transaction's lock, or a task for it, can go on once no reverse edges are locked. */
  lemma HolderAdvances(b: BlockSpec, j: State, i: TxId) returns (move: Move)
    requires Inv(b, j) && i < |b.txs| && i < |j.plan.sweeps| && !j.plan.txs[i].phase.Free?
    requires forall d :: 0 <= d < |j.plan.sweeps| ==> j.plan.sweeps[d].None?
    ensures Sized(b, j) && Useful(b, j, move)
  {
    hide *;
    Sizes(b, j);
    LockedForms(b, j, i);
    var phase := j.plan.txs[i].phase;
    if phase.Pending? {
      move := TaskGoesOn(b, j, i);
    } else if phase.Running? {
      move := RunnerAdvances(b, j, i);
    } else if phase.Noting? {
      move := NoteGoesOn(b, j, i);
    } else if phase.Scanning? && j.work.cells[i].phase.Scanning? {
      move := ScanGoesOn(b, j, i);
    } else if phase.Scanning? {
      move := MarkGoesOn(b, j, i);
    } else {
      move := RewindGoesOn(b, j, i);
    }
  }

  /** Whoever holds a lock on reverse edges can go on. */
  lemma SweeperAdvances(b: BlockSpec, j: State, d: TxId) returns (move: Move)
    requires Inv(b, j) && d < |b.txs| && d < |j.plan.sweeps| && j.plan.sweeps[d].Some?
    ensures Sized(b, j) && Useful(b, j, move)
  {
    TxMatches(b, j, d);
    hide Inv, Reaches, P.Wellformed;
    if t :| t in j.plan.sweeps[d].value {
      move := Plan(S.Sweep(d, t));
    } else {
      assert j.plan.sweeps[d].value == {};
      move := Plan(S.EndSweep(d, Expands(j.work.cells[d])));
    }
  }

  /** Every lock is free. */
  ghost predicate Unlocked(s: S.State) {
    |s.sweeps| == |s.txs| && forall d :: 0 <= d < |s.txs| ==> s.sweeps[d].None? && s.txs[d].phase.Free?
  }

  lemma StartGoesOn(b: BlockSpec, j: State, i: TxId) returns (move: Move)
    requires Inv(b, j) && Unlocked(j.plan) && i < |b.txs| && i in j.plan.claims.handed
    ensures Sized(b, j) && Useful(b, j, move)
  {
    hide Inv, Reaches, P.Wellformed;
    TxMatches(b, j, i);
    if j.plan.txs[i].status in {Initial, Conflict} {
      move := Both(S.Start(i), P.ClaimExecution(i));
    } else {
      move := Plan(S.Start(i));
    }
  }

  lemma TakeGoesOn(b: BlockSpec, j: State, i: TxId) returns (move: Move)
    requires Inv(b, j) && Unlocked(j.plan) && i < |b.txs| && i in j.plan.claims.checking
    ensures Sized(b, j) && Useful(b, j, move)
  {
    hide Inv, Reaches, P.Wellformed;
    TxMatches(b, j, i);
    if j.plan.txs[i].status in {Executed, Unconfirmed} {
      move := Both(S.Take(i), P.ClaimValidation(i));
    } else {
      move := Plan(S.Take(i));
    }
  }

  lemma GraphGoesOn(b: BlockSpec, j: State, step: S.Step)
    requires Inv(b, j) && Unlocked(j.plan)
    requires
      || (step.Claim? && step.txid in j.plan.claims.fetched)
      || (step.ReleaseDependents? && step.txid in j.plan.claims.releasing)
    requires step.txid < |b.txs|
    ensures Sized(b, j) && Useful(b, j, Plan(step))
  {
    hide Inv, Reaches, P.Wellformed;
    TxMatches(b, j, step.txid);
  }

  lemma ClaimsAreBounded(b: BlockSpec, j: State)
    requires Inv(b, j)
    ensures forall i <- j.plan.claims.fetched :: i < |b.txs|
    ensures forall i <- j.plan.claims.handed :: i < |b.txs|
    ensures forall i <- j.plan.claims.releasing :: i < |b.txs|
    ensures forall i <- j.plan.claims.checking :: i < |b.txs|
  {
    hide Reaches, Match;
  }

  /** Whoever carries a claim can go on once every lock is free. */
  lemma ClaimAdvances(b: BlockSpec, j: State) returns (move: Move)
    requires Inv(b, j) && Unlocked(j.plan)
    requires j.plan.claims != S.Claims(multiset{}, multiset{}, multiset{}, multiset{})
    ensures Sized(b, j) && Useful(b, j, move)
  {
    hide *;
    ClaimsAreBounded(b, j);
    var claims := j.plan.claims;
    if i :| i in claims.fetched {
      move := Plan(S.Claim(i));
      GraphGoesOn(b, j, S.Claim(i));
    } else if i :| i in claims.handed {
      move := StartGoesOn(b, j, i);
    } else if i :| i in claims.releasing {
      move := Plan(S.ReleaseDependents(i));
      GraphGoesOn(b, j, S.ReleaseDependents(i));
    } else {
      var i :| i in claims.checking;
      move := TakeGoesOn(b, j, i);
    }
  }

  // ----- the loops -----

  /** The commit loop goes on with a transaction that is final. */
  lemma CommitGoesOn(b: BlockSpec, j: State) returns (move: Move)
    requires Inv(b, j) && Unlocked(j.plan) && j.work.abort.None?
    requires j.plan.prefix.committed < j.plan.prefix.finality && !j.plan.prefix.releasePending
    ensures Sized(b, j) && Useful(b, j, move)
  {
    hide Inv, Reaches, AllWrites;
    LedgerInHand(b, j);
    var ledger := j.work.ledger;
    if ledger.applying.None? {
      move := Work(P.TakeResult(false));
    } else if l :| l in ledger.applying.value {
      move := Work(P.ApplyWrite(l));
    } else {
      assert ledger.applying.value == map[];
      move := Both(S.Commit, P.PublishCommit);
    }
  }

  lemma LedgerInHand(b: BlockSpec, j: State)
    requires Inv(b, j) && j.work.abort.None? && j.plan.prefix.committed < j.plan.prefix.finality
    ensures Sized(b, j) && S.Wellformed(j.plan) && P.Wellformed(b, j.work) && SameStamps(j.work, j.plan)
    ensures
      var p := j.work;
      && !p.ledger.stopped && p.ledger.committed < p.finality <= |p.cells|
      && p.cells[p.ledger.committed].result.Some? && p.cells[p.ledger.committed].result.value.execution.Succeeded?
  {
    ReachesInv(b, j.work);
    assert PI.FinalOk(b, j.work, j.work.ledger.committed);
    hide Reaches, PI.CellOk, PI.ReadsOk, PI.ScanOk, PI.CommitOk;
  }

  /** With no lock held and no claim out, a loop or a cursor can go on. */
  lemma LoopAdvances(b: BlockSpec, j: State) returns (move: Move)
    requires Inv(b, j) && Unlocked(j.plan) && j.work.abort.None? && j.work.ledger.committed < |b.txs|
    requires j.plan.claims == S.Claims(multiset{}, multiset{}, multiset{}, multiset{})
    ensures Sized(b, j) && Useful(b, j, move)
  {
    hide *;
    Shared(b, j);
    var s := j.plan;
    if s.prefix.releasePending {
      move := Plan(S.Unbar);
      CursorGoesOn(b, j, S.Unbar);
    } else if s.prefix.committed < s.prefix.finality {
      move := CommitGoesOn(b, j);
    } else if s.graph.index < |s.txs| {
      move := Plan(S.Fetch);
      CursorGoesOn(b, j, S.Fetch);
    } else if s.stamps.cursor < S.FirstUnexecuted(s.txs) {
      move := Plan(S.Check);
      CursorGoesOn(b, j, S.Check);
    } else {
      move := Both(S.Finalize, P.Finalize);
      FinalityGoesOn(b, j);
    }
  }

  lemma Shared(b: BlockSpec, j: State)
    requires Inv(b, j)
    ensures |j.plan.txs| == |b.txs| && j.plan.prefix.committed == j.work.ledger.committed
    ensures j.plan.prefix.committed <= j.plan.prefix.finality <= |b.txs|
  {
    hide Reaches;
  }

  lemma CursorGoesOn(b: BlockSpec, j: State, step: S.Step)
    requires Inv(b, j) && Unlocked(j.plan)
    requires
      || (step.Unbar? && j.plan.prefix.releasePending)
      || (step.Fetch? && j.plan.graph.index < |j.plan.txs|)
      || (step.Check? && j.plan.graph.index >= |j.plan.txs| && j.plan.stamps.cursor < S.FirstUnexecuted(j.plan.txs))
    ensures Sized(b, j) && Useful(b, j, Plan(step))
  {
    hide Reaches, Match, P.Wellformed;
  }

  lemma FinalityGoesOn(b: BlockSpec, j: State)
    requires Inv(b, j) && Unlocked(j.plan) && j.work.ledger.committed < |b.txs|
    requires j.plan.claims == S.Claims(multiset{}, multiset{}, multiset{}, multiset{})
    requires !j.plan.prefix.releasePending && j.plan.prefix.committed >= j.plan.prefix.finality
    requires j.plan.graph.index >= |j.plan.txs| && j.plan.stamps.cursor >= S.FirstUnexecuted(j.plan.txs)
    ensures Sized(b, j) && Useful(b, j, Both(S.Finalize, P.Finalize))
  {
    hide Reaches, P.Wellformed;
    Shared(b, j);
    var s := j.plan;
    assert S.Wellformed(s);
    Progress.StillIsCandidate(s);
    assert SameTx(j.work, s.prefix.finality, j.work.cells[s.prefix.finality], s.txs[s.prefix.finality]);
    hide SI.Inv, Match;
  }

  lemma Sizes(b: BlockSpec, j: State)
    requires Inv(b, j)
    ensures Sized(b, j) && |j.plan.txs| == |b.txs| == |j.plan.sweeps|
  {
    hide Reaches, Match;
  }

  /**
   * In every state of every run of the whole system that is neither aborted nor has committed the block,
   * some move is possible that is no idle spin and waits for no lock. Whatever an execution reads and
   * however it ends, the system goes on.
   */
  lemma NoDeadlock(b: BlockSpec, trace: seq<State>, k: nat)
    requires IsRun(b, trace) && k < |trace|
    requires trace[k].work.abort.None? && trace[k].work.ledger.committed < |b.txs|
    ensures Sized(b, trace[k]) && exists move :: Useful(b, trace[k], move)
  {
    hide *;
    var j := trace[k];
    RunKeeps(b, trace, k);
    Sizes(b, j);
    var move;
    if d :| 0 <= d < |j.plan.sweeps| && j.plan.sweeps[d].Some? {
      move := SweeperAdvances(b, j, d);
    } else if i :| 0 <= i < |j.plan.txs| && !j.plan.txs[i].phase.Free? {
      move := HolderAdvances(b, j, i);
    } else {
      AllUnlocked(j.plan);
      if j.plan.claims != S.Claims(multiset{}, multiset{}, multiset{}, multiset{}) {
        move := ClaimAdvances(b, j);
      } else {
        move := LoopAdvances(b, j);
      }
    }
    assert Useful(b, j, move);
  }

  lemma AllUnlocked(s: S.State)
    requires |s.sweeps| == |s.txs| && forall d :: 0 <= d < |s.sweeps| ==> s.sweeps[d].None?
    requires forall i :: 0 <= i < |s.txs| ==> s.txs[i].phase.Free?
    ensures Unlocked(s)
  {
  }
}
