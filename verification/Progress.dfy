/**
 * Over every run of the scheduler: no retry is lost, no validation is lost, and an unfinished block
 * always has a step that can be taken.
 */
module Progress {
  import opened Types
  import opened DependencyGraph
  import opened Scheduling
  import opened SchedulingInvariant
  import opened SchedulingSteps

  lemma TraceStep(n: nat, trace: seq<State>, k: nat) returns (step: Step)
    requires IsRun(n, trace) && k + 1 < |trace|
    ensures Enabled(trace[k], step) && trace[k + 1] == Apply(trace[k], step)
    ensures |trace[k + 1].txs| == |trace[k].txs|
  {
    hide Enabled, Apply;
    assert IsStep(trace[k], trace[k + 1]);
    step :| Enabled(trace[k], step) && trace[k + 1] == Apply(trace[k], step);
  }

  lemma {:induction false} Reachable(n: nat, trace: seq<State>, k: nat)
    requires IsRun(n, trace) && k < |trace|
    ensures Inv(trace[k]) && |trace[k].txs| == n
  {
    if k == 0 {
      InitOk(n);
    } else {
      Reachable(n, trace, k - 1);
      hide *;
      var step := TraceStep(n, trace, k - 1);
      StepKeeps(trace[k - 1], step);
    }
  }

  /** A rejected transaction whose lock holder has yet to put it back into the graph. */
  predicate Relinking(phase: Phase) {
    match phase
    case Linking => true
    case Stamping(_, next) => next.Relink?
    case Lowering(_, next, _) => next.Relink?
    case Rewinding(_, next) => next.Relink?
    case _ => false
  }

  /** Something will bring the execution cursor, or a worker, to the onboard transaction `i`. */
  predicate Awaited(s: State, i: TxId)
    requires Wellformed(s) && i < |s.txs|
  {
    match s.graph.dependents[i].blocker
    case None => s.graph.index <= i || i in s.claims.fetched
    case Some(d) => if d == i then Barred(s.prefix, i) else EdgeOk(s, i, d)
  }

  /**
   * A transaction that has to run again is in a worker's hands, or its lock holder is about to put it
   * back into the graph, or it sits there; and then it is still ahead of the execution cursor or just
   * taken from it, or waits for its own commit boundary, or waits for an earlier transaction that
   * has a reverse edge to it and is either being swept with that edge still to come, or itself in
   * the graph, in a worker's hands, releasing or executing.
   */
  lemma NoLostRetry(n: nat, trace: seq<State>, k: nat, i: TxId)
    requires IsRun(n, trace) && k < |trace| && i < |trace[k].txs|
    requires trace[k].txs[i].status.Initial? || trace[k].txs[i].status.Conflict?
    ensures Wellformed(trace[k])
    ensures
      || i in trace[k].claims.handed
      || Relinking(trace[k].txs[i].phase)
      || (trace[k].graph.dependents[i].onboard && Awaited(trace[k], i))
  {
    Reachable(n, trace, k);
    assert TxOk(trace[k], i) && EntryOk(trace[k], i);
  }

  /** A rewind of the validation cursor to `j` or before it is under way. */
  predicate RewindDue(phase: Phase, j: TxId) {
    (phase.Stamping? || phase.Lowering? || phase.Rewinding?) && phase.target <= j
  }

  /**
   * An executed transaction that nobody is validating, and a validated one whose validation is older
   * than a rewind of it or of something before it, locked or not, will be reached by the validation
   * cursor again.
   */
  lemma NoLostValidation(n: nat, trace: seq<State>, k: nat, j: TxId)
    requires IsRun(n, trace) && k < |trace| && Wellformed(trace[k]) && j < |trace[k].txs|
    requires
      || trace[k].txs[j].status.Executed?
      || (trace[k].txs[j].status.Unconfirmed? && Stale(trace[k].stamps.lower, j, trace[k].stamps.confirmed[j]))
    ensures
      || trace[k].stamps.cursor <= j || j in trace[k].claims.checking
      || exists i :: 0 <= i < |trace[k].txs| && RewindDue(trace[k].txs[i].phase, j)
  {
    Reachable(n, trace, k);
    var s := trace[k];
    assert CheckOk(s, j) && TxOk(s, j);
    assert RewindDue(s.txs[j].phase, j) || s.txs[j].phase.Free?;
    assert forall i :: 0 <= i < |s.txs| && RewindsTo(s.txs[i].phase, j) ==> RewindDue(s.txs[i].phase, j);
  }

  /** A sweep that ends leaves nobody waiting for its transaction, and no reverse edge to examine again. */
  lemma SweepReleasesEverybody(n: nat, trace: seq<State>, k: nat, d: TxId, expands: bool)
    requires IsRun(n, trace) && k + 1 < |trace| && Takes(trace[k], EndSweep(d, expands), trace[k + 1])
    ensures
      var s' := trace[k + 1];
      && Wellformed(s') && d < |s'.txs| && s'.graph.affects[d] == {}
      && forall i :: d < i < |s'.txs| ==> s'.graph.dependents[i].blocker != Some(d)
  {
    Reachable(n, trace, k);
    Reachable(n, trace, k + 1);
    hide *;
    EndSweepLeaves(trace[k], d, expands, trace[k + 1]);
  }

  lemma EndSweepLeaves(s: State, d: TxId, expands: bool, s': State)
    requires Inv(s) && Inv(s') && Takes(s, EndSweep(d, expands), s')
    ensures Wellformed(s') && d < |s'.txs| && s'.graph.affects[d] == {}
    ensures forall i :: d < i < |s'.txs| ==> s'.graph.dependents[i].blocker != Some(d)
  {
    hide TxsOk, ChecksOk, PrefixOk, RetryOk, ReadyOk, Active;
    forall i | d < i < |s.txs| ensures s.graph.dependents[i].blocker != Some(d) {
      assert EntryOk(s, i);
    }
  }

  // ----- barriers -----

  ghost predicate Takes(s: State, step: Step, s': State) {
    Enabled(s, step) && s' == Apply(s, step)
  }

  /** From `s` to `s'` the transaction `t` is added to the graph again, with a blocker of its own or none. */
  ghost predicate AddsAgain(s: State, s': State, t: TxId) {
    exists d: Option<TxId> :: Takes(s, Block(t, d), s') || Takes(s, LinkAgain(t, d), s')
  }

  /** `t` waits for its own commit boundary, which is still to be published. */
  predicate Fenced(s: State, t: TxId) {
    && t < |s.txs| && t < |s.graph.dependents| && Barred(s.prefix, t)
    && s.graph.dependents[t] == Dependent(true, Some(t))
  }

  /** Nobody is handed `t` by this step. */
  predicate NotHandedOut(s: State, s': State, t: TxId) {
    s'.claims.handed[t] <= s.claims.handed[t]
  }

  lemma SweepKeepsFence(s: State, d: TxId, u: TxId, t: TxId)
    requires CanSweep(s, d, u) && Fenced(s, t)
    ensures Fenced(SweepStep(s, d, u), t) && NotHandedOut(s, SweepStep(s, d, u), t)
  {
  }

  lemma ErrorKeepsFence(s: State, i: TxId, t: TxId)
    requires InPhase(s, i, Executing, Running) && Fenced(s, t)
    ensures Fenced(ErrorStep(s, i), t) && NotHandedOut(s, ErrorStep(s, i), t)
  {
  }

  lemma AddKeepsFence(s: State, i: TxId, d: Option<TxId>, t: TxId)
    requires Wellformed(s) && Fenced(s, t) && i != t
    ensures CanBlock(s, i, d) ==> Fenced(BlockStep(s, i, d), t) && NotHandedOut(s, BlockStep(s, i, d), t)
    ensures CanLink(s, i, d) ==> Fenced(LinkStep(s, i, d), t) && NotHandedOut(s, LinkStep(s, i, d), t)
  {
  }

  lemma ClaimKeepsFence(s: State, i: TxId, t: TxId)
    requires CanClaim(s, i) && Fenced(s, t)
    ensures Fenced(ClaimStep(s, i), t) && NotHandedOut(s, ClaimStep(s, i), t)
  {
  }

  lemma StartKeepsFence(s: State, i: TxId, t: TxId)
    requires CanStart(s, i) && Fenced(s, t)
    ensures Fenced(StartStep(s, i), t) && NotHandedOut(s, StartStep(s, i), t)
  {
  }

  lemma OtherKeepsFence(s: State, step: Step, t: TxId)
    requires Wellformed(s) && CanExecute(s, step) && Fenced(s, t)
    requires !step.Sweep? && !step.Error? && !step.Block? && !step.LinkAgain?
    requires !step.Claim? && !step.Start?
    ensures Fenced(ApplyExecution(s, step), t) && NotHandedOut(s, ApplyExecution(s, step), t)
  {
    hide BeginRewind, Handing;
  }

  lemma ExecutionKeepsFence(s: State, step: Step, t: TxId)
    requires Wellformed(s) && CanExecute(s, step) && Fenced(s, t)
    requires !(step.Block? && step.txid == t) && !(step.LinkAgain? && step.txid == t)
    ensures Fenced(ApplyExecution(s, step), t) && NotHandedOut(s, ApplyExecution(s, step), t)
  {
    hide Wellformed, Fenced, NotHandedOut, ErrorStep, SweepStep, BlockStep, LinkStep, ClaimStep,
      StartStep;
    match step
    case Sweep(d, u) => SweepKeepsFence(s, d, u, t);
    case Error(i) => ErrorKeepsFence(s, i, t);
    case Block(i, d) => AddKeepsFence(s, i, d, t);
    case LinkAgain(i, d) => AddKeepsFence(s, i, d, t);
    case Claim(i) => ClaimKeepsFence(s, i, t);
    case Start(i) => StartKeepsFence(s, i, t);
    case _ => OtherKeepsFence(s, step, t);
  }

  lemma ValidationKeepsFence(s: State, step: Step, t: TxId)
    requires Wellformed(s) && CanValidate(s, step) && Fenced(s, t)
    ensures
      var s' := ApplyValidation(s, step);
      NotHandedOut(s, s', t) && (Fenced(s', t) || !Barred(s'.prefix, t))
  {
  }

  lemma StepKeepsFence(s: State, step: Step, t: TxId)
    requires Enabled(s, step) && !AddsAgain(s, Apply(s, step), t) && Fenced(s, t)
    ensures
      var s' := Apply(s, step);
      NotHandedOut(s, s', t) && (Fenced(s', t) || !Barred(s'.prefix, t))
  {
    if OnExecution(step) {
      assert step.Block? || step.LinkAgain? ==> Takes(s, step, Apply(s, step));
      hide Fenced, NotHandedOut;
      ExecutionKeepsFence(s, step, t);
    } else {
      ValidationKeepsFence(s, step, t);
    }
  }

  /** Once a commit boundary has been published it stays so. */
  lemma StepKeepsUnbarred(s: State, step: Step, t: TxId)
    requires Enabled(s, step) && !Barred(s.prefix, t)
    ensures !Barred(Apply(s, step).prefix, t)
  {
  }

  lemma {:induction false} FenceStands(n: nat, trace: seq<State>, p: nat, q: nat, t: TxId)
    requires IsRun(n, trace) && p <= q < |trace| && Fenced(trace[p], t) && Barred(trace[q].prefix, t)
    requires forall k :: p <= k < q ==> !AddsAgain(trace[k], trace[k + 1], t)
    ensures Fenced(trace[q], t) && NotHandedOut(trace[p], trace[q], t)
    decreases q
  {
    hide Enabled, Apply, AddsAgain, Barred;
    if p < q {
      var step := TraceStep(n, trace, q - 1);
      if !Barred(trace[q - 1].prefix, t) {
        StepKeepsUnbarred(trace[q - 1], step, t);
      }
      FenceStands(n, trace, p, q - 1, t);
      StepKeepsFence(trace[q - 1], step, t);
    }
  }

  /**
   * A transaction that failed, without having read an estimate, ahead of the commit head: until its
   * own commit boundary is published it cannot be claimed and no worker is handed it, unless it is
   * added to the graph again.
   */
  lemma FailedWaitsForItsCommit(n: nat, trace: seq<State>, p: nat, q: nat, t: TxId)
    requires IsRun(n, trace) && p < q < |trace|
    requires Takes(trace[p], Error(t), trace[p + 1]) && trace[p].prefix.committed < t
    requires forall k :: p < k < q ==> !AddsAgain(trace[k], trace[k + 1], t)
    requires Barred(trace[q].prefix, t)
    ensures t < |trace[q].graph.dependents| && !Claimable(trace[q].graph, t)
    ensures NotHandedOut(trace[p], trace[q], t)
  {
    hide *;
    ErrorFences(trace[p], trace[p + 1], t);
    FenceStands(n, trace, p + 1, q, t);
    FencedIsNotClaimable(trace[q], t);
    NotHandedSince(trace[p], trace[p + 1], trace[q], t);
  }

  lemma NotHandedSince(s: State, s': State, s'': State, t: TxId)
    requires NotHandedOut(s, s', t) && NotHandedOut(s', s'', t)
    ensures NotHandedOut(s, s'', t)
  {
  }

  lemma FencedIsNotClaimable(s: State, t: TxId)
    requires Fenced(s, t)
    ensures t < |s.graph.dependents| && !Claimable(s.graph, t)
  {
  }

  lemma ErrorFences(s: State, s': State, t: TxId)
    requires Takes(s, Error(t), s') && s.prefix.committed < t
    ensures Fenced(s', t) && NotHandedOut(s, s', t)
  {
  }

  // ----- deadlock freedom -----

  /** Nobody is inside a lock or between two accesses, and the commit loop has caught up. */
  predicate Still(s: State) {
    && Wellformed(s)
    && (forall i :: 0 <= i < |s.txs| ==> s.txs[i].phase.Free? && s.sweeps[i].None?)
    && s.claims.fetched == multiset{} && s.claims.handed == multiset{}
    && s.claims.releasing == multiset{} && s.claims.checking == multiset{}
    && s.prefix.committed == s.prefix.finality && !s.prefix.releasePending
  }

  /** Neither cursor has anything left to hand out. */
  predicate Exhausted(s: State) {
    s.graph.index >= |s.txs| && s.stamps.cursor >= FirstUnexecuted(s.txs)
  }

  /** What the finality loop asks of the next transaction, the validation cursor included. */
  predicate Candidate(s: State) {
    CanFinalize(s) && s.stamps.cursor > s.prefix.finality
  }

  /** The chain of blockers of anything in the graph leads down to something still claimable. */
  lemma {:induction false} NothingWaits(s: State, i: TxId)
    requires Inv(s) && Still(s) && Exhausted(s)
    requires i < |s.txs| && i <= s.prefix.finality
    ensures !s.graph.dependents[i].onboard
  {
    assert EntryOk(s, i);
    var dep := s.graph.dependents[i];
    if dep.onboard && dep.blocker.Some? && dep.blocker.value < i {
      NothingWaits(s, dep.blocker.value);
    }
  }

  lemma FinalPrefixRan(s: State, f: TxId)
    requires TxsOk(s) && f < |s.txs| && f == s.prefix.finality
    requires s.txs[f].executed
    ensures FirstUnexecuted(s.txs) > f
  {
    forall i | 0 <= i < f ensures s.txs[i].executed {
      assert TxOk(s, i);
    }
  }

  /** With both cursors exhausted and nothing in flight, the next transaction can become final. */
  lemma StillIsCandidate(s: State)
    requires Inv(s) && Still(s) && Exhausted(s) && s.prefix.finality < |s.txs|
    ensures Candidate(s)
  {
    var f := s.prefix.finality;
    assert TxOk(s, f) && EntryOk(s, f) && CheckOk(s, f) && StampOk(s, f);
    NothingWaits(s, f);
    FinalPrefixRan(s, f);
    assert !Covered(s, f);
    assert s.stamps.lower[f] <= s.stamps.confirmed[f];
    assert s.prefix.lowerTs <= s.stamps.confirmed[f];
  }

  /**
   * The step is enabled and gets somewhere: it is not a cursor running past the end of the block,
   * and the end of an attempt does not have to wait for somebody else's lock, whatever its outcome.
   */
  predicate Advances(s: State, step: Step) {
    && Enabled(s, step)
    && (step.Fetch? ==> s.graph.index < |s.txs|)
    && (step.Check? ==> s.stamps.cursor < s.graph.index)
    && (step.Finalize? ==> s.stamps.cursor > s.prefix.finality)
    && (step.Finish? || step.Block? || step.Error? || step.LinkAgain? ==>
          forall d :: 0 <= d < |s.txs| ==> s.sweeps[d].None?)
  }

  /** Whoever holds a lock on reverse edges can go on. */
  lemma SweeperAdvances(s: State, d: TxId)
    requires Inv(s) && d < |s.txs| && s.sweeps[d].Some?
    ensures exists step :: Advances(s, step)
  {
    if t :| t in s.sweeps[d].value {
      assert Advances(s, Sweep(d, t));
    } else {
      assert s.sweeps[d].value == {};
      assert Advances(s, EndSweep(d, false));
    }
  }

  /** Whoever holds a transaction's lock, or a task for it, can go on once no reverse edges are locked. */
  lemma HolderAdvances(s: State, i: TxId)
    requires Inv(s) && i < |s.txs| && !s.txs[i].phase.Free?
    requires forall d :: 0 <= d < |s.txs| ==> s.sweeps[d].None?
    ensures exists step :: Advances(s, step)
  {
    assert TxOk(s, i);
    var step :=
      match s.txs[i].phase
      case Pending => if s.txs[i].status.Executing? then Run(i) else Scan(i)
      case Running => Error(i)
      case Noting(_) => Note(i)
      case Stamping(_, _) => Stamp(i)
      case Lowering(_, _, _) => Lower(i)
      case Rewinding(_, _) => Rewind(i)
      case Scanning(_) => Accept(i)
      case Linking => LinkAgain(i, None)
      case _ => Fetch;
    assert Advances(s, step);
  }

  /** Whoever carries a claim can go on once every lock is free. */
  lemma ClaimAdvances(s: State)
    requires Inv(s)
    requires forall d :: 0 <= d < |s.txs| ==> s.sweeps[d].None? && s.txs[d].phase.Free?
    requires
      || s.claims.fetched != multiset{} || s.claims.handed != multiset{}
      || s.claims.releasing != multiset{} || s.claims.checking != multiset{}
    ensures exists step :: Advances(s, step)
  {
    if i :| i in s.claims.fetched {
      assert Advances(s, Claim(i));
    } else if i :| i in s.claims.handed {
      assert Advances(s, Start(i));
    } else if i :| i in s.claims.releasing {
      assert Advances(s, ReleaseDependents(i));
    } else {
      var j :| j in s.claims.checking;
      assert Advances(s, Take(j));
    }
  }

  /** With no lock held and no claim out, a loop or a cursor can go on. */
  lemma LoopAdvances(s: State)
    requires Inv(s) && s.prefix.finality < |s.txs|
    requires forall d :: 0 <= d < |s.txs| ==> s.sweeps[d].None? && s.txs[d].phase.Free?
    requires s.claims == Claims(multiset{}, multiset{}, multiset{}, multiset{})
    ensures exists step :: Advances(s, step)
  {
    if s.prefix.releasePending {
      assert Advances(s, Unbar);
    } else if s.prefix.committed < s.prefix.finality {
      assert Advances(s, Commit);
    } else if s.graph.index < |s.txs| {
      assert Advances(s, Fetch);
    } else if s.stamps.cursor < FirstUnexecuted(s.txs) {
      assert Advances(s, Check);
    } else {
      StillIsCandidate(s);
      assert Advances(s, Finalize);
    }
  }

  lemma InvAdvances(s: State)
    requires Inv(s) && s.prefix.finality < |s.txs|
    ensures exists step :: Advances(s, step)
  {
    assert |s.sweeps| == |s.txs|;
    hide *;
    if d :| 0 <= d < |s.txs| && s.sweeps[d].Some? {
      SweeperAdvances(s, d);
    } else if i :| 0 <= i < |s.txs| && !s.txs[i].phase.Free? {
      HolderAdvances(s, i);
    } else if s.claims != Claims(multiset{}, multiset{}, multiset{}, multiset{}) {
      ClaimAdvances(s);
    } else {
      LoopAdvances(s);
    }
  }

  /** In every reachable state of an unfinished block some step can be taken: there is no deadlock. */
  lemma NoDeadlock(n: nat, trace: seq<State>, k: nat)
    requires IsRun(n, trace) && k < |trace| && trace[k].prefix.finality < n
    ensures exists step :: Advances(trace[k], step)
  {
    Reachable(n, trace, k);
    InvAdvances(trace[k]);
  }

  /**
   * When nothing is in flight, no cursor has work left and the commit loop has caught up, the whole
   * block is final and committed: there is no other state in which the scheduler goes quiet.
   */
  lemma QuietMeansDone(n: nat, trace: seq<State>, k: nat)
    requires IsRun(n, trace) && k < |trace|
    requires Still(trace[k]) && Exhausted(trace[k]) && !Candidate(trace[k])
    ensures trace[k].prefix.finality == trace[k].prefix.committed == n
  {
    Reachable(n, trace, k);
    if trace[k].prefix.finality < n {
      StillIsCandidate(trace[k]);
    }
  }
}
