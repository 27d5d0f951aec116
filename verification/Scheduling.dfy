/**
 * The scheduler as a state machine: which transaction is claimed, blocked, retried, validated again
 * and finalized. What an execution reads and writes is left open, so every outcome of every attempt
 * is possible; what is exact here is every cursor, every edge, every timestamp and every lock.
 *
 * One step is one atomic access or one critical section that makes a single shared update.
 */
module Scheduling {
  import opened Types
  import opened DependencyGraph

  /** How an execution ended. */
  datatype Ending = HandOff | Fresh | Repeat | Retry

  /** What follows a rewind of the validation cursor. */
  datatype Then = Unlock | Pass | Relink

  /**
   * The holder of a transaction's lock, by program point; `Free` when nobody holds it and no task
   * is out, `Pending` when a task is out but has not taken the lock.
   */
  datatype Phase =
    | Free
    | Pending
    | Running
    | Sweeping(handing: bool)
    | Noting(ending: Ending)
    | Stamping(target: TxId, next: Then)
    | Lowering(target: TxId, next: Then, stamp: nat)
    | Rewinding(target: TxId, next: Then)
    | Scanning(stamp: nat)
    | Linking

  datatype Tx = Tx(status: Status, phase: Phase, executed: bool)

  /** Claims in flight: values held by a worker between two accesses. */
  datatype Claims = Claims(
    fetched: multiset<TxId>,    // taken from the execution cursor, graph not yet consulted
    handed: multiset<TxId>,     // won from the graph, transaction not yet consulted
    releasing: multiset<TxId>,  // found nothing to execute, about to release dependents
    checking: multiset<TxId>)   // taken from the validation cursor, transaction not yet consulted

  datatype Stamps = Stamps(clock: nat, lower: seq<nat>, confirmed: seq<nat>, cursor: nat)

  /** `releasePending`: `committed` is published but its successor has not been released. */
  datatype Prefix = Prefix(finality: nat, lowerTs: nat, committed: nat, releasePending: bool)

  /** `sweeps[d]` is the part of `affects[d]` still to be examined by the holder of that lock. */
  datatype State = State(
    txs: seq<Tx>, graph: Graph, sweeps: seq<Option<set<TxId>>>, claims: Claims, stamps: Stamps, prefix: Prefix)

  predicate Wellformed(s: State) {
    && Sized(s.graph, |s.txs|) && |s.sweeps| == |s.txs|
    && |s.stamps.lower| == |s.stamps.confirmed| == |s.txs|
    && (forall t, d :: 0 <= d < |s.txs| && t in s.graph.affects[d] ==> d < t < |s.txs|)
    && (forall t, d :: 0 <= d < |s.txs| && s.sweeps[d].Some? && t in s.sweeps[d].value ==> d < t < |s.txs|)
    && (forall t <- s.claims.fetched :: t < |s.txs|)
    && (forall t <- s.claims.handed :: t < |s.txs|)
    && (forall t <- s.claims.releasing :: t < |s.txs|)
    && (forall t <- s.claims.checking :: t < |s.txs|)
  }

  function InitState(n: nat): State {
    State(seq(n, _ => Tx(Initial, Free, false)), DependencyGraph.Init(n), seq(n, _ => None),
          Claims(multiset{}, multiset{}, multiset{}, multiset{}),
          Stamps(1, seq(n, _ => 0), seq(n, _ => 0), 0), Prefix(0, 0, 0, false))
  }

  // ----- small helpers -----

  function At(s: State, i: TxId, tx: Tx): State
    requires i < |s.txs|
  {
    s.(txs := s.txs[i := tx])
  }

  function Enter(s: State, i: TxId, phase: Phase): State
    requires i < |s.txs|
  {
    At(s, i, Tx(s.txs[i].status, phase, s.txs[i].executed))
  }

  /** The lock of `i` can be taken: nobody is inside it. */
  predicate Unlocked(s: State, i: TxId)
    requires i < |s.txs|
  {
    s.txs[i].phase.Free? || s.txs[i].phase.Pending?
  }

  /** The first transaction that has never been executed: where the execution frontier stands. */
  function FirstUnexecuted(txs: seq<Tx>): (k: nat)
    ensures k <= |txs| && (forall i :: 0 <= i < k ==> txs[i].executed)
    ensures k < |txs| ==> !txs[k].executed
  {
    if |txs| == 0 then 0
    else
      var k := FirstUnexecuted(txs[..|txs| - 1]);
      if k == |txs| - 1 && txs[k].executed then |txs| else k
  }

  /** A worker is about to pass `i` on, still inside the lock of its predecessor. */
  predicate Handing(phase: Phase) {
    match phase
    case Sweeping(handing) => handing
    case Noting(ending) => ending.HandOff?
    case Stamping(_, next) => next.Pass?
    case Lowering(_, next, _) => next.Pass?
    case Rewinding(_, next) => next.Pass?
    case _ => false
  }

  /** How many of the claims on `i` are still inside the lock of its predecessor. */
  function Held(s: State, i: TxId): nat
    requires i < |s.txs|
  {
    if i > 0 && Handing(s.txs[i - 1].phase) then 1 else 0
  }

  /** Where the lock holder goes once its rewind is done. */
  function Resume(next: Then): Phase {
    if next.Relink? then Linking else Free
  }

  function BeginRewind(n: nat, target: TxId, next: Then): Phase {
    if target < n then Stamping(target, next) else Resume(next)
  }

  // ----- execution claims -----

  function FetchIndex(s: State): State {
    var i := s.graph.index;
    s.(graph := s.graph.(index := i + 1),
       claims := if i < |s.txs| then s.claims.(fetched := s.claims.fetched + multiset{i}) else s.claims)
  }

  predicate CanClaim(s: State, i: TxId) {
    Wellformed(s) && i in s.claims.fetched
  }

  function ClaimStep(s: State, i: TxId): State
    requires CanClaim(s, i)
  {
    var fetched := s.claims.fetched - multiset{i};
    if Claimable(s.graph, i) then
      s.(graph := DependencyGraph.Claim(s.graph, i),
         claims := s.claims.(fetched := fetched, handed := s.claims.handed + multiset{i}))
    else
      s.(claims := s.claims.(fetched := fetched))
  }

  predicate CanStart(s: State, i: TxId) {
    Wellformed(s) && i < |s.txs| && s.claims.handed[i] > Held(s, i) && Unlocked(s, i)
  }

  /** `execution_task`. */
  function StartStep(s: State, i: TxId): State
    requires CanStart(s, i)
  {
    var claims := s.claims.(handed := s.claims.handed - multiset{i});
    if s.txs[i].status.Initial? || s.txs[i].status.Conflict? then
      At(s.(claims := claims), i, Tx(Executing, Pending, s.txs[i].executed))
    else if s.txs[i].status.Executing? then
      s.(claims := claims)
    else
      s.(claims := claims.(releasing := claims.releasing + multiset{i}))
  }

  // ----- execution -----

  predicate InPhase(s: State, i: TxId, status: Status, phase: Phase) {
    Wellformed(s) && i < |s.txs| && s.txs[i].status == status && s.txs[i].phase == phase
  }

  function RunStep(s: State, i: TxId): State
    requires InPhase(s, i, Executing, Pending)
  {
    Enter(s, i, Running)
  }

  predicate CanFinish(s: State, i: TxId) {
    InPhase(s, i, Executing, Running) && s.sweeps[i].None?
  }

  /** The attempt succeeded: take the lock on its reverse edges. */
  function FinishStep(s: State, i: TxId): State
    requires CanFinish(s, i)
  {
    Enter(s.(sweeps := s.sweeps[i := Some(s.graph.affects[i])]), i, Sweeping(false))
  }

  predicate CanBlock(s: State, i: TxId, d: Option<TxId>) {
    && InPhase(s, i, Executing, Running)
    && (d.Some? ==> d.value < i && s.sweeps[d.value].None?)
  }

  /** The attempt read an estimate. */
  function BlockStep(s: State, i: TxId, d: Option<TxId>): State
    requires CanBlock(s, i, d)
  {
    Enter(s.(graph := Added(s.graph, i, d)), i, Noting(Retry))
  }

  /** The attempt ended in an EVM error and read no estimate. */
  function ErrorStep(s: State, i: TxId): State
    requires InPhase(s, i, Executing, Running)
  {
    Enter(s.(graph := Bar(s.graph, i, s.prefix.committed)), i, Noting(Retry))
  }

  // ----- releasing dependents -----

  predicate CanSweep(s: State, d: TxId, t: TxId) {
    Wellformed(s) && d < |s.txs| && s.sweeps[d].Some? && t in s.sweeps[d].value
  }

  /** Examine one reverse edge, on behalf of the owner of `d` or of a useless claim on it. */
  function SweepStep(s: State, d: TxId, t: TxId): State
    requires CanSweep(s, d, t)
  {
    var pop := s.txs[d].phase.Sweeping?;
    var s1 := s.(graph := Examine(s.graph, d, t, pop), sweeps := s.sweeps[d := Some(s.sweeps[d].value - {t})]);
    if HandsOff(s.graph, d, t, pop) then
      Enter(s1.(claims := s1.claims.(handed := s1.claims.handed + multiset{t})), d, Sweeping(true))
    else s1
  }

  predicate CanEndSweep(s: State, d: TxId) {
    Wellformed(s) && d < |s.txs| && s.sweeps[d] == Some({})
  }

  /** `expands`: the write set has grown, so validation must come back to `d`. */
  function EndSweepStep(s: State, d: TxId, expands: bool): State
    requires CanEndSweep(s, d)
  {
    var s1 := s.(graph := Cleared(s.graph, d), sweeps := s.sweeps[d := None]);
    match s.txs[d].phase
    case Sweeping(handing) =>
      Enter(s1, d, Noting(if handing then HandOff else if expands then Fresh else Repeat))
    case _ => s1
  }

  predicate CanRelease(s: State, d: TxId) {
    Wellformed(s) && d in s.claims.releasing && s.sweeps[d].None?
  }

  function ReleaseStep(s: State, d: TxId): State
    requires CanRelease(s, d)
  {
    s.(claims := s.claims.(releasing := s.claims.releasing - multiset{d}),
       sweeps := s.sweeps[d := Some(s.graph.affects[d])])
  }

  // ----- the end of an execution -----

  predicate CanNote(s: State, i: TxId) {
    Wellformed(s) && i < |s.txs| && s.txs[i].status.Executing? && s.txs[i].phase.Noting?
  }

  function NoteStep(s: State, i: TxId): State
    requires CanNote(s, i)
  {
    match s.txs[i].phase.ending
    case HandOff => At(s, i, Tx(Executed, BeginRewind(|s.txs|, i, Pass), true))
    case Fresh => At(s, i, Tx(Executed, BeginRewind(|s.txs|, i, Unlock), true))
    case Repeat => At(s, i, Tx(Validating, Pending, true))
    case Retry => At(s, i, Tx(Conflict, BeginRewind(|s.txs|, i + 1, Unlock), true))
  }

  // ----- rewinding validation -----

  predicate CanStamp(s: State, i: TxId) {
    Wellformed(s) && i < |s.txs| && s.txs[i].phase.Stamping?
  }

  function StampStep(s: State, i: TxId): State
    requires CanStamp(s, i)
  {
    var p := s.txs[i].phase;
    Enter(s.(stamps := s.stamps.(clock := s.stamps.clock + 1)), i, Lowering(p.target, p.next, s.stamps.clock))
  }

  predicate CanLower(s: State, i: TxId) {
    Wellformed(s) && i < |s.txs| && s.txs[i].phase.Lowering? && s.txs[i].phase.target < |s.txs|
  }

  function LowerStep(s: State, i: TxId): State
    requires CanLower(s, i)
  {
    var p := s.txs[i].phase;
    var lower := s.stamps.lower[p.target := Max(s.stamps.lower[p.target], p.stamp)];
    Enter(s.(stamps := s.stamps.(lower := lower)), i, Rewinding(p.target, p.next))
  }

  predicate CanRewind(s: State, i: TxId) {
    Wellformed(s) && i < |s.txs| && s.txs[i].phase.Rewinding?
  }

  function RewindStep(s: State, i: TxId): State
    requires CanRewind(s, i)
  {
    var p := s.txs[i].phase;
    Enter(s.(stamps := s.stamps.(cursor := Min(s.stamps.cursor, p.target))), i, Resume(p.next))
  }

  // ----- validation -----

  predicate CanCheck(s: State) {
    Wellformed(s) && s.stamps.cursor < FirstUnexecuted(s.txs)
  }

  /** The successful compare-and-swap of the validation cursor. */
  function CheckStep(s: State): State
    requires CanCheck(s)
  {
    s.(stamps := s.stamps.(cursor := s.stamps.cursor + 1),
       claims := s.claims.(checking := s.claims.checking + multiset{s.stamps.cursor}))
  }

  predicate CanTake(s: State, j: TxId) {
    Wellformed(s) && j in s.claims.checking && Unlocked(s, j)
  }

  function TakeStep(s: State, j: TxId): State
    requires CanTake(s, j)
  {
    var s1 := s.(claims := s.claims.(checking := s.claims.checking - multiset{j}));
    if s.txs[j].status.Executed? || s.txs[j].status.Unconfirmed? then
      At(s1, j, Tx(Validating, Pending, s.txs[j].executed))
    else s1
  }

  function ScanStep(s: State, j: TxId): State
    requires InPhase(s, j, Validating, Pending)
  {
    Enter(s.(stamps := s.stamps.(clock := s.stamps.clock + 1)), j, Scanning(s.stamps.clock))
  }

  predicate CanJudge(s: State, j: TxId) {
    Wellformed(s) && j < |s.txs| && s.txs[j].status.Validating? && s.txs[j].phase.Scanning?
  }

  function AcceptStep(s: State, j: TxId): State
    requires CanJudge(s, j)
  {
    var confirmed := s.stamps.confirmed[j := Max(s.stamps.confirmed[j], s.txs[j].phase.stamp)];
    At(s.(stamps := s.stamps.(confirmed := confirmed)), j, Tx(Unconfirmed, Free, s.txs[j].executed))
  }

  function RejectStep(s: State, j: TxId): State
    requires CanJudge(s, j)
  {
    At(s, j, Tx(Conflict, BeginRewind(|s.txs|, j + 1, Relink), s.txs[j].executed))
  }

  predicate CanLink(s: State, j: TxId, d: Option<TxId>) {
    && InPhase(s, j, Conflict, Linking)
    && (d.Some? ==> d.value < j && s.sweeps[d.value].None?)
  }

  function LinkStep(s: State, j: TxId, d: Option<TxId>): State
    requires CanLink(s, j, d)
  {
    Enter(s.(graph := Added(s.graph, j, d)), j, Free)
  }

  // ----- finality and commit -----

  predicate CanFinalize(s: State) {
    && Wellformed(s) && s.prefix.finality < |s.txs|
    && var f := s.prefix.finality;
    && s.txs[f].phase.Free? && s.txs[f].status.Unconfirmed?
    && s.stamps.confirmed[f] > Max(s.prefix.lowerTs, s.stamps.lower[f])
  }

  function FinalizeStep(s: State): State
    requires CanFinalize(s)
  {
    var f := s.prefix.finality;
    At(s.(prefix := s.prefix.(finality := f + 1, lowerTs := Max(s.prefix.lowerTs, s.stamps.lower[f]))),
       f, Tx(Finality, Free, s.txs[f].executed))
  }

  predicate CanCommit(s: State) {
    Wellformed(s) && s.prefix.committed < s.prefix.finality && !s.prefix.releasePending
  }

  function CommitStep(s: State): State
    requires CanCommit(s)
  {
    s.(prefix := s.prefix.(committed := s.prefix.committed + 1, releasePending := true))
  }

  predicate CanUnbar(s: State) {
    Wellformed(s) && s.prefix.releasePending
  }

  function UnbarStep(s: State): State
    requires CanUnbar(s)
  {
    var next := s.prefix.committed;
    s.(prefix := s.prefix.(releasePending := false),
       graph := if next < |s.txs| then Release(s.graph, next) else s.graph)
  }

  // ----- the machine -----

  datatype Step =
    | Fetch
    | Claim(txid: TxId)
    | Start(txid: TxId)
    | Run(txid: TxId)
    | Finish(txid: TxId)
    | Block(txid: TxId, on: Option<TxId>)
    | Error(txid: TxId)
    | Sweep(txid: TxId, dependent: TxId)
    | EndSweep(txid: TxId, expands: bool)
    | ReleaseDependents(txid: TxId)
    | Note(txid: TxId)
    | Stamp(txid: TxId)
    | Lower(txid: TxId)
    | Rewind(txid: TxId)
    | Check
    | Take(txid: TxId)
    | Scan(txid: TxId)
    | Accept(txid: TxId)
    | Reject(txid: TxId)
    | LinkAgain(txid: TxId, on: Option<TxId>)
    | Finalize
    | Commit
    | Unbar

  /** Steps of an execution and of the dependency graph, as opposed to validation, finality and commit. */
  predicate OnExecution(step: Step) {
    match step
    case Fetch => true
    case Claim(_) => true
    case Start(_) => true
    case Run(_) => true
    case Finish(_) => true
    case Block(_, _) => true
    case Error(_) => true
    case Sweep(_, _) => true
    case EndSweep(_, _) => true
    case ReleaseDependents(_) => true
    case Note(_) => true
    case LinkAgain(_, _) => true
    case _ => false
  }

  predicate CanExecute(s: State, step: Step) {
    match step
    case Fetch => true
    case Claim(i) => CanClaim(s, i)
    case Start(i) => CanStart(s, i)
    case Run(i) => InPhase(s, i, Executing, Pending)
    case Finish(i) => CanFinish(s, i)
    case Block(i, d) => CanBlock(s, i, d)
    case Error(i) => InPhase(s, i, Executing, Running)
    case Sweep(d, t) => CanSweep(s, d, t)
    case EndSweep(d, _) => CanEndSweep(s, d)
    case ReleaseDependents(d) => CanRelease(s, d)
    case Note(i) => CanNote(s, i)
    case LinkAgain(j, d) => CanLink(s, j, d)
    case _ => false
  }

  predicate CanValidate(s: State, step: Step) {
    match step
    case Stamp(i) => CanStamp(s, i)
    case Lower(i) => CanLower(s, i)
    case Rewind(i) => CanRewind(s, i)
    case Check => CanCheck(s)
    case Take(j) => CanTake(s, j)
    case Scan(j) => InPhase(s, j, Validating, Pending)
    case Accept(j) => CanJudge(s, j)
    case Reject(j) => CanJudge(s, j)
    case Finalize => CanFinalize(s)
    case Commit => CanCommit(s)
    case Unbar => CanUnbar(s)
    case _ => false
  }

  predicate Enabled(s: State, step: Step) {
    Wellformed(s) && if OnExecution(step) then CanExecute(s, step) else CanValidate(s, step)
  }

  function ApplyExecution(s: State, step: Step): (s': State)
    requires CanExecute(s, step)
    ensures |s'.txs| == |s.txs|
  {
    match step
    case Fetch => FetchIndex(s)
    case Claim(i) => ClaimStep(s, i)
    case Start(i) => StartStep(s, i)
    case Run(i) => RunStep(s, i)
    case Finish(i) => FinishStep(s, i)
    case Block(i, d) => BlockStep(s, i, d)
    case Error(i) => ErrorStep(s, i)
    case Sweep(d, t) => SweepStep(s, d, t)
    case EndSweep(d, expands) => EndSweepStep(s, d, expands)
    case ReleaseDependents(d) => ReleaseStep(s, d)
    case Note(i) => NoteStep(s, i)
    case LinkAgain(j, d) => LinkStep(s, j, d)
    case _ => s
  }

  function ApplyValidation(s: State, step: Step): (s': State)
    requires CanValidate(s, step)
    ensures |s'.txs| == |s.txs|
  {
    match step
    case Stamp(i) => StampStep(s, i)
    case Lower(i) => LowerStep(s, i)
    case Rewind(i) => RewindStep(s, i)
    case Check => CheckStep(s)
    case Take(j) => TakeStep(s, j)
    case Scan(j) => ScanStep(s, j)
    case Accept(j) => AcceptStep(s, j)
    case Reject(j) => RejectStep(s, j)
    case Finalize => FinalizeStep(s)
    case Commit => CommitStep(s)
    case Unbar => UnbarStep(s)
    case _ => s
  }

  function Apply(s: State, step: Step): (s': State)
    requires Enabled(s, step)
    ensures |s'.txs| == |s.txs|
  {
    if OnExecution(step) then ApplyExecution(s, step) else ApplyValidation(s, step)
  }

  ghost predicate IsStep(s: State, s': State) {
    exists step :: Enabled(s, step) && s' == Apply(s, step)
  }

  ghost predicate IsRun(n: nat, trace: seq<State>) {
    && |trace| > 0 && trace[0] == InitState(n)
    && forall k :: 0 <= k < |trace| - 1 ==> IsStep(trace[k], trace[k + 1])
  }
}
