/**
 * One system. The scheduler decides who may run and when; the protocol decides what an execution reads,
 * how it ends and whether it is valid. Here both machines move together: what concerns both they do in
 * one step, and the outcome the scheduler leaves open is the one the protocol finds.
 */
module Joint {
  import opened Types
  import opened Block
  import P = Protocol
  import S = Scheduling

  datatype State = State(work: P.State, plan: S.State)

  // ----- how the two fit together -----

  /** The execution of a transaction, up to the point where its lock holder turns to the graph. */
  predicate Running(phase: P.Phase) {
    || phase.Reading? || phase.Fetching? || phase.Publishing? || phase.Trimming? || phase.Noting?
    || phase.Failing? || phase.Dropping?
  }

  predicate EndedWell(phase: P.Phase) {
    phase.Noting? && !phase.at.blocked && phase.run.Succeeded?
  }

  predicate EndedBlocked(phase: P.Phase) {
    (phase.Noting? && phase.at.blocked && phase.run.Succeeded?) || (phase.Dropping? && phase.blocked)
  }

  predicate EndedInError(phase: P.Phase) {
    phase.Dropping? && !phase.blocked
  }

  /** The attempt has grown the write set. */
  predicate Expands(c: P.Cell) {
    c.phase.Noting? && c.phase.run.Succeeded? && P.WritesNew(c, c.phase.run)
  }

  /** The same program point, seen by both machines. */
  predicate SamePoint(c: P.Cell, phase: S.Phase) {
    match phase
    case Free => c.phase.Free?
    case Pending => c.phase.Free?
    case Running => Running(c.phase)
    case Sweeping(_) => EndedWell(c.phase)
    case Noting(ending) =>
      (match ending
       case HandOff => EndedWell(c.phase)
       case Fresh => EndedWell(c.phase) && Expands(c)
       case Repeat => EndedWell(c.phase) && !Expands(c)
       case Retry => EndedBlocked(c.phase) || EndedInError(c.phase))
    case Stamping(target, _) => c.phase == P.Stamping(target)
    case Lowering(target, _, stamp) => c.phase == P.Lowering(target, stamp)
    case Rewinding(_, _) => c.phase.Free?
    case Scanning(stamp) => (c.phase.Scanning? && c.phase.stamp == stamp) || c.phase.Marking?
    case Linking => c.phase.Free?
  }

  function TaskFor(c: P.Cell, i: TxId): P.Task {
    if c.status == Executing then P.Execution(i, c.incarnation) else P.Validation(i, c.incarnation)
  }

  predicate SameTx(p: P.State, i: TxId, c: P.Cell, tx: S.Tx) {
    c.status == tx.status && SamePoint(c, tx.phase) && (tx.phase.Pending? ==> TaskFor(c, i) in p.tasks)
  }

  /** Clock, timestamps, finality and commit position are shared. */
  predicate SameStamps(p: P.State, s: S.State) {
    && s.stamps.clock == p.clock && s.stamps.lower == p.lower && s.stamps.confirmed == p.confirmed
    && s.prefix.finality == p.finality && s.prefix.lowerTs == p.lowerTs && s.prefix.committed == p.ledger.committed
  }

  predicate Match(p: P.State, s: S.State) {
    && |p.cells| == |s.txs| && SameStamps(p, s)
    && forall i :: 0 <= i < |s.txs| ==> SameTx(p, i, p.cells[i], s.txs[i])
  }

  // ----- moves -----

  datatype Move = Plan(step: S.Step) | Work(work: P.Step) | Both(step: S.Step, work: P.Step)

  /** What the scheduler does alone. */
  predicate PlanAlone(p: P.State, s: S.State, step: S.Step)
    requires |p.cells| == |s.txs|
  {
    match step
    case Fetch => true
    case Claim(_) => true
    case Start(i) => i < |s.txs| && s.txs[i].status !in {Initial, Conflict}
    case Finish(i) => i < |s.txs| && EndedWell(p.cells[i].phase)
    case Block(i, _) => i < |s.txs| && EndedBlocked(p.cells[i].phase)
    case Error(i) => i < |s.txs| && EndedInError(p.cells[i].phase)
    case Sweep(_, _) => true
    case EndSweep(d, expands) => d < |s.txs| && (s.txs[d].phase.Sweeping? ==> expands == Expands(p.cells[d]))
    case ReleaseDependents(_) => true
    case LinkAgain(_, _) => true
    case Rewind(_) => true
    case Check => true
    case Take(j) => j < |s.txs| && s.txs[j].status !in {Executed, Unconfirmed}
    case Unbar => true
    case _ => false
  }

  /** What an execution, a scan or the commit loop does alone. */
  predicate WorkAlone(p: P.State, work: P.Step) {
    match work
    case Lookup(_, _) => true
    case Fetch(_, _) => true
    case Complete(_) => true
    case Publish(_, _) => true
    case EndPublish(_) => true
    case Trim(_, _) => true
    case Record(_) => true
    case MarkFailed(_, _) => true
    case Discard(_) => true
    case Check(_, _) => true
    case EndScan(j) => j < |p.cells| && p.cells[j].phase.Scanning? && p.cells[j].phase.conflict
    case Mark(_, _) => true
    case TakeResult(_) => true
    case ApplyWrite(_) => true
    case _ => false
  }

  /** What they do together. */
  predicate Together(p: P.State, s: S.State, step: S.Step, work: P.Step)
    requires |p.cells| == |s.txs|
  {
    match step
    case Start(i) => i < |s.txs| && s.txs[i].status in {Initial, Conflict} && work == P.ClaimExecution(i)
    case Run(i) => i < |s.txs| && work == P.BeginExecution(TaskFor(p.cells[i], i))
    case Note(i) =>
      && i < |s.txs| && s.txs[i].phase.Noting?
      && if p.cells[i].phase.Dropping? then work == P.Drop(i)
         else work == P.Conclude(i, s.txs[i].phase.ending.HandOff?)
    case Stamp(i) => work == P.Stamp(i)
    case Lower(i) => work == P.Lower(i)
    case Take(j) => j < |s.txs| && s.txs[j].status in {Executed, Unconfirmed} && work == P.ClaimValidation(j)
    case Scan(j) => j < |s.txs| && work == P.BeginValidation(TaskFor(p.cells[j], j))
    case Accept(j) =>
      work == P.EndScan(j) && j < |p.cells| && p.cells[j].phase.Scanning? && !p.cells[j].phase.conflict
    case Reject(j) => work == P.Invalidate(j)
    case Finalize => work == P.Finalize
    case Commit => work == P.PublishCommit
    case _ => false
  }

  predicate Sized(b: BlockSpec, j: State) {
    P.Wellformed(b, j.work) && |j.work.cells| == |j.plan.txs|
  }

  ghost predicate Enabled(b: BlockSpec, j: State, move: Move)
    requires Sized(b, j)
  {
    match move
    case Plan(step) => PlanAlone(j.work, j.plan, step) && S.Enabled(j.plan, step)
    case Work(work) => WorkAlone(j.work, work) && P.Enabled(b, j.work, work)
    case Both(step, work) =>
      Together(j.work, j.plan, step, work) && S.Enabled(j.plan, step) && P.Enabled(b, j.work, work)
  }

  ghost function Apply(b: BlockSpec, j: State, move: Move): State
    requires Sized(b, j) && Enabled(b, j, move)
  {
    match move
    case Plan(step) => j.(plan := S.Apply(j.plan, step))
    case Work(work) => j.(work := P.Apply(b, j.work, work))
    case Both(step, work) => State(P.Apply(b, j.work, work), S.Apply(j.plan, step))
  }

  ghost predicate IsRun(b: BlockSpec, trace: seq<State>) {
    && |trace| > 0 && trace[0] == State(P.Init(b), S.InitState(|b.txs|))
    && forall k :: 0 <= k < |trace| - 1 ==> IsStep(b, trace[k], trace[k + 1])
  }

  ghost predicate IsStep(b: BlockSpec, j: State, j': State) {
    Sized(b, j) && exists move :: Enabled(b, j, move) && j' == Apply(b, j, move)
  }
}
