/** Every step of a worker keeps the invariant: claims, reads and publication. */
module ProtocolSteps {
  import opened Types
  import opened Block
  import opened Protocol
  import opened ProtocolInvariant
  import opened ProtocolFrame

  /** What a step of `j` may rely on. */
  ghost predicate Own(b: BlockSpec, s: State, j: TxId) {
    && Wellformed(b, s) && s.finality <= j < |b.txs|
    && CellOk(b, s, j) && ReadsOk(b, s, j) && ScanOk(s, j)
  }

  lemma Rely(b: BlockSpec, s: State, j: TxId)
    requires Inv(b, s) && j < |b.txs|
    requires !s.cells[j].phase.Free? || s.cells[j].status != Finality
    ensures Own(b, s, j) && TasksOk(s) && ClockOk(s) && Consistent(s)
  {
    assert forall i {:trigger s.cells[i]} :: 0 <= i < s.finality ==> FinalOk(b, s, i);
  }

  /** Only the cell of `j` changed, and no threat it posed was lifted. */
  lemma CellOnly(b: BlockSpec, s: State, s': State, j: TxId)
    requires Wellformed(b, s) && s.finality <= j < |b.txs|
    requires |s'.cells| == |s.cells| && s'.cells == s.cells[j := s'.cells[j]]
    requires s'.mem == s.mem && s'.journal == s.journal && s'.lower == s.lower
    requires |s'.confirmed| == |s.confirmed| && s'.confirmed == s.confirmed[j := s'.confirmed[j]]
    requires s'.finality == s.finality && s'.lowerTs == s.lowerTs && s'.clock >= s.clock
    requires s'.ledger == s.ledger
    requires forall ts: nat :: ts < s.clock && Threat(s.cells[j], ts) ==> Threat(s'.cells[j], ts)
    ensures LocalChange(b, s, s', j) && Harmless(s, s', j)
  {
  }

  /** The step concerns only `j`, which has no task before or after it. */
  ghost predicate OwnStep(b: BlockSpec, s: State, s': State, j: TxId) {
    && OwnOk(b, s, s', j) && s'.tasks == s.tasks
    && (!s.cells[j].phase.Free? || s.cells[j].status !in {Executing, Validating})
    && ClockOk(s') && Consistent(s')
  }

  lemma Settle(b: BlockSpec, s: State, s': State, j: TxId)
    requires Inv(b, s) && OwnStep(b, s, s', j)
    ensures Inv(b, s')
  {
    NoTask(s, j);
    TasksKept(s, s', j);
    LocalStep(b, s, s', j);
  }

  function Local(s: State, j: TxId, c: Cell, m: Memory, g: Journal): State
    requires j < |s.cells| == |s.mem| == |s.journal|
  {
    s.(cells := s.cells[j := c], mem := s.mem[j := m], journal := s.journal[j := g])
  }

  /** Later readers are not disturbed, or this cell still owes them a rewind. */
  ghost predicate Covered(c: Cell, m: Memory, c': Cell, m': Memory) {
    && (forall ts: nat :: Threat(c, ts) ==> Threat(c', ts))
    && (Quiet(m, m') || forall ts: nat :: Threat(c', ts))
  }

  lemma LocalSettles(b: BlockSpec, s: State, j: TxId, c: Cell, m: Memory, g: Journal)
    requires Own(b, s, j) && ClockOk(s) && Consistent(s)
    requires !s.cells[j].phase.Free?
    requires !c.phase.Scanning? && !c.phase.Lowering? && c.status !in {Finality, Unconfirmed}
    requires History(j) in m && CellGood(b, c, m, g, j)
    requires Extends(s.journal[j], g)
    requires j + 1 < |b.txs| ==> Covered(s.cells[j], s.mem[j], c, m)
    requires ReadsOk(b, Local(s, j, c, m, g), j)
    ensures OwnStep(b, s, Local(s, j, c, m, g), j)
  {
    hide CellGood, ReadsOk, Threat, AcceptedOk, Quiet, Extends;
    var s' := Local(s, j, c, m, g);
    assert LocalChange(b, s, s', j);
    assert forall ts: nat :: j + 1 < |b.txs| ==> ThreatKept(s, s', j, ts);
  }

  /** An executing transaction moves to its next phase without touching memory. */
  lemma PhaseStep(b: BlockSpec, s: State, j: TxId, p: Phase)
    requires Own(b, s, j) && ClockOk(s) && Consistent(s)
    requires s.cells[j].status == Executing && !s.cells[j].phase.Free?
    requires !p.Scanning? && !p.Lowering?
    requires forall ts: nat :: Threat(s.cells[j], ts) ==> Threat(s.cells[j].(phase := p), ts)
    requires CellGood(b, s.cells[j].(phase := p), s.mem[j], s.journal[j], j)
    requires ReadsOk(b, WithPhase(s, j, p), j)
    ensures OwnStep(b, s, WithPhase(s, j, p), j)
  {
    hide CellGood, ReadsOk, Threat, AcceptedOk;
    CellOnly(b, s, WithPhase(s, j, p), j);
  }

  /** Reads recorded so far stay what they were while their own transaction publishes. */
  lemma SameReads(b: BlockSpec, s: State, s': State, j: TxId)
    requires Wellformed(b, s) && Wellformed(b, s') && s.finality <= j < |b.txs|
    requires s'.finality == s.finality
    requires s'.mem == s.mem[j := s'.mem[j]] && s'.journal == s.journal[j := s'.journal[j]]
    requires ReadsOk(b, s, j) && (Vouched(s'.cells[j]) == Vouched(s.cells[j]) || Vouched(s'.cells[j]) == Nothing)
    ensures ReadsOk(b, s', j)
  {
  }

  // ----- claims and task starts -----

  lemma ClaimExecutionOwn(b: BlockSpec, s: State, j: TxId)
    requires Own(b, s, j) && CanClaimExecution(b, s, j)
    ensures OwnOk(b, s, ClaimExecutionStep(b, s, j), j)
  {
    CellOnly(b, s, ClaimExecutionStep(b, s, j), j);
  }

  lemma ClaimExecutionTasks(b: BlockSpec, s: State, j: TxId)
    requires Wellformed(b, s) && CanClaimExecution(b, s, j) && TasksOk(s) && ClockOk(s) && Consistent(s)
    ensures var s' := ClaimExecutionStep(b, s, j); TasksOk(s') && ClockOk(s') && Consistent(s')
  {
  }

  lemma ClaimExecutionKeeps(b: BlockSpec, s: State, j: TxId)
    requires Inv(b, s) && CanClaimExecution(b, s, j)
    ensures Inv(b, ClaimExecutionStep(b, s, j))
  {
    Rely(b, s, j);
    hide *;
    ClaimExecutionOwn(b, s, j);
    ClaimExecutionTasks(b, s, j);
    LocalStep(b, s, ClaimExecutionStep(b, s, j), j);
  }

  lemma ClaimValidationOwn(b: BlockSpec, s: State, j: TxId)
    requires Own(b, s, j) && CanClaimValidation(b, s, j)
    ensures OwnOk(b, s, ClaimValidationStep(b, s, j), j)
  {
    var s' := ClaimValidationStep(b, s, j);
    ClaimedCell(b, s.cells[j], s.mem[j], s.journal[j], j);
    CellOnly(b, s, s', j);
    hide CellGood, ReadsOk, Vouched, Harmless, AcceptedOk;
    SameReads(b, s, s', j);
  }

  /** Taking a result to validation changes neither what it shows nor what it vouches for. */
  lemma ClaimedCell(b: BlockSpec, c: Cell, m: Memory, g: Journal, j: TxId)
    requires j < |b.txs| && CellGood(b, c, m, g, j) && c.phase.Free? && c.status in {Executed, Unconfirmed}
    ensures CellGood(b, c.(status := Validating), m, g, j)
    ensures Vouched(c.(status := Validating)) == Vouched(c)
  {
    hide RunOk, LiveEntries, Kept;
  }

  lemma ClaimValidationTasks(b: BlockSpec, s: State, j: TxId)
    requires Wellformed(b, s) && CanClaimValidation(b, s, j) && TasksOk(s) && ClockOk(s) && Consistent(s)
    ensures var s' := ClaimValidationStep(b, s, j); TasksOk(s') && ClockOk(s') && Consistent(s')
  {
  }

  lemma ClaimValidationKeeps(b: BlockSpec, s: State, j: TxId)
    requires Inv(b, s) && CanClaimValidation(b, s, j)
    ensures Inv(b, ClaimValidationStep(b, s, j))
  {
    Rely(b, s, j);
    hide *;
    ClaimValidationOwn(b, s, j);
    ClaimValidationTasks(b, s, j);
    LocalStep(b, s, ClaimValidationStep(b, s, j), j);
  }

  lemma TaskGone(s: State, task: Task)
    requires TasksOk(s) && task in s.tasks
    ensures TaskOk(s, task)
    ensures forall t <- s.tasks - multiset{task} ::
              t.txid != task.txid && t in s.tasks && (s.tasks - multiset{task})[t] == s.tasks[t]
  {
  }

  /** A task always finds the status and incarnation it was created for. */
  lemma BeginExecutionOwn(b: BlockSpec, s: State, task: Task)
    requires Own(b, s, task.txid) && TaskOk(s, task) && CanBeginExecution(b, s, task)
    ensures OwnOk(b, s, BeginExecutionStep(b, s, task), task.txid)
  {
    CellOnly(b, s, BeginExecutionStep(b, s, task), task.txid);
    assert Explained(b.txs[task.txid].program, map[]);
  }

  lemma BeginExecutionTasks(b: BlockSpec, s: State, task: Task)
    requires Wellformed(b, s) && CanBeginExecution(b, s, task) && TasksOk(s) && ClockOk(s) && Consistent(s)
    ensures var s' := BeginExecutionStep(b, s, task); TasksOk(s') && ClockOk(s') && Consistent(s')
  {
  }

  lemma BeginExecutionKeeps(b: BlockSpec, s: State, task: Task)
    requires Inv(b, s) && CanBeginExecution(b, s, task)
    ensures Inv(b, BeginExecutionStep(b, s, task))
  {
    TaskGone(s, task);
    Rely(b, s, task.txid);
    hide *;
    BeginExecutionOwn(b, s, task);
    BeginExecutionTasks(b, s, task);
    LocalStep(b, s, BeginExecutionStep(b, s, task), task.txid);
  }

  // ----- reading -----

  lemma DoomedGrows(s: State, s': State, j: TxId, seen: Sources, seen': Sources)
    requires |s.mem| == |s.cells| && s'.mem == s.mem && |s'.cells| == |s.cells| && s'.finality == s.finality
    requires forall q <- seen :: q in seen' && seen'[q] == seen[q]
    requires Doomed(s, j, seen)
    ensures Doomed(s', j, seen')
  {
  }

  /** One more lookup, with everything seen before it untouched. */
  lemma ReadsGrow(b: BlockSpec, s: State, s': State, j: TxId, v: Claimed, v': Claimed, q: Probe)
    requires Wellformed(b, s) && Wellformed(b, s') && j < |b.txs|
    requires s'.mem == s.mem && s'.journal == s.journal && s'.finality == s.finality
    requires v.Claimed? && v'.Claimed?
    requires forall m <- v.seen :: m in v'.seen && v'.seen[m] == v.seen[m]
    requires forall m <- v'.obs :: m == q || (m in v.obs && v'.obs[m] == v.obs[m])
    requires v.obs.Keys <= v.seen.Keys
    requires forall m :: m in v.obs && m in v.seen ==> ReadOk(b, s, j, v, m)
    requires q in v'.obs && q in v'.seen ==> ReadOk(b, s', j, v', q)
    ensures forall m :: m in v'.obs && m in v'.seen ==> ReadOk(b, s', j, v', m)
  {
  }

  lemma LookedCell(b: BlockSpec, c: Cell, m: Memory, g: Journal, j: TxId, q: Probe,
                   writer: Option<TxId>, mem: seq<Memory>, value: Value)
    requires j < |b.txs| && CellGood(b, c, m, g, j) && c.phase.Reading?
    requires Next(b.txs[j].program, c.phase.at.obs) == Read(q)
    requires writer.Some? ==> writer.value < |mem| && q.location in mem[writer.value]
    ensures CellGood(b, c.(phase := Looked(c.phase.at, q, writer, mem, value)), m, g, j)
  {
    hide PhaseOk, Explained, Next, Kept;
    LookedPhase(b, c, m, j, q, writer, mem, value);
  }

  lemma LookedPhase(b: BlockSpec, c: Cell, m: Memory, j: TxId, q: Probe,
                    writer: Option<TxId>, mem: seq<Memory>, value: Value)
    requires j < |b.txs| && PhaseOk(b, c, m, j) && c.phase.Reading?
    requires Next(b.txs[j].program, c.phase.at.obs) == Read(q)
    requires writer.Some? ==> writer.value < |mem| && q.location in mem[writer.value]
    ensures PhaseOk(b, c.(phase := Looked(c.phase.at, q, writer, mem, value)), m, j)
  {
    hide Explained, Next, Retired, Kept, PhaseOk;
    if writer.Some? {
      var e := mem[writer.value][q.location];
      FoundPhase(b, c, m, j, q, FromTx(writer.value, e.incarnation), value, c.phase.at.blocked || e.estimate);
    } else {
      UnfoundPhase(b, c, m, j, q);
    }
  }

  lemma FoundPhase(
    b: BlockSpec, c: Cell, m: Memory, j: TxId, q: Probe, v: Version, value: Value, blocked: bool)
    requires j < |b.txs| && PhaseOk(b, c, m, j) && c.phase.Reading?
    requires Next(b.txs[j].program, c.phase.at.obs) == Read(q)
    ensures
      var at := Resolved(c.phase.at, q, v).(obs := c.phase.at.obs[q := value], blocked := blocked);
      PhaseOk(b, c.(phase := Reading(at)), m, j)
  {
    hide Explained, Next, Retired, Kept;
    var at := Resolved(c.phase.at, q, v).(obs := c.phase.at.obs[q := value], blocked := blocked);
    ExplainedExtends(b.txs[j].program, c.phase.at.obs, q, value);
    KeptNext(c.phase.at, q, v);
    RetiredStays(c, c.(phase := Reading(at)), m, j);
  }

  lemma UnfoundPhase(b: BlockSpec, c: Cell, m: Memory, j: TxId, q: Probe)
    requires j < |b.txs| && PhaseOk(b, c, m, j) && c.phase.Reading?
    requires Next(b.txs[j].program, c.phase.at.obs) == Read(q)
    ensures PhaseOk(b, c.(phase := Fetching(Resolved(c.phase.at, q, FromStorage), q)), m, j)
  {
    hide Explained, Next, Retired, Kept;
    KeptNext(c.phase.at, q, FromStorage);
    RetiredStays(c, c.(phase := Fetching(Resolved(c.phase.at, q, FromStorage), q)), m, j);
  }

  lemma KeptNext(at: Attempt, q: Probe, v: Version)
    requires Kept(at.seen, at.versions) && q !in at.seen
    ensures Kept(Resolved(at, q, v).seen, Resolved(at, q, v).versions)
  {
    var seen, versions := Resolved(at, q, v).seen, Resolved(at, q, v).versions;
    forall m <- seen ensures m.location in versions && Found(seen, m.location, versions[m.location]) {
      if m.location == q.location {
        assert q in seen && seen[q] == v;
      } else {
        assert Found(at.seen, m.location, at.versions[m.location]);
        var k :| k in at.seen && k.location == m.location && at.seen[k] == at.versions[m.location];
        assert k in seen && seen[k] == at.seen[k];
      }
    }
  }

  lemma RetiredStays(c: Cell, c': Cell, m: Memory, j: TxId)
    requires c'.result == c.result
    ensures Retired(c', m, j) == Retired(c, m, j)
  {
  }

  /** A lookup that is not blocked observes exactly what its version published. */
  lemma LookupReads(b: BlockSpec, s: State, j: TxId, value: Value, s': State)
    requires Wellformed(b, s) && CanLookup(b, s, j, value) && s' == LookupStep(b, s, j, value)
    requires Wellformed(b, s') && ReadsOk(b, s, j)
    requires s.cells[j].phase.at.obs.Keys == s.cells[j].phase.at.seen.Keys
    requires WriterOk(b, s, j)
    ensures ReadsOk(b, s', j)
  {
    var q := Wanted(b, s, j).probe;
    var v, v' := Vouched(s.cells[j]), Vouched(s'.cells[j]);
    if v'.Claimed? {
      ReadsGrow(b, s, s', j, v, v', q);
    }
  }

  ghost predicate WriterOk(b: BlockSpec, s: State, j: TxId)
    requires Wellformed(b, s) && j < |b.txs| && s.cells[j].phase.Reading?
  {
    Wanted(b, s, j).Read? ==>
      var l := Wanted(b, s, j).probe.location;
      var writer := Latest(s.mem, l, j);
      writer.Some? ==>
        var e := s.mem[writer.value][l];
        (e.incarnation, l) in s.journal[writer.value] && s.journal[writer.value][(e.incarnation, l)] == e.value
  }

  lemma LookupSettles(b: BlockSpec, s: State, j: TxId, value: Value)
    requires Own(b, s, j) && CanLookup(b, s, j, value) && WriterOk(b, s, j) && ClockOk(s) && Consistent(s)
    ensures OwnStep(b, s, LookupStep(b, s, j, value), j)
  {
    var q := Wanted(b, s, j).probe;
    var writer := Latest(s.mem, q.location, j);
    assert s.cells[j].phase.at.obs.Keys == s.cells[j].phase.at.seen.Keys;
    LookedCell(b, s.cells[j], s.mem[j], s.journal[j], j, q, writer, s.mem, value);
    hide CellGood, ReadsOk, ScanOk;
    LookupReads(b, s, j, value, LookupStep(b, s, j, value));
    PhaseStep(b, s, j, Looked(s.cells[j].phase.at, q, writer, s.mem, value));
  }

  lemma WriterFound(b: BlockSpec, s: State, j: TxId)
    requires Inv(b, s) && j < |b.txs| && s.cells[j].phase.Reading?
    ensures WriterOk(b, s, j)
  {
    if Wanted(b, s, j).Read? {
      var writer := Latest(s.mem, Wanted(b, s, j).probe.location, j);
      if writer.Some? {
        assert CellOk(b, s, writer.value);
      }
    }
  }

  lemma LookupKeeps(b: BlockSpec, s: State, j: TxId, value: Value)
    requires Inv(b, s) && CanLookup(b, s, j, value)
    ensures Inv(b, LookupStep(b, s, j, value))
  {
    Rely(b, s, j);
    WriterFound(b, s, j);
    hide *;
    LookupSettles(b, s, j, value);
    Settle(b, s, LookupStep(b, s, j, value), j);
  }

  /** Multi-version memory of a finalized prefix resolves to what the results of that prefix leave. */
  lemma {:induction false} ResolveFinal(b: BlockSpec, s: State, l: Location, k: nat)
    requires Wellformed(b, s) && k <= s.finality
    requires forall i :: 0 <= i < k ==> FinalOk(b, s, i) && Live(s.cells[i], s.mem[i], i)
    ensures Latest(s.mem, l, k).Some? ==>
              l in Merged(s.cells, k) && Merged(s.cells, k)[l] == s.mem[Latest(s.mem, l, k).value][l].value
    ensures Latest(s.mem, l, k).None? ==> l !in Merged(s.cells, k)
  {
    assert Merged(s.cells, 0) == map[];
    hide FinalOk, Live, Merged, Wellformed;
    if k > 0 {
      FinalOverlay(b, s, k - 1);
      ResolveFinal(b, s, l, k - 1);
    }
  }

  lemma FinalOverlay(b: BlockSpec, s: State, j: TxId)
    requires Wellformed(b, s) && j < |b.txs|
    requires FinalOk(b, s, j) && Live(s.cells[j], s.mem[j], j)
    ensures forall l <- s.mem[j] ::
      l in Merged(s.cells, j + 1) && Merged(s.cells, j + 1)[l] == s.mem[j][l].value
    ensures forall l :: l !in s.mem[j] ==> (l in Merged(s.cells, j + 1) <==> l in Merged(s.cells, j))
    ensures forall l :: l !in s.mem[j] && l in Merged(s.cells, j) ==>
      Merged(s.cells, j + 1)[l] == Merged(s.cells, j)[l]
  {
  }

  lemma FinalsLive(b: BlockSpec, s: State)
    requires Inv(b, s)
    ensures forall i :: 0 <= i < s.finality ==> FinalOk(b, s, i) && Live(s.cells[i], s.mem[i], i)
  {
    forall i | 0 <= i < s.finality ensures FinalOk(b, s, i) && Live(s.cells[i], s.mem[i], i) {
      assert FinalOk(b, s, i) && CellOk(b, s, i);
    }
  }

  ghost predicate ShowsBase(b: BlockSpec, s: State, l: Location)
    requires s.finality <= |s.mem|
  {
    View(b, s.ledger.overlay, l) == b.base(l) || exists i :: 0 <= i < s.finality && l in s.mem[i]
  }

  /** Committed state shows the block-start value of a location no finalized transaction has written. */
  lemma CommittedView(b: BlockSpec, s: State, l: Location)
    requires Inv(b, s)
    ensures ShowsBase(b, s, l)
  {
    hide Inv, CommitOk, FinalOk, Live, Merged;
    CommitParts(b, s);
    if l in s.ledger.overlay {
      var k := WrittenBy(b, s, l);
      FinalsLive(b, s);
      ResolveFinal(b, s, l, k);
    }
  }

  lemma CommitParts(b: BlockSpec, s: State)
    requires Inv(b, s)
    ensures Wellformed(b, s) && CommitOk(b, s)
  {
  }

  /** A prefix of the final transactions has written what committed state shows. */
  lemma WrittenBy(b: BlockSpec, s: State, l: Location) returns (k: nat)
    requires Wellformed(b, s) && CommitOk(b, s) && l in s.ledger.overlay
    ensures k <= s.finality && l in Merged(s.cells, k)
  {
    hide Merged;
    k := if s.ledger.applying.Some? then s.ledger.committed + 1 else s.ledger.committed;
    assert s.ledger.applying.Some? ==> l in s.ledger.overlay + s.ledger.applying.value;
  }

  lemma FetchReads(b: BlockSpec, s: State, j: TxId, value: Value, s': State)
    requires Wellformed(b, s) && CanFetch(b, s, j, value) && s' == FetchStep(b, s, j, value)
    requires s.finality <= j && Wellformed(b, s') && ReadsOk(b, s, j)
    requires ShowsBase(b, s, s.cells[j].phase.probe.location)
    requires
      var p := s.cells[j].phase;
      && p.at.obs.Keys + {p.probe} == p.at.seen.Keys
      && p.at.seen[p.probe] == FromStorage
    ensures ReadsOk(b, s', j)
  {
    var at, q := s.cells[j].phase.at, s.cells[j].phase.probe;
    var v, v' := Vouched(s.cells[j]), Vouched(s'.cells[j]);
    if v'.Claimed? {
      if Doomed(s, j, at.seen) {
        DoomedGrows(s, s', j, at.seen, at.seen);
      } else if i :| 0 <= i < s.finality && q.location in s.mem[i] {
        assert q in at.seen && q.location in s'.mem[i];
      }
      ReadsGrow(b, s, s', j, v, v', q);
    }
  }

  lemma FetchedCell(b: BlockSpec, c: Cell, m: Memory, g: Journal, j: TxId, value: Value)
    requires j < |b.txs| && CellGood(b, c, m, g, j) && c.phase.Fetching?
    ensures CellGood(b, c.(phase := Reading(c.phase.at.(obs := c.phase.at.obs[c.phase.probe := value]))), m, g, j)
  {
    hide Explained, Next, Retired, Kept;
    ExplainedExtends(b.txs[j].program, c.phase.at.obs, c.phase.probe, value);
    RetiredStays(c, c.(phase := Reading(c.phase.at.(obs := c.phase.at.obs[c.phase.probe := value]))), m, j);
  }

  lemma FetchSettles(b: BlockSpec, s: State, j: TxId, value: Value)
    requires Own(b, s, j) && CanFetch(b, s, j, value) && ClockOk(s) && Consistent(s)
    requires ShowsBase(b, s, s.cells[j].phase.probe.location)
    ensures OwnStep(b, s, FetchStep(b, s, j, value), j)
  {
    var p := s.cells[j].phase;
    assert p.at.obs.Keys + {p.probe} == p.at.seen.Keys;
    FetchedCell(b, s.cells[j], s.mem[j], s.journal[j], j, value);
    hide CellGood, ReadsOk, ScanOk;
    FetchReads(b, s, j, value, FetchStep(b, s, j, value));
    PhaseStep(b, s, j, Reading(p.at.(obs := p.at.obs[p.probe := value])));
  }

  lemma FetchKeeps(b: BlockSpec, s: State, j: TxId, value: Value)
    requires Inv(b, s) && CanFetch(b, s, j, value)
    ensures Inv(b, FetchStep(b, s, j, value))
  {
    Rely(b, s, j);
    CommittedView(b, s, s.cells[j].phase.probe.location);
    hide *;
    FetchSettles(b, s, j, value);
    Settle(b, s, FetchStep(b, s, j, value), j);
  }
}
