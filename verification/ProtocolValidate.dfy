/** Rewinds and validation keep the invariant. */
module ProtocolValidate {
  import opened Types
  import opened Block
  import opened Protocol
  import opened ProtocolInvariant
  import opened ProtocolFrame
  import opened ProtocolSteps

  // ----- rewinds -----

  lemma StampSettles(b: BlockSpec, s: State, j: TxId)
    requires Own(b, s, j) && CanStamp(b, s, j) && ClockOk(s) && Consistent(s)
    ensures OwnStep(b, s, StampStep(b, s, j), j)
  {
    var s' := StampStep(b, s, j);
    assert CellGood(b, s'.cells[j], s.mem[j], s.journal[j], j);
    hide CellGood, ReadsOk;
    SameReads(b, s, s', j);
    CellOnly(b, s, s', j);
  }

  lemma StampKeeps(b: BlockSpec, s: State, j: TxId)
    requires Inv(b, s) && CanStamp(b, s, j)
    ensures Inv(b, StampStep(b, s, j))
  {
    Rely(b, s, j);
    hide *;
    StampSettles(b, s, j);
    Settle(b, s, StampStep(b, s, j), j);
  }

  /** A rewind that is done leaves the transaction as its status says. */
  lemma LoweredCell(b: BlockSpec, c: Cell, m: Memory, g: Journal, j: TxId)
    requires j < |b.txs| && CellGood(b, c, m, g, j) && c.phase.Lowering?
    ensures c.phase.target in {j, j + 1} && c.phase.target < |b.txs| && c.status in {Conflict, Executed}
    ensures
      var c' := c.(phase := Free);
      CellGood(b, c', m, g, j) && Vouched(c') == Vouched(c)
  {
    hide RunOk, LiveEntries;
  }

  /** Publishing the rewind timestamp replaces the threat it stands for. */
  lemma LowerIsHarmless(b: BlockSpec, s: State, j: TxId)
    requires Wellformed(b, s) && s.finality <= j < |b.txs| && CanLower(b, s, j)
    requires s.cells[j].phase.target in {j, j + 1}
    ensures LocalChange(b, s, LowerStep(b, s, j), j) && Harmless(s, LowerStep(b, s, j), j)
  {
    var s' := LowerStep(b, s, j);
    assert s'.lower[s.cells[j].phase.target] >= s.cells[j].phase.stamp;
    assert forall ts: nat :: ThreatKept(s, s', j, ts);
    assert Quiet(s.mem[j], s'.mem[j]);
  }

  lemma LowerSettles(b: BlockSpec, s: State, j: TxId)
    requires Own(b, s, j) && CanLower(b, s, j) && ClockOk(s) && Consistent(s)
    ensures OwnStep(b, s, LowerStep(b, s, j), j)
  {
    hide CellGood, ReadsOk, LocalChange, Harmless, AcceptedOk, Vouched;
    LoweredCell(b, s.cells[j], s.mem[j], s.journal[j], j);
    SameReads(b, s, LowerStep(b, s, j), j);
    LowerIsHarmless(b, s, j);
  }

  lemma LowerKeeps(b: BlockSpec, s: State, j: TxId)
    requires Inv(b, s) && CanLower(b, s, j)
    ensures Inv(b, LowerStep(b, s, j))
  {
    Rely(b, s, j);
    hide *;
    LowerSettles(b, s, j);
    Settle(b, s, LowerStep(b, s, j), j);
  }

  // ----- the scan -----

  lemma BeginValidationOwn(b: BlockSpec, s: State, task: Task)
    requires Own(b, s, task.txid) && TaskOk(s, task) && CanBeginValidation(b, s, task)
    requires task.txid !in s.ledger.taken
    ensures OwnOk(b, s, BeginValidationStep(b, s, task), task.txid)
  {
    var s', j := BeginValidationStep(b, s, task), task.txid;
    assert CellGood(b, s'.cells[j], s.mem[j], s.journal[j], j);
    hide CellGood, ReadsOk;
    SameReads(b, s, s', j);
    CellOnly(b, s, s', j);
  }

  /** The result a validation needs is there, belongs to its incarnation, and is not a failure. */
  lemma BeginValidationTasks(b: BlockSpec, s: State, task: Task)
    requires Own(b, s, task.txid) && CanBeginValidation(b, s, task) && TasksOk(s) && ClockOk(s) && Consistent(s)
    requires task.txid !in s.ledger.taken
    ensures var s' := BeginValidationStep(b, s, task); TasksOk(s') && ClockOk(s') && Consistent(s')
  {
    TaskGone(s, task);
    TasksKept(s, BeginValidationStep(b, s, task), task.txid);
  }

  lemma NotTaken(b: BlockSpec, s: State, j: TxId)
    requires Inv(b, s) && s.finality <= j
    ensures j !in s.ledger.taken
  {
  }

  lemma BeginValidationKeeps(b: BlockSpec, s: State, task: Task)
    requires Inv(b, s) && CanBeginValidation(b, s, task)
    ensures Inv(b, BeginValidationStep(b, s, task))
  {
    TaskGone(s, task);
    Rely(b, s, task.txid);
    NotTaken(b, s, task.txid);
    hide *;
    BeginValidationOwn(b, s, task);
    BeginValidationTasks(b, s, task);
    LocalStep(b, s, BeginValidationStep(b, s, task), task.txid);
  }

  lemma AcceptedMore(s: State, s': State, j: TxId, ts: nat, pending: set<Location>, pending': set<Location>)
    requires j < |s.cells| == |s.lower| == |s.mem|
    requires s'.lower == s.lower && s'.mem == s.mem
    requires |s'.cells| == |s.cells| && s'.cells == s.cells[j := s'.cells[j]]
    requires s'.cells[j].result == s.cells[j].result
    requires AcceptedOk(s, j, ts, pending)
    requires s.cells[j].result.Some? ==> forall l <- s.cells[j].result.value.versions ::
                 l in pending && l !in pending' ==> Current(s.mem, l, j, s.cells[j].result.value.versions[l])
    ensures AcceptedOk(s', j, ts, pending')
  {
    if Excused(s, j, ts) {
      if i :| 0 <= i < j && Threat(s.cells[i], ts) {
        assert s'.cells[i] == s.cells[i];
      }
      assert Excused(s', j, ts);
    }
  }

  lemma ScanningIsNoThreat(c: Cell)
    requires c.phase.Scanning?
    ensures forall ts: nat :: !Threat(c, ts)
  {
  }

  lemma CheckCell(b: BlockSpec, c: Cell, m: Memory, g: Journal, j: TxId, l: Location, conflict: bool)
    requires j < |b.txs| && CellGood(b, c, m, g, j) && c.phase.Scanning?
    ensures c.status == Validating
    ensures
      var c' := c.(phase := Scanning(c.phase.stamp, c.phase.todo - {l}, conflict));
      CellGood(b, c', m, g, j) && Vouched(c') == Vouched(c)
  {
    hide RunOk, LiveEntries;
  }

  /** A location that is still current need not be looked at again. */
  lemma CheckScan(b: BlockSpec, s: State, j: TxId, l: Location)
    requires Wellformed(b, s) && j < |b.txs| && ScanOk(s, j) && CanCheck(b, s, j, l)
    requires s.cells[j].status == Validating
    ensures ScanOk(CheckStep(b, s, j, l), j)
  {
    hide Threat, Current, AcceptedOk;
    var s' := CheckStep(b, s, j, l);
    var p := s.cells[j].phase;
    if !s'.cells[j].phase.conflict {
      AcceptedMore(s, s', j, p.stamp, p.todo, p.todo - {l});
    }
  }

  lemma CheckSettles(b: BlockSpec, s: State, j: TxId, l: Location)
    requires Own(b, s, j) && CanCheck(b, s, j, l) && ClockOk(s) && Consistent(s)
    ensures OwnStep(b, s, CheckStep(b, s, j, l), j)
  {
    hide CellGood, ReadsOk, ScanOk, Threat, Current, Vouched;
    var s' := CheckStep(b, s, j, l);
    CheckCell(b, s.cells[j], s.mem[j], s.journal[j], j, l, s'.cells[j].phase.conflict);
    ScanningIsNoThreat(s.cells[j]);
    SameReads(b, s, s', j);
    CellOnly(b, s, s', j);
    CheckScan(b, s, j, l);
  }

  lemma CheckKeeps(b: BlockSpec, s: State, j: TxId, l: Location)
    requires Inv(b, s) && CanCheck(b, s, j, l)
    ensures Inv(b, CheckStep(b, s, j, l))
  {
    Rely(b, s, j);
    hide *;
    CheckSettles(b, s, j, l);
    Settle(b, s, CheckStep(b, s, j, l), j);
  }

  lemma RejectedCell(b: BlockSpec, c: Cell, m: Memory, g: Journal, j: TxId)
    requires j < |b.txs| && CellGood(b, c, m, g, j) && c.phase.Scanning?
    ensures
      var c' := c.(phase := Marking(LastWrites(c)));
      CellGood(b, c', m, g, j) && Vouched(c') == Vouched(c)
  {
    hide Explained, Next;
  }

  lemma AcceptedCell(b: BlockSpec, c: Cell, m: Memory, g: Journal, j: TxId)
    requires j < |b.txs| && CellGood(b, c, m, g, j) && c.phase.Scanning?
    ensures
      var c' := c.(status := Unconfirmed, phase := Free);
      CellGood(b, c', m, g, j) && Vouched(c') == Vouched(c)
  {
    hide RunOk, LiveEntries;
  }

  /** A scan that found no conflict leaves a validation that is accepted at its own timestamp. */
  lemma EndScanScan(b: BlockSpec, s: State, j: TxId)
    requires Wellformed(b, s) && j < |b.txs| && ScanOk(s, j) && CanEndScan(b, s, j) && ClockOk(s)
    ensures ScanOk(EndScanStep(b, s, j), j)
  {
    hide Threat, Current, AcceptedOk;
    var p := s.cells[j].phase;
    if !p.conflict {
      AcceptedMore(s, EndScanStep(b, s, j), j, p.stamp, {}, {});
    }
  }

  lemma EndScanSettles(b: BlockSpec, s: State, j: TxId)
    requires Own(b, s, j) && CanEndScan(b, s, j) && ClockOk(s) && Consistent(s)
    ensures OwnStep(b, s, EndScanStep(b, s, j), j)
  {
    hide CellGood, ReadsOk, ScanOk, Threat, Vouched, LastWrites;
    var s' := EndScanStep(b, s, j);
    RejectedCell(b, s.cells[j], s.mem[j], s.journal[j], j);
    AcceptedCell(b, s.cells[j], s.mem[j], s.journal[j], j);
    CheckCell(b, s.cells[j], s.mem[j], s.journal[j], j, History(0), false);
    ScanningIsNoThreat(s.cells[j]);
    SameReads(b, s, s', j);
    CellOnly(b, s, s', j);
    EndScanScan(b, s, j);
  }

  lemma EndScanKeeps(b: BlockSpec, s: State, j: TxId)
    requires Inv(b, s) && CanEndScan(b, s, j)
    ensures Inv(b, EndScanStep(b, s, j))
  {
    Rely(b, s, j);
    hide *;
    EndScanSettles(b, s, j);
    Settle(b, s, EndScanStep(b, s, j), j);
  }

  // ----- a rejected incarnation -----

  lemma MarkCell(b: BlockSpec, c: Cell, m: Memory, g: Journal, j: TxId, l: Location)
    requires j < |b.txs| && CellGood(b, c, m, g, j) && c.phase.Marking? && l in c.phase.todo
    ensures CellGood(b, c.(phase := Marking(c.phase.todo - {l})), Estimated(m, l), g, j)
    ensures History(j) in Estimated(m, l)
  {
    hide Explained;
  }

  lemma MarkSettles(b: BlockSpec, s: State, j: TxId, l: Location)
    requires Own(b, s, j) && CanMark(b, s, j, l) && ClockOk(s) && Consistent(s)
    ensures OwnStep(b, s, MarkStep(b, s, j, l), j)
  {
    var s' := MarkStep(b, s, j, l);
    MarkCell(b, s.cells[j], s.mem[j], s.journal[j], j, l);
    assert s.cells[j].status == Validating;
    hide CellGood, ReadsOk, ScanOk, Quiet, Estimated;
    SameReads(b, s, s', j);
    assert s' == Local(s, j, s'.cells[j], s'.mem[j], s'.journal[j]);
    LocalSettles(b, s, j, s'.cells[j], s'.mem[j], s'.journal[j]);
  }

  lemma MarkKeeps(b: BlockSpec, s: State, j: TxId, l: Location)
    requires Inv(b, s) && CanMark(b, s, j, l)
    ensures Inv(b, MarkStep(b, s, j, l))
  {
    Rely(b, s, j);
    hide *;
    MarkSettles(b, s, j, l);
    Settle(b, s, MarkStep(b, s, j, l), j);
  }

  lemma InvalidateCell(b: BlockSpec, c: Cell, m: Memory, g: Journal, j: TxId)
    requires j < |b.txs| && CellGood(b, c, m, g, j) && c.phase.Marking? && c.phase.todo == {}
    ensures History(j) in m && m[History(j)].incarnation == c.incarnation
    ensures CellGood(b, c.(status := Conflict, phase := RewindPhase(|b.txs|, j + 1)), Estimated(m, History(j)), g, j)
    ensures History(j) in Estimated(m, History(j))
  {
    hide Explained;
  }

  lemma InvalidateSettles(b: BlockSpec, s: State, j: TxId)
    requires Own(b, s, j) && CanInvalidate(b, s, j) && ClockOk(s) && Consistent(s)
    ensures OwnStep(b, s, InvalidateStep(b, s, j), j)
  {
    var s' := InvalidateStep(b, s, j);
    InvalidateCell(b, s.cells[j], s.mem[j], s.journal[j], j);
    hide CellGood, ReadsOk, ScanOk, Quiet, Estimated;
    SameReads(b, s, s', j);
    assert s' == Local(s, j, s'.cells[j], s'.mem[j], s'.journal[j]);
    LocalSettles(b, s, j, s'.cells[j], s'.mem[j], s'.journal[j]);
  }

  lemma InvalidateKeeps(b: BlockSpec, s: State, j: TxId)
    requires Inv(b, s) && CanInvalidate(b, s, j)
    ensures Inv(b, InvalidateStep(b, s, j))
  {
    Rely(b, s, j);
    hide *;
    InvalidateSettles(b, s, j);
    Settle(b, s, InvalidateStep(b, s, j), j);
  }
}
