/** Publication, trimming and recording keep the invariant. */
module ProtocolPublish {
  import opened Types
  import opened Block
  import opened Protocol
  import opened ProtocolInvariant
  import opened ProtocolFrame
  import opened ProtocolSteps

  lemma CompletedCell(b: BlockSpec, c: Cell, m: Memory, g: Journal, j: TxId, a: Action)
    requires j < |b.txs| && CellGood(b, c, m, g, j) && c.phase.Reading?
    requires a == Next(b.txs[j].program, c.phase.at.obs) && !a.Read?
    ensures CellGood(b, c.(phase := Completed(c, a)), m, g, j)
    ensures Vouched(c.(phase := Completed(c, a))) in {Vouched(c), Nothing}
  {
    hide PhaseOk, Next, Explained, Kept;
    CompletedPhase(b, c, m, j, a);
  }

  lemma CompletedPhase(b: BlockSpec, c: Cell, m: Memory, j: TxId, a: Action)
    requires j < |b.txs| && PhaseOk(b, c, m, j) && c.phase.Reading?
    requires a == Next(b.txs[j].program, c.phase.at.obs) && !a.Read?
    ensures c.status == Executing && PhaseOk(b, c.(phase := Completed(c, a)), m, j)
  {
    hide Explained, Next, Kept;
  }

  lemma CompleteSettles(b: BlockSpec, s: State, j: TxId)
    requires Own(b, s, j) && CanComplete(b, s, j) && ClockOk(s) && Consistent(s)
    ensures OwnStep(b, s, CompleteStep(b, s, j), j)
  {
    var c, a := s.cells[j], Wanted(b, s, j);
    CompletedCell(b, c, s.mem[j], s.journal[j], j, a);
    assert c.status == Executing;
    hide CellGood, ReadsOk, ScanOk, Completed, Vouched;
    SameReads(b, s, CompleteStep(b, s, j), j);
    PhaseStep(b, s, j, Completed(c, a));
  }

  lemma CompleteKeeps(b: BlockSpec, s: State, j: TxId)
    requires Inv(b, s) && CanComplete(b, s, j)
    ensures Inv(b, CompleteStep(b, s, j))
  {
    Rely(b, s, j);
    hide *;
    CompleteSettles(b, s, j);
    Settle(b, s, CompleteStep(b, s, j), j);
  }

  // ----- publishing one location -----

  function PublishedCell(c: Cell, l: Location): Cell
    requires c.phase.Publishing?
  {
    c.(phase := Publishing(c.phase.at, c.phase.run, c.phase.todo - {l}))
  }

  lemma PublishPhase(b: BlockSpec, c: Cell, m: Memory, j: TxId, l: Location)
    requires j < |b.txs| && PhaseOk(b, c, m, j) && c.phase.Publishing? && l in c.phase.todo
    requires c.phase.run.Succeeded? && l in c.phase.run.writes
    ensures
      PhaseOk(b, PublishedCell(c, l), m[l := Entry(c.incarnation, c.phase.run.writes[l], c.phase.at.blocked)], j)
  {
    hide RunOk;
    var run, todo := c.phase.run, c.phase.todo;
    assert run.writes.Keys - (todo - {l}) == (run.writes.Keys - todo) + {l};
  }

  /** The incarnation has not published this location before. */
  lemma PublishJournal(b: BlockSpec, c: Cell, m: Memory, g: Journal, j: TxId, l: Location)
    requires j < |b.txs| && PhaseOk(b, c, m, j) && JournalOk(c, m, g) && c.phase.Publishing? && l in c.phase.todo
    requires c.phase.run.Succeeded? && l in c.phase.run.writes
    ensures
      var e := Entry(c.incarnation, c.phase.run.writes[l], c.phase.at.blocked);
      && JournalOk(PublishedCell(c, l), m[l := e], g[(c.incarnation, l) := e.value])
      && Extends(g, g[(c.incarnation, l) := e.value])
  {
    assert (c.incarnation, l) in g ==> PublishedBy(c, l);
    hide PhaseOk;
  }

  lemma PublishCovered(b: BlockSpec, c: Cell, m: Memory, j: TxId, l: Location)
    requires j < |b.txs| && PhaseOk(b, c, m, j) && c.phase.Publishing? && l in c.phase.todo
    requires c.phase.run.Succeeded? && l in c.phase.run.writes
    ensures
      Covered(c, m, PublishedCell(c, l), m[l := Entry(c.incarnation, c.phase.run.writes[l], c.phase.at.blocked)])
  {
    hide RunOk;
    var c', m' := PublishedCell(c, l), m[l := Entry(c.incarnation, c.phase.run.writes[l], c.phase.at.blocked)];
    if !Threat(c', 0) {
      assert l in LastWrites(c);
      assert l in m && m[l].estimate;
      assert Quiet(m, m');
    }
  }

  lemma PublishCell(b: BlockSpec, c: Cell, m: Memory, g: Journal, j: TxId, l: Location)
    requires j < |b.txs| && CellGood(b, c, m, g, j) && c.phase.Publishing? && l in c.phase.todo
    requires c.phase.run.Succeeded? && l in c.phase.run.writes
    ensures
      var e := Entry(c.incarnation, c.phase.run.writes[l], c.phase.at.blocked);
      && CellGood(b, PublishedCell(c, l), m[l := e], g[(c.incarnation, l) := e.value], j)
      && Extends(g, g[(c.incarnation, l) := e.value])
      && Covered(c, m, PublishedCell(c, l), m[l := e])
  {
    hide PhaseOk, JournalOk, Extends, Covered;
    PublishPhase(b, c, m, j, l);
    PublishJournal(b, c, m, g, j, l);
    PublishCovered(b, c, m, j, l);
  }

  lemma PublishSettles(b: BlockSpec, s: State, j: TxId, l: Location)
    requires Own(b, s, j) && CanPublish(b, s, j, l) && ClockOk(s) && Consistent(s)
    ensures OwnStep(b, s, PublishStep(b, s, j, l), j)
  {
    var s' := PublishStep(b, s, j, l);
    PublishCell(b, s.cells[j], s.mem[j], s.journal[j], j, l);
    hide CellGood, ReadsOk, ScanOk, Covered, Extends;
    SameReads(b, s, s', j);
    assert s' == Local(s, j, s'.cells[j], s'.mem[j], s'.journal[j]);
    LocalSettles(b, s, j, s'.cells[j], s'.mem[j], s'.journal[j]);
  }

  lemma PublishKeeps(b: BlockSpec, s: State, j: TxId, l: Location)
    requires Inv(b, s) && CanPublish(b, s, j, l)
    ensures Inv(b, PublishStep(b, s, j, l))
  {
    Rely(b, s, j);
    hide *;
    PublishSettles(b, s, j, l);
    Settle(b, s, PublishStep(b, s, j, l), j);
  }

  // ----- trimming stale locations -----

  lemma EndPublishCell(b: BlockSpec, c: Cell, m: Memory, g: Journal, j: TxId)
    requires j < |b.txs| && CellGood(b, c, m, g, j) && c.phase.Publishing? && c.phase.todo == {}
    requires c.phase.run.Succeeded?
    ensures CellGood(b, c.(phase := Trimming(c.phase.at, c.phase.run, LastWrites(c) - c.phase.run.writes.Keys)), m,
      g, j)
  {
    hide Explained;
    assert c.phase.run.writes.Keys - {} == c.phase.run.writes.Keys;
  }

  lemma EndPublishSettles(b: BlockSpec, s: State, j: TxId)
    requires Own(b, s, j) && CanEndPublish(b, s, j) && ClockOk(s) && Consistent(s)
    ensures OwnStep(b, s, EndPublishStep(b, s, j), j)
  {
    var c := s.cells[j];
    var p := Trimming(c.phase.at, c.phase.run, LastWrites(c) - c.phase.run.writes.Keys);
    EndPublishCell(b, c, s.mem[j], s.journal[j], j);
    assert c.status == Executing;
    hide CellGood, ReadsOk, ScanOk;
    SameReads(b, s, EndPublishStep(b, s, j), j);
    PhaseStep(b, s, j, p);
  }

  lemma EndPublishKeeps(b: BlockSpec, s: State, j: TxId)
    requires Inv(b, s) && CanEndPublish(b, s, j)
    ensures Inv(b, EndPublishStep(b, s, j))
  {
    Rely(b, s, j);
    hide *;
    EndPublishSettles(b, s, j);
    Settle(b, s, EndPublishStep(b, s, j), j);
  }

  lemma TrimCell(b: BlockSpec, c: Cell, m: Memory, g: Journal, j: TxId, l: Location)
    requires j < |b.txs| && CellGood(b, c, m, g, j) && c.phase.Trimming? && l in c.phase.todo && History(j) in m
    ensures
      var c' := c.(phase := Trimming(c.phase.at, c.phase.run, c.phase.todo - {l}));
      && CellGood(b, c', m - {l}, g, j)
      && l != History(j)
      && Covered(c, m, c', m - {l})
  {
    hide Explained;
    assert l in m && m[l].estimate;
    assert Quiet(m, m - {l});
  }

  lemma TrimSettles(b: BlockSpec, s: State, j: TxId, l: Location)
    requires Own(b, s, j) && CanTrim(b, s, j, l) && ClockOk(s) && Consistent(s)
    ensures OwnStep(b, s, TrimStep(b, s, j, l), j)
  {
    var s' := TrimStep(b, s, j, l);
    TrimCell(b, s.cells[j], s.mem[j], s.journal[j], j, l);
    assert s.cells[j].status == Executing;
    hide CellGood, ReadsOk, ScanOk, Covered;
    SameReads(b, s, s', j);
    assert s' == Local(s, j, s'.cells[j], s'.mem[j], s'.journal[j]);
    LocalSettles(b, s, j, s'.cells[j], s'.mem[j], s'.journal[j]);
  }

  lemma TrimKeeps(b: BlockSpec, s: State, j: TxId, l: Location)
    requires Inv(b, s) && CanTrim(b, s, j, l)
    ensures Inv(b, TrimStep(b, s, j, l))
  {
    Rely(b, s, j);
    hide *;
    TrimSettles(b, s, j, l);
    Settle(b, s, TrimStep(b, s, j, l), j);
  }

  // ----- recording a finished run -----

  /** The history entry of a running incarnation is older: its publication is never stale. */
  lemma HistoryOlder(b: BlockSpec, c: Cell, m: Memory, g: Journal, j: TxId)
    requires j < |b.txs| && CellGood(b, c, m, g, j) && History(j) in m
    requires c.status == Executing && !c.phase.Free? && !c.phase.Noting? && !c.phase.Dropping?
    ensures m[History(j)].incarnation < c.incarnation
    ensures m[History(j)].estimate
    ensures (c.incarnation, History(j)) !in g
  {
  }

  function RecordedEntry(c: Cell): Entry
    requires c.phase.Trimming? && c.phase.run.Succeeded?
  {
    Entry(c.incarnation, EffectValue(c.phase.run.effect), c.phase.at.blocked)
  }

  function RecordedCell(c: Cell): Cell
    requires c.phase.Trimming?
  {
    c.(phase := Noting(c.phase.at, c.phase.run))
  }

  /** An incarnation whose memory is complete shows exactly its writes. */
  lemma MemoryIsLive(b: BlockSpec, c: Cell, m: Memory, j: TxId)
    requires j < |b.txs| && PhaseOk(b, c, m, j) && History(j) in m
    requires c.phase.Trimming? && c.phase.todo == {} && c.phase.run.Succeeded? && !c.phase.at.blocked
    ensures m[History(j) := RecordedEntry(c)] == LiveEntries(j, c.incarnation, c.phase.run)
  {
    hide RunOk;
    var run := c.phase.run;
    var m' := m[History(j) := RecordedEntry(c)];
    var live := LiveEntries(j, c.incarnation, run);
    assert m'.Keys == live.Keys;
    forall l <- m' ensures m'[l] == live[l] {
    }
  }

  lemma RecordPhase(b: BlockSpec, c: Cell, m: Memory, j: TxId)
    requires j < |b.txs| && PhaseOk(b, c, m, j) && History(j) in m
    requires c.phase.Trimming? && c.phase.todo == {} && c.phase.run.Succeeded?
    ensures PhaseOk(b, RecordedCell(c), m[History(j) := RecordedEntry(c)], j)
  {
    hide RunOk, LiveEntries;
    if !c.phase.at.blocked {
      MemoryIsLive(b, c, m, j);
    }
  }

  lemma RecordJournal(b: BlockSpec, c: Cell, m: Memory, g: Journal, j: TxId)
    requires j < |b.txs| && CellGood(b, c, m, g, j) && History(j) in m
    requires c.phase.Trimming? && c.phase.run.Succeeded?
    ensures
      var e := RecordedEntry(c);
      && JournalOk(RecordedCell(c), m[History(j) := e], g[(c.incarnation, History(j)) := e.value])
      && Extends(g, g[(c.incarnation, History(j)) := e.value])
  {
    HistoryOlder(b, c, m, g, j);
    hide PhaseOk;
  }

  lemma RecordCell(b: BlockSpec, c: Cell, m: Memory, g: Journal, j: TxId)
    requires j < |b.txs| && CellGood(b, c, m, g, j) && History(j) in m
    requires c.phase.Trimming? && c.phase.todo == {} && c.phase.run.Succeeded?
    ensures
      var e := RecordedEntry(c);
      && CellGood(b, RecordedCell(c), m[History(j) := e], g[(c.incarnation, History(j)) := e.value], j)
      && Extends(g, g[(c.incarnation, History(j)) := e.value])
  {
    hide PhaseOk, JournalOk, Extends, RecordedEntry;
    RecordPhase(b, c, m, j);
    RecordJournal(b, c, m, g, j);
  }

  lemma RecordCovered(b: BlockSpec, c: Cell, m: Memory, g: Journal, j: TxId, e: Entry)
    requires j < |b.txs| && CellGood(b, c, m, g, j) && History(j) in m
    requires c.phase.Trimming? && c.phase.run.Succeeded?
    ensures Covered(c, m, RecordedCell(c), m[History(j) := e])
  {
    HistoryOlder(b, c, m, g, j);
    hide CellGood, WritesNew;
  }

  lemma RecordSettles(b: BlockSpec, s: State, j: TxId)
    requires Own(b, s, j) && CanRecord(b, s, j) && ClockOk(s) && Consistent(s)
    ensures OwnStep(b, s, RecordStep(b, s, j), j)
  {
    var c, m, g := s.cells[j], s.mem[j], s.journal[j];
    var e := RecordedEntry(c);
    RecordCell(b, c, m, g, j);
    RecordCovered(b, c, m, g, j, e);
    HistoryOlder(b, c, m, g, j);
    assert RecordStep(b, s, j)
      == Local(s, j, RecordedCell(c), m[History(j) := e], g[(c.incarnation, History(j)) := e.value]);
    hide CellGood, ReadsOk, ScanOk, Covered, Extends, RecordStep, RecordedEntry;
    SameReads(b, s, RecordStep(b, s, j), j);
    LocalSettles(b, s, j, RecordedCell(c), m[History(j) := e], g[(c.incarnation, History(j)) := e.value]);
  }

  lemma RecordKeeps(b: BlockSpec, s: State, j: TxId)
    requires Inv(b, s) && CanRecord(b, s, j)
    ensures Inv(b, RecordStep(b, s, j))
  {
    Rely(b, s, j);
    hide *;
    RecordSettles(b, s, j);
    Settle(b, s, RecordStep(b, s, j), j);
  }

  // ----- concluding it -----

  lemma ConcludePhase(b: BlockSpec, c: Cell, m: Memory, j: TxId, handoff: bool)
    requires j < |b.txs| && PhaseOk(b, c, m, j) && c.phase.Noting? && c.phase.run.Succeeded?
    ensures PhaseOk(b, Recorded(|b.txs|, c, j, handoff), m, j)
  {
    hide RunOk, LiveEntries, WritesNew;
  }

  /** What a success writes never includes a history entry. */
  lemma ConcludeWrites(b: BlockSpec, c: Cell, m: Memory, j: TxId, handoff: bool)
    requires j < |b.txs| && PhaseOk(b, c, m, j) && c.phase.Noting? && c.phase.run.Succeeded?
    ensures forall l <- LastWrites(Recorded(|b.txs|, c, j, handoff)) :: !l.History?
  {
    hide Explained, RewindPhase, WritesNew, Noted;
  }

  lemma ConcludeCell(b: BlockSpec, c: Cell, m: Memory, g: Journal, j: TxId, handoff: bool)
    requires j < |b.txs| && CellGood(b, c, m, g, j) && c.phase.Noting? && c.phase.run.Succeeded?
    ensures CellGood(b, Recorded(|b.txs|, c, j, handoff), m, g, j)
  {
    ConcludePhase(b, c, m, j, handoff);
    ConcludeWrites(b, c, m, j, handoff);
    hide PhaseOk, WritesNew, RewindPhase;
  }

  lemma ConcludeCovered(b: BlockSpec, c: Cell, m: Memory, j: TxId, handoff: bool)
    requires j + 1 < |b.txs| && c.phase.Noting? && c.phase.run.Succeeded?
    ensures Covered(c, m, Recorded(|b.txs|, c, j, handoff), m)
  {
  }

  /** The state after concluding, before the transaction is handed to its own validation. */
  function ConcludedState(b: BlockSpec, s: State, j: TxId, handoff: bool): State
    requires Wellformed(b, s) && CanConclude(b, s, j)
  {
    WithCell(s, j, Recorded(|b.txs|, s.cells[j], j, handoff))
  }

  lemma ConcludeSettles(b: BlockSpec, s: State, j: TxId, handoff: bool)
    requires Own(b, s, j) && CanConclude(b, s, j) && ClockOk(s) && Consistent(s)
    ensures OwnStep(b, s, ConcludedState(b, s, j, handoff), j)
  {
    var c, m, g := s.cells[j], s.mem[j], s.journal[j];
    var s' := ConcludedState(b, s, j, handoff);
    ConcludeCell(b, c, m, g, j, handoff);
    if j + 1 < |b.txs| {
      ConcludeCovered(b, c, m, j, handoff);
    }
    assert s' == Local(s, j, s'.cells[j], m, g) && Extends(g, g);
    ConcludeVouches(b, c, j, handoff);
    hide CellGood, ReadsOk, ScanOk, Covered, Extends, WritesNew, Vouched, Recorded;
    SameReads(b, s, s', j);
    ConcludedForm(b, c, j, handoff);
    LocalSettles(b, s, j, s'.cells[j], m, g);
  }

  lemma ConcludeVouches(b: BlockSpec, c: Cell, j: TxId, handoff: bool)
    requires c.phase.Noting? && c.phase.run.Succeeded?
    ensures Vouched(Recorded(|b.txs|, c, j, handoff)) in {Vouched(c), Nothing}
  {
    hide WritesNew;
  }

  lemma ConcludedForm(b: BlockSpec, c: Cell, j: TxId, handoff: bool)
    requires c.phase.Noting? && c.phase.run.Succeeded?
    ensures
      var c' := Recorded(|b.txs|, c, j, handoff);
      !c'.phase.Scanning? && !c'.phase.Lowering? && c'.status !in {Finality, Unconfirmed}
  {
    hide WritesNew;
  }

  lemma ConcludedTask(b: BlockSpec, s: State, j: TxId, handoff: bool)
    requires Own(b, s, j) && CanConclude(b, s, j) && TasksOk(s)
    requires TasksOk(ConcludedState(b, s, j, handoff)) && Consistent(ConcludedState(b, s, j, handoff))
    ensures
      var s1, s' := ConcludedState(b, s, j, handoff), ConcludeStep(b, s, j, handoff);
      s' == s1.(tasks := s'.tasks, abort := s'.abort) && TasksOk(s') && Consistent(s')
  {
    var s1, s' := ConcludedState(b, s, j, handoff), ConcludeStep(b, s, j, handoff);
    hide CellGood, WritesNew;
    NoTask(s, j);
    if s'.cells[j].status == Validating {
      TasksKept(s, s', j);
    }
  }

  lemma ConcludeKeeps(b: BlockSpec, s: State, j: TxId, handoff: bool)
    requires Inv(b, s) && CanConclude(b, s, j)
    ensures Inv(b, ConcludeStep(b, s, j, handoff))
  {
    Rely(b, s, j);
    ConcludeSettles(b, s, j, handoff);
    Settle(b, s, ConcludedState(b, s, j, handoff), j);
    hide *;
    ConcludedTask(b, s, j, handoff);
    Reframe(b, ConcludedState(b, s, j, handoff), ConcludeStep(b, s, j, handoff));
  }

  // ----- a failed run -----

  lemma MarkFailedSettles(b: BlockSpec, s: State, j: TxId, l: Location)
    requires Own(b, s, j) && CanMarkFailed(b, s, j, l) && ClockOk(s) && Consistent(s)
    ensures OwnStep(b, s, MarkFailedStep(b, s, j, l), j)
  {
    var c, m := s.cells[j], s.mem[j];
    var p := Failing(c.phase.error, c.phase.blocked, c.phase.todo - {l});
    assert Estimated(m, l) == m;
    assert CellGood(b, c.(phase := p), m, s.journal[j], j);
    assert c.status == Executing;
    hide CellGood, ReadsOk, ScanOk;
    assert MarkFailedStep(b, s, j, l) == WithPhase(s, j, p);
    SameReads(b, s, WithPhase(s, j, p), j);
    PhaseStep(b, s, j, p);
  }

  lemma MarkFailedKeeps(b: BlockSpec, s: State, j: TxId, l: Location)
    requires Inv(b, s) && CanMarkFailed(b, s, j, l)
    ensures Inv(b, MarkFailedStep(b, s, j, l))
  {
    Rely(b, s, j);
    hide *;
    MarkFailedSettles(b, s, j, l);
    Settle(b, s, MarkFailedStep(b, s, j, l), j);
  }

  function Discarded(c: Cell): Cell
    requires c.phase.Failing?
  {
    var result := Some(TxResult(map[], map[], map[], LastWrites(c), Failed(c.phase.error)));
    c.(result := result, phase := Dropping(c.phase.blocked))
  }

  lemma DiscardCell(b: BlockSpec, c: Cell, m: Memory, g: Journal, j: TxId, e: Entry)
    requires j < |b.txs| && CellGood(b, c, m, g, j) && c.phase.Failing? && History(j) in m
    requires e == Entry(c.incarnation, EffectValue(Unchanged), true)
    ensures CellGood(b, Discarded(c), m[History(j) := e], g[(c.incarnation, History(j)) := e.value], j)
    ensures Extends(g, g[(c.incarnation, History(j)) := e.value])
    ensures Covered(c, m, Discarded(c), m[History(j) := e])
  {
    HistoryOlder(b, c, m, g, j);
    hide Explained;
    assert Quiet(m, m[History(j) := e]);
  }

  function DiscardedState(b: BlockSpec, s: State, j: TxId): State
    requires Wellformed(b, s) && CanDiscard(b, s, j)
  {
    var c := s.cells[j];
    var e := Entry(c.incarnation, EffectValue(Unchanged), true);
    Local(s, j, Discarded(c), s.mem[j][History(j) := e],
      s.journal[j][(c.incarnation, History(j)) := e.value])
  }

  lemma DiscardSettles(b: BlockSpec, s: State, j: TxId)
    requires Own(b, s, j) && CanDiscard(b, s, j) && ClockOk(s) && Consistent(s)
    ensures OwnStep(b, s, DiscardedState(b, s, j), j)
  {
    var c, m, g := s.cells[j], s.mem[j], s.journal[j];
    var s' := DiscardedState(b, s, j);
    DiscardCell(b, c, m, g, j, Entry(c.incarnation, EffectValue(Unchanged), true));
    hide CellGood, ReadsOk, ScanOk, Covered, Extends;
    SameReads(b, s, s', j);
    LocalSettles(b, s, j, s'.cells[j], s'.mem[j], s'.journal[j]);
  }

  lemma DiscardAborts(b: BlockSpec, s: State, j: TxId)
    requires Own(b, s, j) && CanDiscard(b, s, j)
    requires TasksOk(DiscardedState(b, s, j)) && Consistent(DiscardedState(b, s, j))
    ensures
      var s1, s' := DiscardedState(b, s, j), DiscardStep(b, s, j);
      s' == s1.(tasks := s'.tasks, abort := s'.abort) && TasksOk(s') && Consistent(s')
  {
    HistoryOlder(b, s.cells[j], s.mem[j], s.journal[j], j);
    hide CellGood;
    assert forall t <- DiscardStep(b, s, j).tasks :: TaskOk(DiscardedState(b, s, j), t);
  }

  lemma DiscardKeeps(b: BlockSpec, s: State, j: TxId)
    requires Inv(b, s) && CanDiscard(b, s, j)
    ensures Inv(b, DiscardStep(b, s, j))
  {
    Rely(b, s, j);
    DiscardSettles(b, s, j);
    Settle(b, s, DiscardedState(b, s, j), j);
    hide *;
    DiscardAborts(b, s, j);
    Reframe(b, DiscardedState(b, s, j), DiscardStep(b, s, j));
  }

  lemma DropSettles(b: BlockSpec, s: State, j: TxId)
    requires Own(b, s, j) && CanDrop(b, s, j) && ClockOk(s) && Consistent(s)
    ensures OwnStep(b, s, DropStep(b, s, j), j)
  {
    var c, m, g := s.cells[j], s.mem[j], s.journal[j];
    var s' := DropStep(b, s, j);
    assert CellGood(b, s'.cells[j], m, g, j);
    assert Covered(c, m, s'.cells[j], m) && Extends(g, g);
    assert s' == Local(s, j, s'.cells[j], m, g);
    hide CellGood, ReadsOk, ScanOk, Covered, Extends;
    SameReads(b, s, s', j);
    LocalSettles(b, s, j, s'.cells[j], m, g);
  }

  lemma DropKeeps(b: BlockSpec, s: State, j: TxId)
    requires Inv(b, s) && CanDrop(b, s, j)
    ensures Inv(b, DropStep(b, s, j))
  {
    Rely(b, s, j);
    hide *;
    DropSettles(b, s, j);
    Settle(b, s, DropStep(b, s, j), j);
  }
}
