/**
 * Validation does not see every lookup. The reset of an account is looked up again for each slot, and
 * the read set keeps the last version only. A transaction that loads one slot while a rejected
 * incarnation shows a reset, and another one after that reset is gone, has a read set that is valid
 * and a result that sequential execution does not give.
 */
module UnsteadyRun {
  import opened Types
  import opened Block
  import opened Evm
  import opened Protocol
  import opened ProtocolInvariant
  import opened Reachability

  const FLAG := Basic(0)
  const RESET := StorageReset(1)
  const ABSENT := AccountValue(None)
  const PRESENT := AccountValue(Some(EMPTY_INFO))
  const CLEAR := ResetValue(None)
  const FIVE := SlotValue(None, 5)

  /** Account 0 does not exist yet; account 1 does, and holds a five in every slot. */
  function Base(l: Location): Value {
    match l
    case Basic(a) => if a == 0 then ABSENT else PRESENT
    case Code(_) => CodeValue(None)
    case Storage(_, _) => FIVE
    case StorageReset(_) => CLEAR
    case History(_) => EffectValue(Unchanged)
  }

  /** The first transaction creates account 0. */
  function Creates(): Program {
    Program(0, obs => Finish(map[FLAG := PRESENT], Unchanged, 0))
  }

  /** The second one destroys account 1 unless account 0 exists. */
  function Destroys(): Program {
    Program(1, obs =>
      if Once(FLAG) !in obs then Read(Once(FLAG))
      else if obs[Once(FLAG)] == ABSENT then Finish(Destruction(), Unchanged, 0)
      else Finish(map[], Unchanged, 0))
  }

  function Destruction(): map<Location, Value> {
    map[Basic(1) := ABSENT, RESET := ResetValue(Some(1))]
  }

  /** The third one loads two slots of account 1 and returns the first. */
  function Loads(): Program {
    Program(5, obs =>
      if Once(Basic(1)) !in obs then Read(Once(Basic(1)))
      else if ResetFor(1, 0) !in obs then Read(ResetFor(1, 0))
      else if Once(Storage(1, 0)) !in obs then Read(Once(Storage(1, 0)))
      else if ResetFor(1, 1) !in obs then Read(ResetFor(1, 1))
      else if Once(Storage(1, 1)) !in obs then Read(Once(Storage(1, 1)))
      else Finish(map[], Unchanged, SlotIn(obs, 1, 0)))
  }

  function Three(): BlockSpec {
    BlockSpec([
      Transaction(Creates(), overlay => true),
      Transaction(Destroys(), overlay => true),
      Transaction(Loads(), overlay => true)], Base)
  }

  // ----- in order -----

  lemma LoadsFive(overlay: Overlay)
    requires RESET !in overlay && Storage(1, 0) !in overlay
    ensures Run(Three(), Loads(), overlay) == Finish(map[], Unchanged, 5)
  {
    var b, p := Three(), Loads();
    var o0: Observations := map[];
    var o1 := o0[Once(Basic(1)) := View(b, overlay, Basic(1))];
    var o2 := o1[ResetFor(1, 0) := View(b, overlay, RESET)];
    var o3 := o2[Once(Storage(1, 0)) := View(b, overlay, Storage(1, 0))];
    var o4 := o3[ResetFor(1, 1) := View(b, overlay, RESET)];
    var o5 := o4[Once(Storage(1, 1)) := View(b, overlay, Storage(1, 1))];
    assert Next(p, o0) == Read(Once(Basic(1))) && Next(p, o1) == Read(ResetFor(1, 0));
    assert Next(p, o2) == Read(Once(Storage(1, 0))) && Next(p, o3) == Read(ResetFor(1, 1));
    assert Next(p, o4) == Read(Once(Storage(1, 1)));
    assert Next(p, o5) == Finish(map[], Unchanged, 5);
    hide Next, View;
    assert RunFrom(b, p, overlay, o4) == RunFrom(b, p, overlay, o5) == Finish(map[], Unchanged, 5);
    assert RunFrom(b, p, overlay, o2) == RunFrom(b, p, overlay, o3) == RunFrom(b, p, overlay, o4);
    assert RunFrom(b, p, overlay, o0) == RunFrom(b, p, overlay, o1) == RunFrom(b, p, overlay, o2);
  }

  lemma FirstCreates()
    ensures SequentialOverlay(Three(), 1) == AllWrites(0, map[FLAG := PRESENT], Unchanged)
  {
    var b := Three();
    assert Run(b, Creates(), map[]) == Finish(map[FLAG := PRESENT], Unchanged, 0);
    assert SequentialOverlay(b, 0) == map[];
  }

  lemma SecondSpares(overlay: Overlay)
    requires View(Three(), overlay, FLAG) == PRESENT
    ensures Run(Three(), Destroys(), overlay) == Finish(map[], Unchanged, 0)
  {
    DestroysNext();
    hide Next, View, Three;
    assert RunFrom(Three(), Destroys(), overlay, map[Once(FLAG) := PRESENT]) == Finish(map[], Unchanged, 0);
  }

  lemma DestroysNext()
    ensures
      var p := Destroys();
      && Next(p, map[]) == Read(Once(FLAG))
      && Next(p, map[Once(FLAG) := ABSENT]) == Finish(Destruction(), Unchanged, 0)
      && Next(p, map[Once(FLAG) := PRESENT]) == Finish(map[], Unchanged, 0)
  {
  }

  /** Run in order, the second transaction destroys nothing and the third returns five. */
  lemma ThirdReturnsFive()
    ensures |Three().txs| == 3 && SequentialAction(Three(), 2) == Finish(map[], Unchanged, 5)
  {
    hide Run;
    var b := Three();
    FirstCreates();
    var overlay := SequentialOverlay(b, 1);
    SecondSpares(overlay);
    assert SequentialOverlay(b, 2) == overlay + AllWrites(1, map[], Unchanged);
    LoadsFive(SequentialOverlay(b, 2));
  }

  // ----- the run -----

  /** What the third transaction has found after one, three and five lookups. */
  function At1(): Attempt {
    Attempt(map[Once(Basic(1)) := PRESENT], map[Once(Basic(1)) := FromStorage], map[Basic(1) := FromStorage], false)
  }

  /** The attempt after one more lookup. */
  function After(at: Attempt, q: Probe, v: Version, value: Value): Attempt {
    Resolved(at, q, v).(obs := at.obs[q := value])
  }

  function At2(): Attempt {
    After(At1(), ResetFor(1, 0), FromTx(1, 1), ResetValue(Some(1)))
  }

  function At3(): Attempt {
    After(At2(), Once(Storage(1, 0)), FromStorage, FIVE)
  }

  function At4(): Attempt {
    After(At3(), ResetFor(1, 1), FromStorage, CLEAR)
  }

  function At5(): Attempt {
    After(At4(), Once(Storage(1, 1)), FromStorage, FIVE)
  }

  function Reader(at: Attempt): Cell {
    Cell(Executing, 1, None, Reading(at))
  }

  const FRESH := Cell(Initial, 0, None, Free)

  /** Nothing is final or committed yet. */
  ghost predicate Early(s: State) {
    && Reaches(Three(), s) && Wellformed(Three(), s) && |s.cells| == 3
    && s.finality == 0 == s.lowerTs && s.clock > 0 && s.abort.None?
    && s.ledger == Ledger(0, {}, None, false, false, map[], [])
  }

  lemma Wants(s: State, j: TxId, a: Action)
    requires Wellformed(Three(), s) && j < 3 && s.cells[j].phase.Reading?
    requires Next(Three().txs[j].program, s.cells[j].phase.at.obs) == a
    ensures Wanted(Three(), s, j) == a
  {
    hide Next;
  }

  lemma LoadsNext()
    ensures
      var p := Three().txs[2].program;
      && Next(p, map[]) == Read(Once(Basic(1)))
      && Next(p, At1().obs) == Read(ResetFor(1, 0))
      && Next(p, At2().obs) == Read(Once(Storage(1, 0)))
      && Next(p, At3().obs) == Read(ResetFor(1, 1))
      && Next(p, At4().obs) == Read(Once(Storage(1, 1)))
      && Next(p, At5().obs) == Finish(map[], Unchanged, 0)
    ensures !At5().blocked
  {
  }

  lemma Beginning()
    ensures Early(Init(Three())) && Init(Three()).cells == [FRESH, FRESH, FRESH]
  {
    var s := Init(Three());
    assert s.cells == [FRESH, FRESH, FRESH];
    Start(Three());
    hide Reaches;
  }

  /** With nothing committed, committed state is the state at the start. */
  lemma StartShows(l: Location)
    ensures |Three().txs| == 3 && View(Three(), map[], l) == Base(l)
  {
  }

  /** One lookup that finds nothing, in a block of which nothing is committed. */
  lemma LooksUp(s: State, j: TxId, q: Probe) returns (s': State)
    requires Early(s) && j < 3 && s.cells[j].phase.Reading? && Unwritten(s, q.location, 0, j)
    requires |Three().txs| == 3 && Next(Three().txs[j].program, s.cells[j].phase.at.obs) == Read(q)
    ensures Early(s')
    ensures
      var at := s.cells[j].phase.at;
      s'.cells == s.cells[j := s.cells[j].(phase := Reading(After(at, q, FromStorage, Base(q.location))))]
  {
    hide Reaches, Next, Wanted, Latest, Inv, Unwritten, Three, View, Base;
    Wants(s, j, Read(q));
    FindsNothing(Three(), s, q.location, j);
    StartShows(q.location);
    s' := Fetches(Three(), s, j, q);
  }

  lemma StartsToRun(s: State, j: TxId) returns (s': State)
    requires Early(s) && j < 3 && s.cells[j].phase.Free? && s.cells[j].status in {Initial, Conflict}
    ensures Early(s')
    ensures
      var c := s.cells[j];
      s'.cells == s.cells[j :=
        Cell(Executing, c.incarnation + 1, c.result, Reading(Attempt(map[], map[], map[], false)))]
  {
    hide Reaches, Inv, Three;
    s' := Begins(Three(), s, j);
  }

  lemma RunsToEnd(s: State, j: TxId, run: Execution) returns (s': State)
    requires Early(s) && j < 3 && s.cells[j].phase.Reading? && !s.cells[j].phase.at.blocked && run.Succeeded?
    requires |Three().txs| == 3
    requires Next(Three().txs[j].program, s.cells[j].phase.at.obs) == Finish(run.writes, run.effect, run.receipt)
    ensures Early(s')
    ensures
      var c := s.cells[j];
      s'.cells == s.cells[j := Cell(Executed, c.incarnation, Some(ResultOf(c.phase.at, run)), Free)]
  {
    hide Reaches, Inv, Next, Wanted, Three;
    Wants(s, j, Finish(run.writes, run.effect, run.receipt));
    s' := Executes(Three(), s, j);
  }

  /** The third transaction finds account 1 in place. */
  lemma FindsAccount() returns (s: State)
    ensures Early(s) && s.cells == [FRESH, FRESH, Reader(At1())]
  {
    hide Early, Next, Three, Init;
    Beginning();
    LoadsNext();
    StartShows(Basic(1));
    var s1 := StartsToRun(Init(Three()), 2);
    s := LooksUp(s1, 2, Once(Basic(1)));
  }

  /** The second transaction once it has run: without account 0 it destroys, with it it does not. */
  function Destroyed(): Cell {
    var at := Attempt(map[Once(FLAG) := ABSENT], map[Once(FLAG) := FromStorage], map[FLAG := FromStorage], false);
    Cell(Executed, 1, Some(ResultOf(at, Succeeded(Destruction(), Unchanged, 0))), Free)
  }

  function Spared(): Cell {
    var at := Attempt(map[Once(FLAG) := PRESENT], map[Once(FLAG) := FromTx(0, 1)], map[FLAG := FromTx(0, 1)], false);
    Cell(Executed, 2, Some(ResultOf(at, Succeeded(map[], Unchanged, 0))), Free)
  }

  function Created(): Cell {
    Cell(Executed, 1, Some(ResultOf(Attempt(map[], map[], map[], false),
      Succeeded(map[FLAG := PRESENT], Unchanged, 0))), Free)
  }

  function Returned(): Cell {
    Cell(Executed, 1, Some(ResultOf(At5(), Succeeded(map[], Unchanged, 0))), Free)
  }

  lemma ProgramsOf()
    ensures |Three().txs| == 3 && Three().txs[0].program == Creates() && Three().txs[1].program == Destroys()
    ensures Next(Creates(), map[]) == Finish(map[FLAG := PRESENT], Unchanged, 0)
  {
  }

  /** The second transaction, not finding account 0, destroys account 1. */
  lemma DestroysTooEarly(s: State) returns (s': State)
    requires Early(s) && s.cells == [FRESH, FRESH, Reader(At1())]
    ensures Early(s') && s'.cells == [FRESH, Destroyed(), Reader(At1())]
  {
    hide Early, Next, Three, Destruction, At1;
    ProgramsOf();
    DestroysNext();
    var s1 := StartsToRun(s, 1);
    var s2 := LooksUp(s1, 1, Once(FLAG));
    s' := RunsToEnd(s2, 1, Succeeded(Destruction(), Unchanged, 0));
  }

  /** The third transaction loads the first slot, which is masked. */
  lemma LoadsMasked(s: State) returns (s': State)
    requires Early(s) && s.cells == [FRESH, Destroyed(), Reader(At1())]
    ensures Early(s') && s'.cells == [FRESH, Destroyed(), Reader(At3())]
  {
    hide Early, Next, Three, At1, At2, After, Destruction;
    LoadsNext();
    ProgramsOf();
    var s1 := FindsReset(s);
    assert Storage(1, 0) !in Destruction() by {
      SparesSlots();
    }
    s' := LooksUp(s1, 2, Once(Storage(1, 0)));
  }

  lemma SparesSlots()
    ensures Storage(1, 0) !in Destruction()
  {
  }

  lemma FindsReset(s: State) returns (s': State)
    requires Early(s) && s.cells == [FRESH, Destroyed(), Reader(At1())]
    ensures Early(s')
    ensures s'.cells == [FRESH, Destroyed(), Reader(At2())]
  {
    hide Reaches, Inv, Next, Wanted, Latest, Three;
    LoadsNext();
    ProgramsOf();
    Wants(s, 2, Read(ResetFor(1, 0)));
    FindsWriter(Three(), s, RESET, 1, 2);
    s' := Finds(Three(), s, 2, ResetFor(1, 0));
  }

  /** Now the first transaction creates account 0, and the second is rejected. */
  lemma IsRejected(s: State) returns (s': State)
    requires Early(s) && s.cells == [FRESH, Destroyed(), Reader(At3())]
    ensures Early(s')
    ensures s'.cells == [Created(), Destroyed().(status := Conflict), Reader(At3())]
  {
    ProgramsOf();
    hide Next, Three, At3, Destruction, Reaches, Inv;
    var s1 := StartsToRun(s, 0);
    var s2 := RunsToEnd(s1, 0, Succeeded(map[FLAG := PRESENT], Unchanged, 0));
    FindsWriter(Three(), s2, FLAG, 0, 1);
    s' := Rejects(Three(), s2, 1, FLAG);
  }

  /** Executed again, it spares account 1 and withdraws the reset. */
  lemma SparesAfterAll(s: State) returns (s': State)
    requires Early(s) && s.cells == [Created(), Destroyed().(status := Conflict), Reader(At3())]
    ensures Early(s') && s'.cells == [Created(), Spared(), Reader(At3())]
  {
    ProgramsOf();
    DestroysNext();
    hide Next, Three, At3, Destruction, Reaches, Inv, Wanted;
    var s1 := StartsToRun(s, 1);
    var s2 := FindsFlag(s1);
    s' := RunsToEnd(s2, 1, Succeeded(map[], Unchanged, 0));
  }

  lemma FindsFlag(s: State) returns (s': State)
    requires Early(s) && s.cells[0] == Created()
    requires s.cells[1].phase == Reading(Attempt(map[], map[], map[], false))
    ensures Early(s')
    ensures s'.cells == s.cells[1 := s.cells[1].(phase := Reading(
      Attempt(map[Once(FLAG) := PRESENT], map[Once(FLAG) := FromTx(0, 1)], map[FLAG := FromTx(0, 1)], false)))]
  {
    ProgramsOf();
    DestroysNext();
    hide Next, Three, Reaches, Inv, Wanted, Latest;
    Wants(s, 1, Read(Once(FLAG)));
    FindsWriter(Three(), s, FLAG, 0, 1);
    s' := Finds(Three(), s, 1, Once(FLAG));
  }

  /** The third transaction loads the second slot, which is not masked, and overwrites what it recorded. */
  lemma LoadsUnmasked(s: State) returns (s': State)
    requires Early(s) && s.cells == [Created(), Spared(), Reader(At3())]
    ensures Early(s') && s'.cells == [Created(), Spared(), Returned()]
  {
    hide Early, Next, Three, At3, At5, After;
    LoadsNext();
    ProgramsOf();
    var s1 := LoadsSecond(s);
    s' := RunsToEnd(s1, 2, Succeeded(map[], Unchanged, 0));
  }

  lemma LoadsSecond(s: State) returns (s': State)
    requires Early(s) && s.cells == [Created(), Spared(), Reader(At3())]
    ensures Early(s') && s'.cells == [Created(), Spared(), Reader(At5())]
  {
    hide Early, Next, Three, At3, After;
    LoadsNext();
    ProgramsOf();
    var s1 := LooksUp(s, 2, ResetFor(1, 1));
    s' := LooksUp(s1, 2, Once(Storage(1, 1)));
  }

  /** All read sets are valid: everything becomes final. */
  lemma AllFinal(s: State) returns (s': State)
    requires Early(s) && s.cells == [Created(), Spared(), Returned()]
    ensures Reaches(Three(), s') && Wellformed(Three(), s') && s'.finality == 3 && s'.ledger == s.ledger
    ensures s'.abort.None?
    ensures |s'.cells| == 3 && forall j :: 0 <= j < 3 ==> s'.cells[j] == s.cells[j].(status := Finality)
  {
    ProgramsOf();
    hide Reaches, Inv, Next, Three, At5, Current;
    var s1 := BecomesFinal(Three(), s);
    SecondIsValid(s1);
    var s2 := BecomesFinal(Three(), s1);
    ThirdIsValid(s2);
    s' := BecomesFinal(Three(), s2);
  }

  lemma SecondIsValid(s: State)
    requires Reaches(Three(), s) && Wellformed(Three(), s) && |Three().txs| == 3
    requires s.cells[0] == Created().(status := Finality)
    ensures Current(s.mem, FLAG, 1, FromTx(0, 1))
  {
    hide Reaches, Three, Latest;
    FindsWriter(Three(), s, FLAG, 0, 1);
  }

  lemma ThirdIsValid(s: State)
    requires Reaches(Three(), s) && Wellformed(Three(), s) && |Three().txs| == 3 && s.finality == 2
    requires s.cells == [Created().(status := Finality), Spared().(status := Finality), Returned()]
    ensures forall l <- At5().versions :: Current(s.mem, l, 2, At5().versions[l])
  {
    hide Reaches, Three, Latest;
    forall l <- At5().versions ensures Current(s.mem, l, 2, At5().versions[l]) {
      FindsNothing(Three(), s, l, 2);
    }
  }

  lemma AllCommitted(s: State) returns (s': State)
    requires Reaches(Three(), s) && Wellformed(Three(), s) && s.finality == 3 && s.abort.None?
    requires s.ledger == Ledger(0, {}, None, false, false, map[], [])
    requires forall j :: 0 <= j < 3 ==>
      && j < |s.cells| && s.cells[j].result.Some? && s.cells[j].result.value.execution.Succeeded?
      && s.cells[j].result.value.execution.receipt == 0
    ensures Reaches(Three(), s') && s'.cells == s.cells && s'.abort.None?
    ensures s'.ledger.committed == 3 && s'.ledger.receipts == [0, 0, 0]
  {
    NoncesFit();
    hide Reaches, Inv, Three, AllWrites;
    var s1 := CommitsNext(Three(), s);
    var s2 := CommitsNext(Three(), s1);
    s' := CommitsNext(Three(), s2);
  }

  lemma NoncesFit()
    ensures |Three().txs| == 3 && forall j, o: Overlay :: 0 <= j < 3 ==> Three().txs[j].nonceMatches(o)
  {
  }

  lemma NotSteady()
    ensures Returned().result.Some? && !Steady(Returned().result.value)
  {
    var r := Returned().result.value;
    assert ResetFor(1, 0) in r.seen && r.seen[ResetFor(1, 0)] == FromTx(1, 1);
    assert r.versions[RESET] == FromStorage;
  }

  lemma Happens() returns (s: State)
    ensures Reaches(Three(), s) && |s.cells| == 3 && s.cells[2].result == Returned().result
    ensures s.ledger.committed == 3 && s.ledger.receipts == [0, 0, 0] && s.abort.None?
  {
    hide Three, Reaches, At1, At3, At5, Wellformed, Destruction;
    var s1 := FindsAccount();
    var s2 := DestroysTooEarly(s1);
    var s3 := LoadsMasked(s2);
    var s4 := IsRejected(s3);
    var s5 := SparesAfterAll(s4);
    var s6 := LoadsUnmasked(s5);
    var s7 := AllFinal(s6);
    s := AllCommitted(s7);
  }

  /**
   * There is a block and a run of it that commits the whole block, with a receipt that sequential
   * execution does not give. Every version in every read set is in force; one result is not steady.
   */
  lemma UnsteadyResultIsCommitted() returns (b: BlockSpec, s: State)
    ensures Reaches(b, s) && |b.txs| == |s.cells| == 3 == s.ledger.committed == |s.ledger.receipts|
    ensures s.abort.None? && s.cells[2].result.Some? && !Steady(s.cells[2].result.value)
    ensures SequentialAction(b, 2).Finish? && s.ledger.receipts[2] != SequentialAction(b, 2).receipt
  {
    hide Three, SequentialAction, Steady, Reaches, Returned;
    b := Three();
    ThirdReturnsFive();
    NotSteady();
    s := Happens();
  }
}
