/**
 * A fatal error need not be real. An execution that began before its predecessors were final may fail
 * on what it read, arrive at the commit head while it is failing, and stop the block with an error
 * that sequential execution does not meet.
 */
module FatalRun {
  import opened Types
  import opened Block
  import opened Protocol
  import opened ProtocolInvariant
  import opened Reachability

  const X := Basic(0)
  const LOOK := Probe(X, 0)
  const ABSENT := AccountValue(None)
  const WRITES := map[X := AccountValue(Some(EMPTY_INFO))]

  /** The first transaction creates an account. */
  function Creates(): Program {
    Program(0, obs => Finish(WRITES, Unchanged, 0))
  }

  /** The second one fails unless it finds it. */
  function NeedsIt(): Program {
    Program(1, obs =>
      if LOOK !in obs then Read(LOOK)
      else if obs[LOOK] == ABSENT then Fail(FatalError(7))
      else Finish(map[], Unchanged, 0))
  }

  function Two(): BlockSpec {
    BlockSpec([Transaction(Creates(), overlay => true), Transaction(NeedsIt(), overlay => true)], l => ABSENT)
  }

  /** Run in order, the second transaction succeeds. */
  lemma SecondSucceeds()
    ensures SequentialAction(Two(), 1) == Finish(map[], Unchanged, 0)
  {
    var b := Two();
    assert Run(b, Creates(), SequentialOverlay(b, 0)) == Finish(WRITES, Unchanged, 0);
    var overlay := SequentialOverlay(b, 1);
    assert View(b, overlay, X) == AccountValue(Some(EMPTY_INFO));
    var obs: Observations := map[LOOK := View(b, overlay, X)];
    assert Next(NeedsIt(), obs) == Finish(map[], Unchanged, 0);
    assert RunFrom(b, NeedsIt(), overlay, obs) == Finish(map[], Unchanged, 0);
    assert Next(NeedsIt(), map[]) == Read(LOOK);
    assert RunFrom(b, NeedsIt(), overlay, map[]) == RunFrom(b, NeedsIt(), overlay, map[LOOK := View(b, overlay, X)]);
  }

  function TooEarly(): Attempt {
    Attempt(map[LOOK := ABSENT], map[LOOK := FromStorage], map[X := FromStorage], false)
  }

  /** The second transaction reads, finding nothing. */
  lemma ReadsTooEarly() returns (s: State)
    ensures Reaches(Two(), s) && Wellformed(Two(), s)
    ensures s.cells == [Cell(Initial, 0, None, Free), Cell(Executing, 1, None, Reading(TooEarly()))]
    ensures s.finality == 0 == s.lowerTs && s.clock > 0 && s.abort.None? && s.tasks == multiset{}
    ensures s.ledger == Ledger(0, {}, None, false, false, map[], [])
  {
    var b := Two();
    var s0 := Init(b);
    assert s0.cells == [Cell(Initial, 0, None, Free), Cell(Initial, 0, None, Free)];
    hide Reaches;
    Start(b);
    var s1 := Begins(b, s0, 1);
    assert Next(NeedsIt(), map[]) == Read(LOOK);
    FindsNothing(b, s1, X, 1);
    s := Fetches(b, s1, 1, LOOK);
  }

  /** Meanwhile the first transaction is executed, becomes final and is committed. */
  lemma FirstCommits(s: State) returns (s': State)
    requires Reaches(Two(), s) && Wellformed(Two(), s) && s.cells[0] == Cell(Initial, 0, None, Free)
    requires s.finality == 0 == s.lowerTs && s.clock > 0
    requires s.ledger == Ledger(0, {}, None, false, false, map[], [])
    ensures Reaches(Two(), s') && Wellformed(Two(), s') && s'.cells[1] == s.cells[1] && s'.abort == s.abort
    ensures s'.ledger.committed == 1 == s'.finality && s'.cells[0].result.Some? && Steady(s'.cells[0].result.value)
  {
    hide Reaches;
    var b := Two();
    var s1 := Begins(b, s, 0);
    assert Next(Creates(), map[]) == Finish(WRITES, Unchanged, 0);
    var s2 := Executes(b, s1, 0);
    var s3 := BecomesFinal(b, s2);
    s' := CommitsNext(b, s3);
  }

  /** At the commit head by now, the second transaction fails on what it read. */
  lemma SecondFails(s: State) returns (s': State)
    requires Reaches(Two(), s) && Wellformed(Two(), s) && s.ledger.committed == 1 && s.abort.None?
    requires s.cells[1] == Cell(Executing, 1, None, Reading(TooEarly()))
    ensures Reaches(Two(), s') && |s'.cells| == |s.cells| && s'.cells == s.cells[1 := s'.cells[1]]
    ensures s'.ledger == s.ledger
    ensures s'.abort == Some(FatalEvmError(1))
    ensures s'.cells[1].result == Some(TxResult(map[], map[], map[], {}, Failed(FatalError(7))))
  {
    hide Reaches;
    var b := Two();
    assert Next(NeedsIt(), s.cells[1].phase.at.obs) == Fail(FatalError(7));
    hide Inv, Next;
    s' := Fails(b, s, 1, FatalError(7));
  }

  /**
   * There is a block and a run of it that stops with a fatal error of a transaction that, executed
   * after the ones before it, succeeds. Everything the run has committed is sequential.
   */
  lemma FatalErrorMayBeUnreal() returns (b: BlockSpec, s: State)
    ensures Reaches(b, s) && |b.txs| == |s.cells| == 2 && s.ledger.committed == 1
    ensures s.abort == Some(FatalEvmError(1)) && s.cells[0].result.Some? && Steady(s.cells[0].result.value)
    ensures s.cells[1].result.Some? && s.cells[1].result.value.execution == Failed(FatalError(7))
    ensures SequentialAction(b, 1).Finish?
  {
    hide Reaches, Steady, SequentialAction;
    b := Two();
    SecondSucceeds();
    var s1 := ReadsTooEarly();
    var s2 := FirstCommits(s1);
    s := SecondFails(s2);
  }
}
