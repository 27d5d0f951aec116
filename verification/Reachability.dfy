/** Building runs: what one transaction, the finality loop and the commit loop can go on to do. */
module Reachability {
  import opened Types
  import opened Block
  import opened Protocol
  import opened ProtocolInvariant
  import opened ProtocolSteps
  import opened ProtocolPublish
  import opened ProtocolValidate
  import opened Serializability

  /** Some run ends in `s`. */
  ghost predicate Reaches(b: BlockSpec, s: State) {
    exists trace :: |trace| > 0 && IsRun(b, trace) && trace[|trace| - 1] == s
  }

  lemma Start(b: BlockSpec)
    ensures Reaches(b, Init(b))
  {
    assert IsRun(b, [Init(b)]);
  }

  lemma ReachesInv(b: BlockSpec, s: State)
    requires Reaches(b, s)
    ensures Inv(b, s) && Wellformed(b, s)
  {
    var trace :| |trace| > 0 && IsRun(b, trace) && trace[|trace| - 1] == s;
    hide IsRun;
    RunKeeps(b, trace, |trace| - 1);
  }

  lemma Longer(b: BlockSpec, trace: seq<State>, s': State)
    requires |trace| > 0 && IsRun(b, trace) && IsStep(b, trace[|trace| - 1], s')
    ensures IsRun(b, trace + [s'])
  {
    hide IsStep, Init;
    var longer := trace + [s'];
    forall k | 0 <= k < |longer| - 1 ensures IsStep(b, longer[k], longer[k + 1]) {
      assert k < |trace| - 1 ==> IsStep(b, trace[k], trace[k + 1]);
    }
  }

  lemma Go(b: BlockSpec, s: State, step: Step) returns (s': State)
    requires Reaches(b, s) && Wellformed(b, s) && Enabled(b, s, step)
    ensures s' == Apply(b, s, step) && Reaches(b, s') && Inv(b, s') && Wellformed(b, s')
  {
    hide Enabled, Apply, IsRun, Inv, Wellformed;
    s' := Apply(b, s, step);
    var trace :| |trace| > 0 && IsRun(b, trace) && trace[|trace| - 1] == s;
    assert IsStep(b, s, s');
    Longer(b, trace, s');
    assert IsRun(b, trace + [s']) && (trace + [s'])[|trace + [s']| - 1] == s';
    ReachesInv(b, s');
  }

  /** Transaction `j` has moved on to the cell `c`, and everything else is as it was. */
  ghost predicate Moved(s: State, s': State, j: TxId, c: Cell) {
    && j < |s.cells| == |s.mem| == |s'.mem| && s'.cells == s.cells[j := c] && s'.mem == s.mem[j := s'.mem[j]]
    && s'.finality == s.finality && s'.lowerTs == s.lowerTs && s'.ledger == s.ledger && s'.abort == s.abort
    && s'.tasks == s.tasks && s.clock <= s'.clock
  }

  lemma MovedOn(s: State, s': State, s'': State, j: TxId, c: Cell, c': Cell)
    requires Moved(s, s', j, c) && Moved(s', s'', j, c')
    ensures Moved(s, s'', j, c')
  {
  }

  // ----- what memory shows -----

  lemma ShowsWrites(b: BlockSpec, s: State, j: TxId)
    requires Reaches(b, s) && Wellformed(b, s) && j < |b.txs| && (s.cells[j].phase.Free? || s.cells[j].phase.Reading?)
    ensures s.mem[j].Keys == LastWrites(s.cells[j]) + {History(j)}
  {
    ReachesInv(b, s);
    assert CellOk(b, s, j);
    hide Reaches, Inv, RunOk;
  }

  lemma ShowsResult(b: BlockSpec, s: State, j: TxId)
    requires Reaches(b, s) && Wellformed(b, s) && j < |b.txs|
    requires s.cells[j].phase.Free? && s.cells[j].status in {Executed, Finality}
    ensures s.cells[j].result.Some? && s.cells[j].result.value.execution.Succeeded?
    ensures s.mem[j] == LiveEntries(j, s.cells[j].incarnation, s.cells[j].result.value.execution)
  {
    ReachesInv(b, s);
    assert CellOk(b, s, j);
    hide Reaches, Inv, LiveEntries, RunOk;
  }

  /** The transactions from `i` up to `j` have not written `l`, and none of them is publishing. */
  ghost predicate Unwritten(s: State, l: Location, i: TxId, j: TxId) {
    && j <= |s.cells| && !l.History?
    && forall k :: i <= k < j ==>
         (s.cells[k].phase.Free? || s.cells[k].phase.Reading?) && l !in LastWrites(s.cells[k])
  }

  lemma FindsNothing(b: BlockSpec, s: State, l: Location, j: TxId)
    requires Reaches(b, s) && Wellformed(b, s) && Unwritten(s, l, 0, j)
    ensures Latest(s.mem, l, j).None?
  {
    hide Reaches, LastWrites;
    forall k | 0 <= k < j ensures l !in s.mem[k] {
      ShowsWrites(b, s, k);
    }
  }

  lemma FindsWriter(b: BlockSpec, s: State, l: Location, i: TxId, j: TxId)
    requires Reaches(b, s) && Wellformed(b, s) && i < j && Unwritten(s, l, i + 1, j)
    requires s.cells[i].phase.Free? && s.cells[i].status in {Executed, Finality}
    requires s.cells[i].result.Some? && s.cells[i].result.value.execution.Succeeded?
    requires l in s.cells[i].result.value.execution.writes
    ensures Latest(s.mem, l, j) == Some(i)
    ensures s.mem[i][l] == Entry(s.cells[i].incarnation, s.cells[i].result.value.execution.writes[l], false)
  {
    hide Reaches, LastWrites;
    ShowsResult(b, s, i);
    forall k | i < k < j ensures l !in s.mem[k] {
      ShowsWrites(b, s, k);
    }
  }

  // ----- execution -----

  /** A transaction that may be executed begins to. */
  lemma Begins(b: BlockSpec, s: State, j: TxId) returns (s': State)
    requires Reaches(b, s) && Wellformed(b, s) && CanClaimExecution(b, s, j)
    ensures Reaches(b, s') && Wellformed(b, s')
    ensures
      var c := s.cells[j];
      Moved(s, s', j, Cell(Executing, c.incarnation + 1, c.result, Reading(Attempt(map[], map[], map[], false))))
  {
    hide Reaches, Inv;
    var task := Execution(j, s.cells[j].incarnation + 1);
    var s1 := Go(b, s, ClaimExecution(j));
    s' := Go(b, s1, BeginExecution(task));
    assert s1.tasks - multiset{task} == s.tasks;
  }

  /** A lookup finds the newest entry below. */
  lemma Finds(b: BlockSpec, s: State, j: TxId, q: Probe) returns (s': State)
    requires Reaches(b, s) && Wellformed(b, s) && j < |b.txs| && s.cells[j].phase.Reading?
    requires Wanted(b, s, j) == Read(q)
    requires
      var writer := Latest(s.mem, q.location, j);
      writer.Some? && !s.mem[writer.value][q.location].estimate
    ensures Reaches(b, s') && Wellformed(b, s')
    ensures
      var i := Latest(s.mem, q.location, j).value;
      var e, at := s.mem[i][q.location], s.cells[j].phase.at;
      Moved(s, s', j, s.cells[j].(phase :=
        Reading(Resolved(at, q, FromTx(i, e.incarnation)).(obs := at.obs[q := e.value]))))
  {
    hide Reaches, Inv, Next;
    var i := Latest(s.mem, q.location, j).value;
    s' := Go(b, s, Lookup(j, s.mem[i][q.location].value));
  }

  /** A lookup finds nothing, and committed state is asked. */
  lemma Fetches(b: BlockSpec, s: State, j: TxId, q: Probe) returns (s': State)
    requires Reaches(b, s) && Wellformed(b, s) && j < |b.txs| && s.cells[j].phase.Reading?
    requires Wanted(b, s, j) == Read(q) && Latest(s.mem, q.location, j).None?
    ensures Reaches(b, s') && Wellformed(b, s')
    ensures
      var at := s.cells[j].phase.at;
      Moved(s, s', j, s.cells[j].(phase :=
        Reading(Resolved(at, q, FromStorage).(obs := at.obs[q := View(b, s.ledger.overlay, q.location)]))))
  {
    hide Reaches, Inv, Next;
    var s1 := Go(b, s, Lookup(j, b.base(q.location)));
    s' := Go(b, s1, Fetch(j, View(b, s.ledger.overlay, q.location)));
  }

  lemma {:induction false} PublishesAll(b: BlockSpec, s: State, j: TxId) returns (s': State)
    requires Reaches(b, s) && Wellformed(b, s) && j < |b.txs| && s.cells[j].phase.Publishing?
    requires s.cells[j].phase.run.Succeeded? && s.cells[j].phase.todo <= s.cells[j].phase.run.writes.Keys
    ensures Reaches(b, s') && Wellformed(b, s')
    ensures var p := s.cells[j].phase; Moved(s, s', j, s.cells[j].(phase := Publishing(p.at, p.run, {})))
    decreases s.cells[j].phase.todo
  {
    hide Reaches, Inv;
    var c := s.cells[j];
    var p := c.phase;
    if p.todo == {} {
      s' := s;
    } else {
      var l :| l in p.todo;
      var s1 := Go(b, s, Publish(j, l));
      s' := PublishesAll(b, s1, j);
      MovedOn(s, s1, s', j, PublishedCell(c, l), c.(phase := Publishing(p.at, p.run, {})));
    }
  }

  lemma {:induction false} TrimsAll(b: BlockSpec, s: State, j: TxId) returns (s': State)
    requires Reaches(b, s) && Wellformed(b, s) && j < |b.txs| && s.cells[j].phase.Trimming?
    ensures Reaches(b, s') && Wellformed(b, s')
    ensures var p := s.cells[j].phase; Moved(s, s', j, s.cells[j].(phase := Trimming(p.at, p.run, {})))
    decreases s.cells[j].phase.todo
  {
    hide Reaches, Inv;
    var c := s.cells[j];
    var p := c.phase;
    if p.todo == {} {
      s' := s;
    } else {
      var l :| l in p.todo;
      var s1 := Go(b, s, Trim(j, l));
      s' := TrimsAll(b, s1, j);
      MovedOn(s, s1, s', j, s1.cells[j], c.(phase := Trimming(p.at, p.run, {})));
    }
  }

  function ResultOf(at: Attempt, run: Execution): TxResult
    requires run.Succeeded?
  {
    TxResult(at.obs, at.seen, at.versions, run.writes.Keys, run)
  }

  /** A finished execution publishes its writes and retires what its predecessor alone had written. */
  lemma Publishes(b: BlockSpec, s: State, j: TxId) returns (s': State)
    requires Reaches(b, s) && Wellformed(b, s) && j < |b.txs| && s.cells[j].phase.Reading?
    requires Wanted(b, s, j).Finish?
    ensures Reaches(b, s') && Wellformed(b, s')
    ensures
      var a := Wanted(b, s, j);
      Moved(s, s', j, s.cells[j].(phase :=
        Trimming(s.cells[j].phase.at, Succeeded(a.writes, a.effect, a.receipt), {})))
  {
    hide Reaches, Inv, Wanted, LastWrites;
    var s1 := Go(b, s, Complete(j));
    var s2 := PublishesAll(b, s1, j);
    var s3 := Go(b, s2, EndPublish(j));
    s' := TrimsAll(b, s3, j);
  }

  /** The result is recorded, and validation is sent back to the transaction. */
  lemma Records(b: BlockSpec, s: State, j: TxId) returns (s': State)
    requires Reaches(b, s) && Wellformed(b, s) && j < |b.txs| && s.cells[j].phase.Trimming?
    requires s.cells[j].phase.todo == {} && s.cells[j].phase.run.Succeeded? && !s.cells[j].phase.at.blocked
    ensures Reaches(b, s') && Wellformed(b, s')
    ensures
      var c := s.cells[j];
      Moved(s, s', j, Cell(Executed, c.incarnation, Some(ResultOf(c.phase.at, c.phase.run)), Free))
  {
    hide Reaches, Inv, WritesNew, LastWrites;
    EntryIsOlder(b, s, j);
    var s1 := Go(b, s, Record(j));
    var s2 := Go(b, s1, Conclude(j, true));
    s' := Rewinds(b, s2, j);
  }

  lemma EntryIsOlder(b: BlockSpec, s: State, j: TxId)
    requires Reaches(b, s) && Wellformed(b, s) && j < |b.txs|
    requires s.cells[j].phase.Trimming? || s.cells[j].phase.Failing?
    ensures s.mem[j][History(j)].incarnation < s.cells[j].incarnation
  {
    ReachesInv(b, s);
    assert CellOk(b, s, j);
    hide Reaches, Inv;
    HistoryOlder(b, s.cells[j], s.mem[j], s.journal[j], j);
  }

  /** A rewind that is due is stamped and published. */
  lemma Rewinds(b: BlockSpec, s: State, j: TxId) returns (s': State)
    requires Reaches(b, s) && Wellformed(b, s) && j < |b.txs| && s.cells[j].phase.Stamping?
    requires s.cells[j].phase.target < |b.txs|
    ensures Reaches(b, s') && Wellformed(b, s') && Moved(s, s', j, s.cells[j].(phase := Free))
  {
    hide Reaches, Inv;
    var s1 := Go(b, s, Stamp(j));
    s' := Go(b, s1, Lower(j));
  }

  /** An execution that is about to succeed, unblocked, does so. */
  lemma Executes(b: BlockSpec, s: State, j: TxId) returns (s': State)
    requires Reaches(b, s) && Wellformed(b, s) && j < |b.txs| && s.cells[j].phase.Reading?
    requires Wanted(b, s, j).Finish? && !s.cells[j].phase.at.blocked
    ensures Reaches(b, s') && Wellformed(b, s')
    ensures
      var c, a := s.cells[j], Wanted(b, s, j);
      var run := Succeeded(a.writes, a.effect, a.receipt);
      Moved(s, s', j, Cell(Executed, c.incarnation, Some(ResultOf(c.phase.at, run)), Free))
  {
    hide Reaches, Wanted;
    var s1 := Publishes(b, s, j);
    s' := Records(b, s1, j);
  }

  /** An execution that fails at the commit head, unblocked and fatally, aborts the block. */
  lemma Fails(b: BlockSpec, s: State, j: TxId, error: EvmError) returns (s': State)
    requires Reaches(b, s) && Wellformed(b, s) && j < |b.txs| && s.cells[j].phase.Reading?
    requires Wanted(b, s, j) == Fail(error) && error.FatalError? && !s.cells[j].phase.at.blocked
    requires s.cells[j].result.None? && s.ledger.committed == j && s.abort.None?
    ensures Reaches(b, s') && Wellformed(b, s')
    ensures s'.ledger == s.ledger && s'.abort == Some(FatalEvmError(j))
    ensures s'.cells == s.cells[j :=
      Cell(Conflict, s.cells[j].incarnation, Some(TxResult(map[], map[], map[], {}, Failed(error))),
        RewindPhase(|b.txs|, j + 1))]
  {
    hide Reaches, Inv, Wanted;
    var s1 := Go(b, s, Complete(j));
    EntryIsOlder(b, s1, j);
    var s2 := Go(b, s1, Discard(j));
    s' := Go(b, s2, Drop(j));
  }

  // ----- validation -----

  lemma Scans(b: BlockSpec, s: State, j: TxId) returns (s': State)
    requires Reaches(b, s) && Wellformed(b, s) && s.finality <= j && CanClaimValidation(b, s, j)
    ensures Reaches(b, s') && Wellformed(b, s') && s.cells[j].result.Some?
    ensures
      var c := s.cells[j];
      s' == s.(
        cells := s.cells[j :=
          c.(status := Validating, phase := Scanning(s.clock, c.result.value.versions.Keys, false))],
        clock := s.clock + 1)
  {
    hide Reaches, Inv;
    ResultIsThere(b, s, j);
    var task := Validation(j, s.cells[j].incarnation);
    var s1 := Go(b, s, ClaimValidation(j));
    s' := Go(b, s1, BeginValidation(task));
    assert s1.tasks - multiset{task} == s.tasks;
  }

  lemma ResultIsThere(b: BlockSpec, s: State, j: TxId)
    requires Reaches(b, s) && Wellformed(b, s) && s.finality <= j && CanClaimValidation(b, s, j)
    ensures s.cells[j].result.Some? && s.cells[j].result.value.execution.Succeeded? && j !in s.ledger.taken
  {
    ReachesInv(b, s);
    hide Reaches;
    NotTaken(b, s, j);
    assert CellOk(b, s, j);
    hide Inv;
  }

  /** A transaction that waits for its validation has a result, and it has not been taken. */
  lemma PendingResult(b: BlockSpec, s: State, j: TxId)
    requires Reaches(b, s) && Wellformed(b, s) && j < |b.txs|
    requires s.cells[j].phase.Free? && s.cells[j].status == Validating
    ensures s.cells[j].result.Some? && s.cells[j].result.value.execution.Succeeded? && j !in s.ledger.taken
  {
    ReachesInv(b, s);
    hide Reaches;
    assert CellOk(b, s, j);
    Rely(b, s, j);
    NotTaken(b, s, j);
    hide Inv;
  }

  /** The scan finds a conflict exactly if some recorded version is no longer in force. */
  lemma {:induction false} ChecksAll(b: BlockSpec, s: State, j: TxId) returns (s': State)
    requires Reaches(b, s) && Wellformed(b, s) && j < |b.txs| && s.cells[j].phase.Scanning?
    requires s.cells[j].result.Some? && s.cells[j].phase.todo <= s.cells[j].result.value.versions.Keys
    ensures Reaches(b, s') && Wellformed(b, s')
    ensures
      var p, versions := s.cells[j].phase, s.cells[j].result.value.versions;
      var stale := exists l <- p.todo :: !Current(s.mem, l, j, versions[l]);
      s' == s.(cells := s.cells[j := s.cells[j].(phase := Scanning(p.stamp, {}, p.conflict || stale))])
    decreases s.cells[j].phase.todo
  {
    hide Reaches, Inv, Current;
    var p, versions := s.cells[j].phase, s.cells[j].result.value.versions;
    if p.todo == {} {
      s' := s;
    } else {
      var l :| l in p.todo;
      var s1 := Go(b, s, Check(j, l));
      s' := ChecksAll(b, s1, j);
    }
  }

  lemma {:induction false} MarksAll(b: BlockSpec, s: State, j: TxId) returns (s': State)
    requires Reaches(b, s) && Wellformed(b, s) && j < |b.txs| && s.cells[j].phase.Marking?
    ensures Reaches(b, s') && Wellformed(b, s')
    ensures Moved(s, s', j, s.cells[j].(phase := Marking({})))
    decreases s.cells[j].phase.todo
  {
    hide Reaches, Inv;
    if s.cells[j].phase.todo == {} {
      s' := s;
    } else {
      var l :| l in s.cells[j].phase.todo;
      var s1 := Go(b, s, Mark(j, l));
      s' := MarksAll(b, s1, j);
      MovedOn(s, s1, s', j, s1.cells[j], s'.cells[j]);
    }
  }

  /** A result with a stale read is rejected, and validation is sent back behind the transaction. */
  lemma Rejects(b: BlockSpec, s: State, j: TxId, l: Location) returns (s': State)
    requires Reaches(b, s) && Wellformed(b, s) && s.finality <= j && j + 1 < |b.txs| && CanClaimValidation(b, s, j)
    requires s.cells[j].result.Some? && l in s.cells[j].result.value.versions
    requires !Current(s.mem, l, j, s.cells[j].result.value.versions[l])
    ensures Reaches(b, s') && Wellformed(b, s')
    ensures Moved(s, s', j, s.cells[j].(status := Conflict, phase := Free))
  {
    hide Reaches, Inv, Current;
    var s1 := Scans(b, s, j);
    var s2 := ChecksAll(b, s1, j);
    var s3 := Go(b, s2, EndScan(j));
    var s4 := MarksAll(b, s3, j);
    s' := Withdraws(b, s4, j);
  }

  lemma Withdraws(b: BlockSpec, s: State, j: TxId) returns (s': State)
    requires Reaches(b, s) && Wellformed(b, s) && j + 1 < |b.txs| && s.cells[j].phase == Marking({})
    ensures Reaches(b, s') && Wellformed(b, s')
    ensures Moved(s, s', j, s.cells[j].(status := Conflict, phase := Free))
  {
    hide Reaches, Inv;
    EntryIsCurrent(b, s, j);
    var s1 := Go(b, s, Invalidate(j));
    s' := Rewinds(b, s1, j);
  }

  lemma EntryIsCurrent(b: BlockSpec, s: State, j: TxId)
    requires Reaches(b, s) && Wellformed(b, s) && j < |b.txs| && s.cells[j].phase.Marking?
    ensures s.mem[j][History(j)].incarnation == s.cells[j].incarnation
  {
    ReachesInv(b, s);
    assert CellOk(b, s, j);
    hide Reaches, Inv;
  }

  // ----- finality and commit -----

  /** The next transaction becomes final if all its reads are in force. */
  lemma BecomesFinal(b: BlockSpec, s: State) returns (s': State)
    requires Reaches(b, s) && Wellformed(b, s) && CanClaimValidation(b, s, s.finality) && s.lowerTs < s.clock
    requires s.cells[s.finality].result.Some?
    requires
      var versions := s.cells[s.finality].result.value.versions;
      forall l <- versions :: Current(s.mem, l, s.finality, versions[l])
    ensures Reaches(b, s') && Wellformed(b, s')
    ensures
      && s'.cells == s.cells[s.finality := s.cells[s.finality].(status := Finality)] && s'.mem == s.mem
      && s'.finality == s.finality + 1 && s'.ledger == s.ledger && s'.abort == s.abort && s'.tasks == s.tasks
      && s'.lowerTs < s'.clock
  {
    var j := s.finality;
    hide Reaches, Inv, Current;
    TimesArePast(b, s, j);
    var s1 := Scans(b, s, j);
    var s2 := ChecksAll(b, s1, j);
    var s3 := Go(b, s2, EndScan(j));
    s' := Go(b, s3, Finalize);
  }

  lemma TimesArePast(b: BlockSpec, s: State, j: TxId)
    requires Reaches(b, s) && Wellformed(b, s) && j < |b.txs|
    ensures s.lower[j] < s.clock && s.confirmed[j] < s.clock
  {
    ReachesInv(b, s);
    assert ScanOk(s, j);
    hide Reaches, CellOk, ReadsOk, FinalityOk, CommitOk;
  }

  lemma {:induction false} AppliesAll(b: BlockSpec, s: State) returns (s': State)
    requires Reaches(b, s) && Wellformed(b, s) && s.ledger.applying.Some?
    ensures Reaches(b, s') && Wellformed(b, s')
    ensures s' == s.(ledger :=
      s.ledger.(overlay := s.ledger.overlay + s.ledger.applying.value, applying := Some(map[])))
    decreases s.ledger.applying.value.Keys
  {
    hide Reaches, Inv;
    var todo := s.ledger.applying.value;
    if todo == map[] {
      s' := s;
      assert s.ledger.overlay + todo == s.ledger.overlay;
    } else {
      var l :| l in todo;
      var s1 := Go(b, s, ApplyWrite(l));
      assert s1.ledger.applying.value.Keys == todo.Keys - {l};
      s' := AppliesAll(b, s1);
      assert s.ledger.overlay[l := todo[l]] + (todo - {l}) == s.ledger.overlay + todo;
    }
  }

  lemma ResultIsFinal(b: BlockSpec, s: State)
    requires Reaches(b, s) && Wellformed(b, s) && CanTakeResult(b, s)
    ensures
      var j := s.ledger.committed;
      && s.cells[j].result.Some? && s.cells[j].result.value.execution.Succeeded? && j !in s.ledger.taken
  {
    ReachesInv(b, s);
    assert FinalOk(b, s, s.ledger.committed);
    hide Reaches, CellOk, ReadsOk, ScanOk, FinalityOk, Merged;
  }

  /** The next final transaction is committed if its nonce fits. */
  lemma CommitsNext(b: BlockSpec, s: State) returns (s': State)
    requires Reaches(b, s) && Wellformed(b, s) && CanTakeResult(b, s)
    requires b.txs[s.ledger.committed].nonceMatches(s.ledger.overlay)
    ensures Reaches(b, s') && Wellformed(b, s')
    ensures
      var j := s.ledger.committed;
      && s.cells[j].result.Some? && s.cells[j].result.value.execution.Succeeded?
      && var run := s.cells[j].result.value.execution;
      && s' == s.(ledger := s.ledger.(
           committed := j + 1, taken := s.ledger.taken + {j},
           overlay := s.ledger.overlay + AllWrites(j, run.writes, run.effect),
           receipts := s.ledger.receipts + [run.receipt]))
  {
    hide Reaches, Inv, AllWrites;
    ResultIsFinal(b, s);
    var s1 := Go(b, s, TakeResult(false));
    var s2 := AppliesAll(b, s1);
    s' := Go(b, s2, PublishCommit);
  }
}
