/**
 * When validated reads are sequential reads. Validation sees the read set, which keeps one version per
 * location; what a transaction computed depends on every lookup it made. The two agree if no repeated
 * lookup found another version, and then a final result is the sequential one.
 */
module SteadyReads {
  import opened Types
  import opened Block
  import opened Protocol
  import opened ProtocolInvariant
  import opened ProtocolSteps

  /** Every lookup found the version that is in force below `j`. */
  ghost predicate AllCurrent(mem: seq<Memory>, j: nat, seen: Sources)
    requires j <= |mem|
  {
    forall q <- seen :: Current(mem, q.location, j, seen[q])
  }

  /** A version that is in force carries the value its writer still shows. */
  lemma CurrentValue(b: BlockSpec, s: State, j: TxId, v: Claimed, q: Probe)
    requires Wellformed(b, s) && j <= s.finality && j < |b.txs|
    requires v.Claimed? && q in v.obs && q in v.seen && ReadOk(b, s, j, v, q)
    requires AllCurrent(s.mem, j, v.seen)
    requires Latest(s.mem, q.location, j).Some? ==>
               var i := Latest(s.mem, q.location, j).value; JournalOk(s.cells[i], s.mem[i], s.journal[i])
    ensures
      match Latest(s.mem, q.location, j)
      case Some(i) => v.obs[q] == s.mem[i][q.location].value
      case None => v.obs[q] == b.base(q.location)
  {
    assert Current(s.mem, q.location, j, v.seen[q]);
    if v.seen[q].FromStorage? && Doomed(s, j, v.seen) {
      var i, x :| 0 <= i < s.finality && i < j && i < |s.mem| && x in v.seen
        && v.seen[x] == FromStorage && x.location in s.mem[i];
      assert Current(s.mem, x.location, j, v.seen[x]);
    }
  }

  /** Below the finality index, such a lookup observed what the results before `j` leave. */
  lemma CurrentRead(b: BlockSpec, s: State, j: TxId, q: Probe)
    requires Inv(b, s) && j <= s.finality && j < |b.txs|
    requires
      var v := Vouched(s.cells[j]);
      v.Claimed? && q in v.obs && q in v.seen && AllCurrent(s.mem, j, v.seen)
    ensures Vouched(s.cells[j]).obs[q] == View(b, Merged(s.cells, j), q.location)
  {
    var v := Vouched(s.cells[j]);
    assert ReadsOk(b, s, j);
    var writer := Latest(s.mem, q.location, j);
    if writer.Some? {
      assert CellOk(b, s, writer.value);
    }
    FinalsLive(b, s);
    ResolveFinal(b, s, q.location, j);
    hide Inv, FinalOk, ReadOk, Current, Merged, Live, AllCurrent;
    CurrentValue(b, s, j, v, q);
  }

  lemma CurrentReads(b: BlockSpec, s: State, j: TxId)
    requires Inv(b, s) && j <= s.finality && j < |b.txs|
    requires
      var v := Vouched(s.cells[j]);
      v.Claimed? && v.obs.Keys <= v.seen.Keys && AllCurrent(s.mem, j, v.seen)
    ensures Agrees(b, Merged(s.cells, j), Vouched(s.cells[j]).obs)
  {
    var v := Vouched(s.cells[j]);
    forall q <- v.obs ensures v.obs[q] == View(b, Merged(s.cells, j), q.location) {
      hide Inv, AllCurrent, Merged;
      CurrentRead(b, s, j, q);
    }
  }

  /** The value of a version: what its transaction published, or what the block started from. */
  ghost function ValueOf(b: BlockSpec, s: State, l: Location, v: Version): Value {
    match v
    case FromStorage => b.base(l)
    case FromTx(i, inc) =>
      if i < |s.journal| && (inc, l) in s.journal[i] then s.journal[i][(inc, l)] else b.base(l)
  }

  /** The versions a final transaction recorded have the values that the results before it leave. */
  lemma RecordedIsInForce(b: BlockSpec, s: State, j: TxId, l: Location)
    requires Inv(b, s) && j < s.finality
    requires s.cells[j].result.Some? && l in s.cells[j].result.value.versions
    ensures ValueOf(b, s, l, s.cells[j].result.value.versions[l]) == View(b, Merged(s.cells, j), l)
  {
    assert FinalOk(b, s, j);
    assert Current(s.mem, l, j, s.cells[j].result.value.versions[l]);
    var writer := Latest(s.mem, l, j);
    if writer.Some? {
      assert CellOk(b, s, writer.value);
    }
    FinalsLive(b, s);
    hide Inv, FinalOk, Live, Merged;
    ResolveFinal(b, s, l, j);
  }

  /** What a final transaction did is what it does on the state the results before it leave. */
  lemma SteadyRuns(b: BlockSpec, s: State, j: TxId)
    requires Inv(b, s) && j < s.finality
    ensures j < |b.txs| && s.cells[j].result.Some? && s.cells[j].result.value.execution.Succeeded?
    ensures
      var r := s.cells[j].result.value;
      Steady(r) ==>
        Run(b, b.txs[j].program, Merged(s.cells, j))
        == Finish(r.execution.writes, r.execution.effect, r.execution.receipt)
  {
    assert FinalOk(b, s, j) && CellOk(b, s, j);
    var r := s.cells[j].result.value;
    assert ResultOk(b, s.cells[j], j);
    if Steady(r) {
      assert AllCurrent(s.mem, j, r.seen);
      hide Inv, Merged, AllCurrent, Current, Steady, Explained;
      CurrentReads(b, s, j);
      ExplainedRuns(b, b.txs[j].program, Merged(s.cells, j), r.obs);
    }
  }

  /** The first `k` results are steady. */
  ghost predicate SteadyBelow(cells: seq<Cell>, k: nat)
    requires k <= |cells|
  {
    forall i :: 0 <= i < k && cells[i].result.Some? ==> Steady(cells[i].result.value)
  }

  /** Everything committed is steady. */
  ghost predicate SteadyLedger(s: State) {
    s.ledger.committed <= |s.cells| && SteadyBelow(s.cells, s.ledger.committed)
  }

  /** The results of the first `k` transactions are those of executing them one after another. */
  ghost predicate SequentialBelow(b: BlockSpec, cells: seq<Cell>, k: nat)
    requires k <= |cells| == |b.txs|
  {
    && (forall i: nat :: i <= k ==> Merged(cells, i) == SequentialOverlay(b, i))
    && forall i :: 0 <= i < k ==>
         && cells[i].result.Some? && cells[i].result.value.execution.Succeeded?
         && var run := cells[i].result.value.execution;
         && SequentialAction(b, i) == Finish(run.writes, run.effect, run.receipt)
  }

  lemma SequentialNext(b: BlockSpec, cells: seq<Cell>, k: TxId)
    requires k < |cells| == |b.txs| && SequentialBelow(b, cells, k)
    requires
      && cells[k].result.Some? && cells[k].result.value.execution.Succeeded?
      && var run := cells[k].result.value.execution;
      && Run(b, b.txs[k].program, Merged(cells, k)) == Finish(run.writes, run.effect, run.receipt)
    ensures SequentialBelow(b, cells, k + 1)
  {
    hide Run, Merged, SequentialOverlay, SequentialAction;
    assert Merged(cells, k) == SequentialOverlay(b, k);
    MergedNext(b, cells, k);
  }

  lemma MergedNext(b: BlockSpec, cells: seq<Cell>, k: TxId)
    requires k < |cells| == |b.txs| && Merged(cells, k) == SequentialOverlay(b, k)
    requires
      && cells[k].result.Some? && cells[k].result.value.execution.Succeeded?
      && var run := cells[k].result.value.execution;
      && Run(b, b.txs[k].program, Merged(cells, k)) == Finish(run.writes, run.effect, run.receipt)
    ensures Merged(cells, k + 1) == SequentialOverlay(b, k + 1)
    ensures
      var run := cells[k].result.value.execution;
      SequentialAction(b, k) == Finish(run.writes, run.effect, run.receipt)
  {
    hide Run;
  }

  /** What is sequential stays so as long as the results stay. */
  lemma SequentialFrozen(b: BlockSpec, cells: seq<Cell>, cells': seq<Cell>, k: nat)
    requires k <= |cells| == |b.txs| && |cells'| == |cells| && SequentialBelow(b, cells, k)
    requires forall i :: 0 <= i < k ==> cells'[i].result == cells[i].result
    ensures SequentialBelow(b, cells', k)
  {
    forall i: nat | i <= k ensures Merged(cells', i) == SequentialOverlay(b, i) {
      MergedSame(cells, cells', i);
    }
    hide Merged, SequentialOverlay, SequentialAction;
  }

  lemma SequentialSooner(b: BlockSpec, cells: seq<Cell>, j: nat, k: nat)
    requires j <= k <= |cells| == |b.txs| && SequentialBelow(b, cells, k)
    ensures SequentialBelow(b, cells, j)
  {
    hide Merged, SequentialOverlay, SequentialAction;
  }

  /** If the first `k` final results are steady they are the sequential ones. */
  lemma {:induction false} SteadyIsSequential(b: BlockSpec, s: State, k: nat)
    requires Inv(b, s) && k <= s.finality && SteadyBelow(s.cells, k)
    ensures SequentialBelow(b, s.cells, k)
  {
    hide *;
    SizesOf(b, s);
    if k == 0 {
      NothingYet(b, s.cells);
    } else {
      SteadySooner(s.cells, k);
      SteadyIsSequential(b, s, k - 1);
      SteadyRuns(b, s, k - 1);
      SequentialNext(b, s.cells, k - 1);
    }
  }

  lemma SizesOf(b: BlockSpec, s: State)
    requires Inv(b, s)
    ensures |s.cells| == |b.txs| && s.finality <= |b.txs|
  {
  }

  lemma NothingYet(b: BlockSpec, cells: seq<Cell>)
    requires |cells| == |b.txs|
    ensures SequentialBelow(b, cells, 0)
  {
  }

  lemma SteadySooner(cells: seq<Cell>, k: nat)
    requires 0 < k <= |cells| && SteadyBelow(cells, k)
    ensures SteadyBelow(cells, k - 1)
    ensures cells[k - 1].result.Some? ==> Steady(cells[k - 1].result.value)
  {
    hide Steady;
  }
}
