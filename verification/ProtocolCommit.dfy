/** Finality and ordered commit keep the invariant. */
module ProtocolCommit {
  import opened Types
  import opened Block
  import opened Protocol
  import opened ProtocolInvariant

  // ----- finality -----

  /** At the finality check every excuse for a stale validation has run out. */
  lemma NoExcuse(b: BlockSpec, s: State)
    requires Wellformed(b, s) && FinalityOk(b, s) && CanFinalize(b, s)
    ensures !Excused(s, s.finality, s.confirmed[s.finality])
  {
    hide Current;
    var ts := s.confirmed[s.finality];
    forall i | 0 <= i < s.finality ensures !Threat(s.cells[i], ts) && s.lower[i] <= ts {
      assert FinalOk(b, s, i) && s.lower[i] <= s.lowerTs;
    }
  }

  lemma CandidateCurrent(b: BlockSpec, s: State)
    requires Inv(b, s) && CanFinalize(b, s)
    ensures
      var c := s.cells[s.finality];
      && c.result.Some? && c.result.value.execution.Succeeded?
      && forall l <- c.result.value.versions :: Current(s.mem, l, s.finality, c.result.value.versions[l])
  {
    assert CellOk(b, s, s.finality) && ScanOk(s, s.finality);
    assert ResultOk(b, s.cells[s.finality], s.finality);
    hide Inv, CellOk, Excused;
    NoExcuse(b, s);
  }

  lemma FinalizeFinals(b: BlockSpec, s: State)
    requires Inv(b, s) && CanFinalize(b, s)
    ensures var s' := FinalizeStep(b, s); Wellformed(b, s') && FinalityOk(b, s')
  {
    var s' := FinalizeStep(b, s);
    CandidateCurrent(b, s);
    forall k | 0 <= k < s'.finality ensures FinalOk(b, s', k) && s'.lower[k] <= s'.lowerTs {
      if k < s.finality {
        assert FinalOk(b, s, k) && s.lower[k] <= s.lowerTs;
      }
    }
  }

  lemma FinalizeOthers(b: BlockSpec, s: State, s': State, k: TxId)
    requires Wellformed(b, s) && CanFinalize(b, s) && s' == FinalizeStep(b, s) && Wellformed(b, s') && k < |b.txs|
    requires CellOk(b, s, k) && ReadsOk(b, s, k) && ScanOk(s, k)
    ensures CellOk(b, s', k) && ReadsOk(b, s', k) && ScanOk(s', k)
  {
    var v := Vouched(s.cells[k]);
    assert Vouched(s'.cells[k]) == v;
    if v.Claimed? {
      forall q | q in v.obs && q in v.seen ensures ReadOk(b, s', k, v, q) {
        assert ReadOk(b, s, k, v, q);
        if Doomed(s, k, v.seen) {
          var i, x :| 0 <= i < s.finality && i < k && i < |s.mem| && x in v.seen
            && v.seen[x] == FromStorage && x.location in s.mem[i];
          assert x.location in s'.mem[i];
        }
      }
    }
    FinalizeScan(b, s, s', k);
  }

  lemma FinalizeScan(b: BlockSpec, s: State, s': State, k: TxId)
    requires Wellformed(b, s) && CanFinalize(b, s) && s' == FinalizeStep(b, s) && k < |b.txs|
    requires ScanOk(s, k)
    ensures ScanOk(s', k)
  {
    forall ts: nat | Excused(s, k, ts) ensures Excused(s', k, ts) {
      if i :| 0 <= i < k && Threat(s.cells[i], ts) {
        assert Threat(s'.cells[i], ts);
      }
    }
  }

  lemma FinalizeTasks(b: BlockSpec, s: State)
    requires Wellformed(b, s) && TasksOk(s) && CanFinalize(b, s)
    ensures TasksOk(FinalizeStep(b, s))
  {
  }

  lemma FinalizeKeeps(b: BlockSpec, s: State)
    requires Inv(b, s) && CanFinalize(b, s)
    ensures Inv(b, FinalizeStep(b, s))
  {
    var s' := FinalizeStep(b, s);
    FinalizeFinals(b, s);
    FinalizeTasks(b, s);
    hide CellOk, ReadsOk, ScanOk, FinalityOk, TasksOk, CommitOk;
    CommitKept(b, s, s');
    forall k | 0 <= k < |b.txs| ensures CellOk(b, s', k) && ReadsOk(b, s', k) && ScanOk(s', k) {
      FinalizeOthers(b, s, s', k);
    }
  }

  // ----- ordered commit -----

  /** A change of the ledger alone concerns no worker. */
  lemma LedgerStep(b: BlockSpec, s: State, s': State)
    requires Inv(b, s)
    requires s' == s.(ledger := s'.ledger, abort := s'.abort)
    requires Wellformed(b, s') && CommitOk(b, s') && Consistent(s')
    ensures Inv(b, s')
  {
    hide CellOk, ReadsOk, ScanOk, TasksOk, FinalityOk, CommitOk, Consistent;
    forall j | 0 <= j < |b.txs| ensures CellOk(b, s', j) && ReadsOk(b, s', j) && ScanOk(s', j) {
      LedgerCell(b, s, s', j);
      LedgerReads(b, s, s', j);
      LedgerScan(s, s', j);
    }
    LedgerFinals(b, s, s');
    LedgerTasks(s, s');
  }

  lemma LedgerCell(b: BlockSpec, s: State, s': State, j: TxId)
    requires Wellformed(b, s) && Wellformed(b, s') && j < |b.txs| && CellOk(b, s, j)
    requires s' == s.(ledger := s'.ledger, abort := s'.abort)
    ensures CellOk(b, s', j)
  {
    hide CellGood;
  }

  lemma LedgerFinals(b: BlockSpec, s: State, s': State)
    requires Wellformed(b, s) && Wellformed(b, s') && FinalityOk(b, s)
    requires s' == s.(ledger := s'.ledger, abort := s'.abort)
    ensures FinalityOk(b, s')
  {
    hide Current;
    forall j | 0 <= j < s.finality ensures FinalOk(b, s', j) && Ahead(s', j) {
      assert FinalOk(b, s, j) && Ahead(s, j);
    }
  }

  lemma LedgerTasks(s: State, s': State)
    requires TasksOk(s) && s' == s.(ledger := s'.ledger, abort := s'.abort)
    ensures TasksOk(s')
  {
    forall t <- s'.tasks ensures TaskOk(s', t) && s'.tasks[t] == 1 {
      assert TaskOk(s, t);
    }
  }

  lemma LedgerReads(b: BlockSpec, s: State, s': State, j: TxId)
    requires Wellformed(b, s) && Wellformed(b, s') && j < |b.txs| && ReadsOk(b, s, j)
    requires s' == s.(ledger := s'.ledger, abort := s'.abort)
    ensures ReadsOk(b, s', j)
  {
  }

  lemma LedgerScan(s: State, s': State, j: TxId)
    requires j < |s.cells| == |s.lower| == |s.mem| == |s.confirmed| && ScanOk(s, j)
    requires s' == s.(ledger := s'.ledger, abort := s'.abort)
    ensures ScanOk(s', j)
  {
  }

  /** The next committed state is the present one plus the writes of the next final result. */
  lemma NextOverlay(b: BlockSpec, s: State, j: TxId)
    requires Wellformed(b, s) && j < |b.txs| && FinalOk(b, s, j)
    ensures
      var run := s.cells[j].result.value.execution;
      Merged(s.cells, j + 1) == Merged(s.cells, j) + AllWrites(j, run.writes, run.effect)
  {
    hide Current, AllWrites;
  }

  /** A finalized result is present, successful and not yet taken, so taking it detects no inconsistency. */
  lemma TakeResultForms(b: BlockSpec, s: State, databaseFails: bool)
    requires Wellformed(b, s) && CommitOk(b, s) && CanTakeResult(b, s)
    requires FinalOk(b, s, s.ledger.committed)
    ensures
      var j := s.ledger.committed;
      var run := s.cells[j].result.value.execution;
      var s' := TakeResultStep(b, s, databaseFails);
      var halted := s.ledger.(stopped := true, taken := s.ledger.taken + {j});
      if databaseFails then
        s' == Aborted(s.(ledger := halted.(failed := true)), CommitError(j))
      else if !b.txs[j].nonceMatches(s.ledger.overlay) then
        s' == Aborted(s.(ledger := halted), FallbackSequential)
      else
        s' == s.(ledger := s.ledger.(taken := s.ledger.taken + {j},
                                     applying := Some(AllWrites(j, run.writes, run.effect))))
  {
    hide Merged, Current, AllWrites;
    assert s.ledger.committed !in s.ledger.taken;
  }

  /** Stopping between two commits leaves the committed prefix as it is. */
  lemma HaltCommit(b: BlockSpec, s: State, s': State)
    requires Wellformed(b, s) && CommitOk(b, s) && CanTakeResult(b, s)
    requires s' == s.(ledger := s'.ledger, abort := s'.abort)
    requires s'.ledger == s.ledger.(stopped := true, failed := s'.ledger.failed,
                                    taken := s.ledger.taken + {s.ledger.committed})
    ensures CommitOk(b, s')
  {
    hide Merged;
  }

  lemma StartCommit(b: BlockSpec, s: State, s': State, writes: map<Location, Value>)
    requires Wellformed(b, s) && CommitOk(b, s) && CanTakeResult(b, s)
    requires s' == s.(ledger := s.ledger.(taken := s.ledger.taken + {s.ledger.committed}, applying := Some(writes)))
    requires b.txs[s.ledger.committed].nonceMatches(s.ledger.overlay)
    requires Merged(s.cells, s.ledger.committed + 1) == Merged(s.cells, s.ledger.committed) + writes
    ensures CommitOk(b, s')
  {
    hide Merged;
  }

  lemma TakeResultCommit(b: BlockSpec, s: State, databaseFails: bool)
    requires Wellformed(b, s) && CommitOk(b, s) && Consistent(s) && CanTakeResult(b, s)
    requires FinalOk(b, s, s.ledger.committed)
    ensures var s' := TakeResultStep(b, s, databaseFails); CommitOk(b, s') && Consistent(s')
  {
    var j := s.ledger.committed;
    var run := s.cells[j].result.value.execution;
    var s' := TakeResultStep(b, s, databaseFails);
    hide CommitOk, Merged, FinalOk, AllWrites, TakeResultStep;
    TakeResultForms(b, s, databaseFails);
    if databaseFails || !b.txs[j].nonceMatches(s.ledger.overlay) {
      HaltCommit(b, s, s');
    } else {
      NextOverlay(b, s, j);
      StartCommit(b, s, s', AllWrites(j, run.writes, run.effect));
    }
  }

  lemma TakeResultKeeps(b: BlockSpec, s: State, databaseFails: bool)
    requires Inv(b, s) && CanTakeResult(b, s)
    ensures Inv(b, TakeResultStep(b, s, databaseFails))
  {
    assert FinalOk(b, s, s.ledger.committed);
    TakeResultCommit(b, s, databaseFails);
    hide Inv, CommitOk, FinalOk;
    LedgerStep(b, s, TakeResultStep(b, s, databaseFails));
  }

  lemma ApplyWriteCommit(b: BlockSpec, s: State, l: Location)
    requires Wellformed(b, s) && CommitOk(b, s) && CanApplyWrite(b, s, l)
    ensures CommitOk(b, ApplyWriteStep(b, s, l))
  {
    hide Merged;
    var s' := ApplyWriteStep(b, s, l);
    assert s'.ledger.overlay + s'.ledger.applying.value == s.ledger.overlay + s.ledger.applying.value;
  }

  lemma ApplyWriteKeeps(b: BlockSpec, s: State, l: Location)
    requires Inv(b, s) && CanApplyWrite(b, s, l)
    ensures Inv(b, ApplyWriteStep(b, s, l))
  {
    ApplyWriteCommit(b, s, l);
    hide Inv, CommitOk;
    LedgerStep(b, s, ApplyWriteStep(b, s, l));
  }

  lemma PublishCommitCommit(b: BlockSpec, s: State)
    requires Wellformed(b, s) && CommitOk(b, s) && CanPublishCommit(b, s)
    requires FinalOk(b, s, s.ledger.committed)
    ensures CommitOk(b, PublishCommitStep(b, s))
  {
    hide Merged, Current;
    assert s.ledger.overlay + map[] == s.ledger.overlay;
  }

  lemma PublishCommitKeeps(b: BlockSpec, s: State)
    requires Inv(b, s) && CanPublishCommit(b, s)
    ensures Inv(b, PublishCommitStep(b, s))
  {
    assert FinalOk(b, s, s.ledger.committed);
    PublishCommitCommit(b, s);
    hide Inv, CommitOk, FinalOk;
    LedgerStep(b, s, PublishCommitStep(b, s));
  }
}
