/** What a step of one transaction leaves intact for all the others. */
module ProtocolFrame {
  import opened Types
  import opened Block
  import opened Protocol
  import opened ProtocolInvariant

  /** Only estimates were changed or removed, and nothing new appeared. */
  ghost predicate Quiet(m: Memory, m': Memory) {
    forall l :: QuietAt(m, m', l)
  }

  ghost predicate QuietAt(m: Memory, m': Memory, l: Location) {
    (l in m && m[l].estimate) || ((l in m <==> l in m') && (l in m' ==> m'[l] == m[l]))
  }

  ghost predicate Extends(g: Journal, g': Journal) {
    forall k <- g :: k in g' && g'[k] == g[k]
  }

  ghost predicate ThreatKept(s: State, s': State, j: TxId, ts: nat)
    requires j < |s.cells| == |s'.cells| == |s'.lower|
  {
    Threat(s.cells[j], ts) ==>
      Threat(s'.cells[j], ts) || (exists i :: 0 <= i <= j + 1 && i < |s'.lower| && s'.lower[i] > ts)
  }

  ghost predicate LowerGrows(s: State, s': State) {
    && |s.lower| == |s'.lower|
    && (forall i :: 0 <= i < |s.lower| ==> s.lower[i] <= s'.lower[i])
    && (forall i :: 0 <= i < |s.lower| && i < s.finality ==> s'.lower[i] == s.lower[i])
  }

  /** `s'` differs from `s` only in what belongs to the unfinalized transaction `j`. */
  ghost predicate LocalChange(b: BlockSpec, s: State, s': State, j: TxId) {
    && Wellformed(b, s) && Wellformed(b, s')
    && s.finality <= j < |b.txs|
    && s'.finality == s.finality && s'.lowerTs == s.lowerTs && s'.ledger == s.ledger
    && s'.cells == s.cells[j := s'.cells[j]]
    && s'.mem == s.mem[j := s'.mem[j]]
    && s'.journal == s.journal[j := s'.journal[j]]
    && s'.confirmed == s.confirmed[j := s'.confirmed[j]]
    && s.clock <= s'.clock
    && Extends(s.journal[j], s'.journal[j])
    && LowerGrows(s, s')
  }

  /** A later reader's accepted validation survives the change, or is excused. */
  ghost predicate Harmless(s: State, s': State, j: TxId)
    requires j < |s.cells| == |s'.cells| == |s.mem| == |s'.mem| == |s'.lower|
  {
    j + 1 < |s.cells| ==>
      && (forall ts: nat :: ts < s.clock ==> ThreatKept(s, s', j, ts))
      && (Quiet(s.mem[j], s'.mem[j]) || forall ts: nat :: Threat(s'.cells[j], ts))
  }

  lemma ReadsKept(b: BlockSpec, s: State, s': State, j: TxId, k: TxId, v: Claimed)
    requires LocalChange(b, s, s', j)
    requires v.Claimed?
    requires forall q :: q in v.obs && q in v.seen ==> ReadOk(b, s, k, v, q)
    ensures forall q :: q in v.obs && q in v.seen ==> ReadOk(b, s', k, v, q)
  {
  }

  lemma ExcuseKept(b: BlockSpec, s: State, s': State, j: TxId, k: TxId, ts: nat)
    requires LocalChange(b, s, s', j) && Harmless(s, s', j)
    requires k < |b.txs| && ts < s.clock && Excused(s, k, ts)
    ensures Excused(s', k, ts)
  {
    if Rewound(s, k, ts) {
      var i :| 0 <= i <= k && s.lower[i] > ts;
      assert s'.lower[i] > ts;
    } else {
      var i :| 0 <= i < k && Threat(s.cells[i], ts);
      if i == j {
        assert ThreatKept(s, s', j, ts);
      } else {
        assert s'.cells[i] == s.cells[i];
      }
    }
  }

  lemma AcceptedKept(b: BlockSpec, s: State, s': State, j: TxId, k: TxId, ts: nat, pending: set<Location>)
    requires LocalChange(b, s, s', j) && Harmless(s, s', j)
    requires k < |b.txs| && ts < s.clock && s'.cells[k].result == s.cells[k].result
    requires AcceptedOk(s, k, ts, pending)
    ensures AcceptedOk(s', k, ts, pending)
  {
    if s.cells[k].result.Some? {
      var versions := s.cells[k].result.value.versions;
      forall l <- versions
        ensures l in pending || Current(s'.mem, l, k, versions[l]) || Excused(s', k, ts)
      {
        if Excused(s, k, ts) {
          ExcuseKept(b, s, s', j, k, ts);
        } else if l !in pending {
          if k <= j {
            CurrentBelow(s.mem, j, s'.mem[j], l, k, versions[l]);
          } else if Quiet(s.mem[j], s'.mem[j]) {
            assert QuietAt(s.mem[j], s'.mem[j], l);
            CurrentAbove(s.mem, j, s'.mem[j], l, k, versions[l]);
          } else {
            assert Threat(s'.cells[j], ts);
          }
        }
      }
    }
  }

  lemma OthersKept(b: BlockSpec, s: State, s': State, j: TxId, k: TxId)
    requires LocalChange(b, s, s', j) && Harmless(s, s', j)
    requires k < |b.txs| && k != j
    requires CellOk(b, s, k) && ReadsOk(b, s, k) && ScanOk(s, k)
    ensures CellOk(b, s', k) && ReadsOk(b, s', k) && ScanOk(s', k)
  {
    assert s'.cells[k] == s.cells[k] && s'.mem[k] == s.mem[k] && s'.journal[k] == s.journal[k];
    assert s'.confirmed[k] == s.confirmed[k];
    var v := Vouched(s.cells[k]);
    if v.Claimed? {
      ReadsKept(b, s, s', j, k, v);
    }
    var c := s.cells[k];
    if c.status == Unconfirmed && c.phase.Free? {
      AcceptedKept(b, s, s', j, k, s.confirmed[k], {});
    }
    if c.phase.Scanning? && !c.phase.conflict {
      AcceptedKept(b, s, s', j, k, c.phase.stamp, c.phase.todo);
    }
  }

  lemma FinalKept(b: BlockSpec, s: State, s': State, j: TxId)
    requires LocalChange(b, s, s', j)
    requires FinalityOk(b, s)
    requires s'.cells[j].status != Finality
    ensures FinalityOk(b, s')
  {
    forall k | 0 <= k < s'.finality ensures FinalOk(b, s', k) {
      assert FinalOk(b, s, k);
      assert s'.cells[k] == s.cells[k];
      var versions := s.cells[k].result.value.versions;
      forall l <- versions ensures Current(s'.mem, l, k, versions[l]) {
        CurrentBelow(s.mem, j, s'.mem[j], l, k, versions[l]);
      }
    }
  }

  /** The obligations that remain for a step of `j` once everyone else is out of the way. */
  ghost predicate OwnOk(b: BlockSpec, s: State, s': State, j: TxId) {
    && LocalChange(b, s, s', j) && Harmless(s, s', j)
    && s'.cells[j].status != Finality
    && CellOk(b, s', j) && ReadsOk(b, s', j) && ScanOk(s', j)
  }

  lemma LocalStep(b: BlockSpec, s: State, s': State, j: TxId)
    requires Inv(b, s)
    requires OwnOk(b, s, s', j)
    requires ClockOk(s') && TasksOk(s') && Consistent(s')
    ensures Inv(b, s')
  {
    hide CellOk, ReadsOk, ScanOk, FinalityOk, CommitOk, ClockOk, TasksOk, Consistent, Harmless, LowerGrows, Extends;
    forall k | 0 <= k < |b.txs| && k != j ensures CellOk(b, s', k) && ReadsOk(b, s', k) && ScanOk(s', k) {
      OthersKept(b, s, s', j, k);
    }
    FinalKept(b, s, s', j);
    CommitKept(b, s, s');
  }

  /** Tasks of other transactions stay valid; `j` may gain or lose its one task. */
  lemma TasksKept(s: State, s': State, j: TxId)
    requires TasksOk(s) && j < |s.cells| == |s'.cells|
    requires s'.cells == s.cells[j := s'.cells[j]]
    requires forall t <- s'.tasks :: t.txid != j ==> t in s.tasks && s'.tasks[t] == s.tasks[t]
    requires forall t <- s'.tasks :: t.txid == j ==> TaskOk(s', t) && s'.tasks[t] == 1
    ensures TasksOk(s')
  {
  }

  /** A transaction that is neither waiting for execution nor for validation has no task. */
  lemma NoTask(s: State, j: TxId)
    requires TasksOk(s) && j < |s.cells|
    requires !s.cells[j].phase.Free? || s.cells[j].status !in {Executing, Validating}
    ensures forall t <- s.tasks :: t.txid != j
  {
  }

  /** Handing out a task or noting an abort cause disturbs nothing else. */
  lemma Reframe(b: BlockSpec, s: State, s': State)
    requires Inv(b, s)
    requires s' == s.(tasks := s'.tasks, abort := s'.abort)
    requires TasksOk(s') && Consistent(s')
    ensures Inv(b, s')
  {
    hide CellGood, ReadsOk, ScanOk, CommitOk, FinalityOk, TasksOk, Consistent;
    forall j | 0 <= j < |b.txs| ensures CellOk(b, s', j) && ReadsOk(b, s', j) && ScanOk(s', j) {
      assert CellOk(b, s, j) && ReadsOk(b, s, j) && ScanOk(s, j);
      ReadsReframed(b, s, s', j);
      ScanReframed(s, s', j);
    }
    FinalsReframed(b, s, s');
    CommitKept(b, s, s');
  }

  lemma FinalsReframed(b: BlockSpec, s: State, s': State)
    requires Wellformed(b, s) && FinalityOk(b, s)
    requires s' == s.(tasks := s'.tasks, abort := s'.abort)
    ensures FinalityOk(b, s')
  {
    hide Current;
    forall j | 0 <= j < s.finality ensures FinalOk(b, s', j) && Ahead(s', j) {
      assert FinalOk(b, s, j) && Ahead(s, j);
    }
  }

  lemma ReadsReframed(b: BlockSpec, s: State, s': State, j: TxId)
    requires Wellformed(b, s) && j < |b.txs| && ReadsOk(b, s, j)
    requires s' == s.(tasks := s'.tasks, abort := s'.abort)
    ensures ReadsOk(b, s', j)
  {
  }

  lemma ScanReframed(s: State, s': State, j: TxId)
    requires j < |s.cells| == |s.lower| == |s.mem| == |s.confirmed| && ScanOk(s, j)
    requires s' == s.(tasks := s'.tasks, abort := s'.abort)
    ensures ScanOk(s', j)
  {
  }
}
