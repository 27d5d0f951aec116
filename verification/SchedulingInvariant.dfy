/** What every step of the scheduler keeps: nothing that must run again is ever forgotten. */
module SchedulingInvariant {
  import opened Types
  import opened DependencyGraph
  import opened Scheduling

  // ----- one transaction -----

  predicate RewindOk(tx: Tx, n: nat, i: TxId, target: TxId, next: Then) {
    && target < n
    && (|| (tx.status.Executed? && target == i && !next.Relink?)
        || (tx.status.Conflict? && target == i + 1 && !next.Pass?))
  }

  predicate PhaseOk(tx: Tx, n: nat, i: TxId) {
    match tx.phase
    case Free => !tx.status.Executing? && !tx.status.Validating?
    case Pending => tx.status.Executing? || tx.status.Validating?
    case Running => tx.status.Executing?
    case Sweeping(_) => tx.status.Executing?
    case Noting(_) => tx.status.Executing?
    case Stamping(target, next) => RewindOk(tx, n, i, target, next)
    case Lowering(target, next, _) => RewindOk(tx, n, i, target, next)
    case Rewinding(target, next) => RewindOk(tx, n, i, target, next)
    case Scanning(_) => tx.status.Validating?
    case Linking => tx.status.Conflict?
  }

  predicate TxOk(s: State, i: TxId)
    requires Wellformed(s) && i < |s.txs|
  {
    var tx := s.txs[i];
    && PhaseOk(tx, |s.txs|, i)
    && (tx.status.Finality? <==> i < s.prefix.finality)
    && (!tx.status.Initial? && !tx.status.Executing? ==> tx.executed)
    && (tx.phase.Sweeping? ==> s.sweeps[i].Some?)
  }

  predicate TxsOk(s: State) {
    Wellformed(s) && forall i :: 0 <= i < |s.txs| ==> TxOk(s, i)
  }

  // ----- retries -----

  /** The transaction must be executed again, and its lock holder has already said so to the graph. */
  predicate Waiting(tx: Tx) {
    match tx.phase
    case Free => tx.status.Initial? || tx.status.Conflict?
    case Noting(ending) => ending.Retry?
    case Stamping(_, next) => tx.status.Conflict? && next.Unlock?
    case Lowering(_, next, _) => tx.status.Conflict? && next.Unlock?
    case Rewinding(_, next) => tx.status.Conflict? && next.Unlock?
    case _ => false
  }

  /** An attempt is out that has yet to release the transaction's dependents or retry. */
  predicate Owned(tx: Tx) {
    tx.phase.Running? || (tx.phase.Pending? && tx.status.Executing?)
  }

  /** Somebody will come to `d` and either run it or release its dependents. */
  predicate Active(s: State, d: TxId)
    requires Wellformed(s) && d < |s.txs|
  {
    || s.graph.dependents[d].onboard
    || d in s.claims.handed || d in s.claims.releasing
    || Owned(s.txs[d])
  }

  /** A transaction that must run again is in the graph, or a worker is carrying it. */
  predicate RetryOk(s: State, i: TxId)
    requires Wellformed(s) && i < |s.txs|
  {
    Waiting(s.txs[i]) ==> s.graph.dependents[i].onboard || i in s.claims.handed
  }

  /** An unblocked transaction of the graph is still ahead of the cursor, or was just taken from it. */
  predicate ReadyOk(s: State, i: TxId)
    requires Wellformed(s) && i < |s.txs|
  {
    Claimable(s.graph, i) ==> s.graph.index <= i || i in s.claims.fetched
  }

  /** The commit that lifts the barrier at `i` is still to come. */
  predicate Barred(p: Prefix, i: TxId) {
    p.committed < i || (p.committed == i && p.releasePending)
  }

  /** A blocked transaction has an edge from its blocker, and the blocker is not forgotten either. */
  predicate EdgeOk(s: State, i: TxId, d: TxId)
    requires Wellformed(s) && i < |s.txs|
  {
    && d < i && i in s.graph.affects[d]
    && (if s.sweeps[d].Some? then i in s.sweeps[d].value else Active(s, d))
  }

  predicate BlockOk(s: State, i: TxId)
    requires Wellformed(s) && i < |s.txs|
  {
    var dep := s.graph.dependents[i];
    dep.blocker.Some? ==>
      && dep.onboard
      && (if dep.blocker.value == i then Barred(s.prefix, i) else EdgeOk(s, i, dep.blocker.value))
  }

  predicate EntryOk(s: State, i: TxId)
    requires Wellformed(s) && i < |s.txs|
  {
    RetryOk(s, i) && ReadyOk(s, i) && BlockOk(s, i)
  }

  predicate GraphOk(s: State) {
    Wellformed(s) && forall i :: 0 <= i < |s.txs| ==> EntryOk(s, i)
  }

  // ----- validation -----

  /** A rewind of `j` or of something before it is not older than `ts`. */
  ghost predicate Stale(lower: seq<nat>, j: TxId, ts: nat) {
    exists k :: 0 <= k <= j && k < |lower| && lower[k] >= ts
  }

  /** The validation cursor must still come to `j`. */
  ghost predicate NeedsCheck(tx: Tx, lower: seq<nat>, confirmed: nat, j: TxId) {
    match tx.phase
    case Free => tx.status.Executed? || (tx.status.Unconfirmed? && Stale(lower, j, confirmed))
    case Scanning(stamp) => Stale(lower, j, stamp)
    case _ => false
  }

  predicate RewindsTo(phase: Phase, j: TxId) {
    phase.Rewinding? && phase.target <= j
  }

  /** The cursor is at or before `j`, has just been taken at `j`, or is about to move back. */
  ghost predicate Covered(s: State, j: TxId) {
    || s.stamps.cursor <= j || j in s.claims.checking
    || exists i :: 0 <= i < |s.txs| && RewindsTo(s.txs[i].phase, j)
  }

  ghost predicate CheckOk(s: State, j: TxId)
    requires Wellformed(s) && j < |s.txs|
  {
    NeedsCheck(s.txs[j], s.stamps.lower, s.stamps.confirmed[j], j) ==> Covered(s, j)
  }

  predicate StampOk(s: State, j: TxId)
    requires Wellformed(s) && j < |s.txs|
  {
    && s.stamps.lower[j] < s.stamps.clock && s.stamps.confirmed[j] < s.stamps.clock
    && match s.txs[j].phase
       case Lowering(_, _, stamp) => stamp < s.stamps.clock
       case Scanning(stamp) => s.stamps.confirmed[j] < stamp < s.stamps.clock
       case Free => s.txs[j].status.Unconfirmed? ==> s.stamps.confirmed[j] > 0
       case _ => true
  }

  /** The finality loop's running maximum is the stamp of a rewind inside the final prefix. */
  ghost predicate LowerTsOk(s: State) {
    && s.prefix.finality <= |s.stamps.lower|
    && (|| s.prefix.lowerTs == 0
        || exists k :: 0 <= k < s.prefix.finality && s.stamps.lower[k] == s.prefix.lowerTs)
  }

  ghost predicate ChecksOk(s: State) {
    && Wellformed(s)
    && (forall j :: 0 <= j < |s.txs| ==> CheckOk(s, j))
    && (forall j :: 0 <= j < |s.txs| ==> StampOk(s, j))
    && s.stamps.clock > 0
    && LowerTsOk(s)
  }

  predicate PrefixOk(s: State) {
    && s.prefix.committed <= s.prefix.finality <= |s.txs|
    && (s.prefix.releasePending ==> s.prefix.committed > 0)
  }

  ghost predicate Inv(s: State) {
    TxsOk(s) && GraphOk(s) && ChecksOk(s) && PrefixOk(s)
  }

  lemma InitOk(n: nat)
    ensures Inv(InitState(n))
  {
  }

  // ----- frames -----

  /** The transactions of `s'` are those of `s`, except at `i`. */
  predicate Moved(s: State, s': State, i: TxId) {
    && Wellformed(s) && Wellformed(s') && i < |s.txs| == |s'.txs|
    && forall k :: 0 <= k < |s.txs| && k != i ==> s'.txs[k] == s.txs[k]
  }

  lemma TxsFrame(s: State, s': State, i: TxId)
    requires TxsOk(s) && Moved(s, s', i)
    requires s'.prefix.finality == s.prefix.finality
    requires forall k :: 0 <= k < |s.txs| && k != i && s.sweeps[k].Some? ==> s'.sweeps[k].Some?
    requires TxOk(s', i)
    ensures TxsOk(s')
  {
    forall k | 0 <= k < |s'.txs| ensures TxOk(s', k) {
      assert TxOk(s, k);
    }
  }

  /** A step of `i` inside its lock that neither drops an attempt nor starts waiting. */
  lemma GraphFrame(s: State, s': State, i: TxId)
    requires GraphOk(s) && Moved(s, s', i)
    requires s'.graph == s.graph && s'.sweeps == s.sweeps
    requires s'.claims.fetched == s.claims.fetched && s'.claims.handed == s.claims.handed
    requires s'.claims.releasing == s.claims.releasing
    requires s'.prefix.committed == s.prefix.committed && s'.prefix.releasePending == s.prefix.releasePending
    requires Owned(s.txs[i]) ==> Owned(s'.txs[i])
    requires Waiting(s'.txs[i]) ==> Waiting(s.txs[i])
    ensures GraphOk(s')
  {
    forall k | 0 <= k < |s'.txs| ensures EntryOk(s', k) {
      assert EntryOk(s, k);
    }
  }

  /** A step of `i` that leaves cursor and timestamps alone and does not drop a rewind. */
  lemma ChecksFrame(s: State, s': State, i: TxId)
    requires ChecksOk(s) && Moved(s, s', i)
    requires s'.stamps.lower == s.stamps.lower && s'.stamps.confirmed == s.stamps.confirmed
    requires s'.stamps.cursor == s.stamps.cursor && s'.stamps.clock >= s.stamps.clock
    requires forall k <- s.claims.checking :: k != i ==> k in s'.claims.checking
    requires s'.prefix.finality == s.prefix.finality && s'.prefix.lowerTs == s.prefix.lowerTs
    requires !s.txs[i].phase.Rewinding? || s'.txs[i] == s.txs[i]
    requires CheckOk(s', i) && StampOk(s', i)
    ensures ChecksOk(s')
  {
    forall k | 0 <= k < |s'.txs| ensures CheckOk(s', k) && StampOk(s', k) {
      assert CheckOk(s, k) && StampOk(s, k);
      if exists m :: 0 <= m < |s.txs| && RewindsTo(s.txs[m].phase, k) {
        var m :| 0 <= m < |s.txs| && RewindsTo(s.txs[m].phase, k);
        assert RewindsTo(s'.txs[m].phase, k);
      }
    }
  }
}
