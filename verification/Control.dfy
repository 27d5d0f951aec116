/**
 * The life of one scheduler: a parallel phase that commits a prefix, then whatever the first abort
 * cause asks for. At every exit, state and outcomes describe the same sequential prefix.
 */
module Control {
  import opened Types
  import opened Publication
  import opened Reward
  import opened StateCache
  import opened WorldBlock
  import opened CommitLoop
  import opened Replay
  import opened SoundReads
  import opened LastAttempt

  datatype ErrorKind = Failure(error: EvmError) | Database | AlreadyStarted | PrefixMismatch

  datatype GrevmError = GrevmError(txid: TxId, kind: ErrorKind)

  datatype BlockResult = Completed | Stopped(error: GrevmError)

  /** An index to report: the last transaction stands in for one past the end. */
  function ClampTo(n: nat, index: nat): (r: TxId)
    ensures r <= index && (n > 0 ==> r < n) && (index < n ==> r == index)
  {
    if index < n then index else if n == 0 then 0 else n - 1
  }

  /** Once the reference has stopped it stays where it is. */
  lemma {:induction false} FatalStays(e: EvmBlock, j: nat, k: nat)
    requires j <= k <= |e.txs| && WorldReference(e, j).fatal.Some?
    ensures WorldReference(e, k) == WorldReference(e, j)
    decreases k
  {
    if j < k {
      FatalStays(e, j, k - 1);
    }
  }

  /** State and outcomes are those of the sequential execution of as many transactions. */
  ghost predicate IsPrefix(e: EvmBlock, outcomes: seq<TxOutcome>, w: World) {
    && |outcomes| <= |e.txs|
    && var r := WorldReference(e, |outcomes|);
    && r.fatal.None? && r.outcomes == outcomes && SameWorld(r.world, w)
  }

  /** The reference stops on the transaction after this prefix, with this error. */
  ghost predicate StopsAfter(e: EvmBlock, outcomes: seq<TxOutcome>, w: World, reason: nat) {
    && |outcomes| < |e.txs|
    && var r := WorldReference(e, |e.txs|);
    && r.fatal == Some(reason) && r.outcomes == outcomes && SameWorld(r.world, w)
  }

  /** Replaying one more transaction extends the prefix, or stops where the reference stops. */
  lemma PrefixStep(e: EvmBlock, outcomes: seq<TxOutcome>, w: World)
    requires IsPrefix(e, outcomes, w) && |outcomes| < |e.txs|
    ensures
      match ReplayMove(e, |outcomes|, w)
      case Done(o, receipt) =>
        forall v :: SameWorld(v, After(w, o, e.beneficiary)) ==> IsPrefix(e, outcomes + [Ran(receipt)], v)
      case Abort(InvalidTransaction(reason)) => IsPrefix(e, outcomes + [Skipped(reason)], w)
      case Abort(FatalError(reason)) => StopsAfter(e, outcomes, w, reason)
  {
    var k := |outcomes|;
    var r := WorldReference(e, k);
    ReplaySame(e, k, r.world, w);
    hide ReplayMove, After;
    match ReplayMove(e, k, w)
    case Done(o, receipt) =>
      AfterSame(r.world, w, o, e.beneficiary);
      forall v | SameWorld(v, After(w, o, e.beneficiary)) ensures IsPrefix(e, outcomes + [Ran(receipt)], v) {
        assert WorldReference(e, k + 1) == WorldStep(e, k, r);
      }
    case Abort(InvalidTransaction(reason)) =>
      assert WorldReference(e, k + 1) == WorldStep(e, k, r);
    case Abort(FatalError(reason)) =>
      assert WorldReference(e, k + 1) == WorldStep(e, k, r);
      FatalStays(e, k + 1, |e.txs|);
  }

  lemma {:induction false} OutcomesGrow(e: EvmBlock, j: nat, k: nat)
    requires j <= k <= |e.txs|
    ensures WorldReference(e, j).outcomes <= WorldReference(e, k).outcomes
    decreases k
  {
    if j < k {
      OutcomesGrow(e, j, k - 1);
      hide ReplayMove, After;
    }
  }

  /** The reference stops after this prefix exactly if replaying the next transaction ends in that error. */
  lemma StopsExactly(e: EvmBlock, outcomes: seq<TxOutcome>, w: World, reason: nat)
    requires IsPrefix(e, outcomes, w) && |outcomes| < |e.txs|
    ensures StopsAfter(e, outcomes, w, reason) <==> ReplayMove(e, |outcomes|, w) == Evm.Abort(FatalError(reason))
  {
    var k := |outcomes|;
    PrefixStep(e, outcomes, w);
    ReplaySame(e, k, WorldReference(e, k).world, w);
    OutcomesGrow(e, k + 1, |e.txs|);
    hide ReplayMove, After, SameWorld;
    assert WorldReference(e, k + 1) == WorldStep(e, k, WorldReference(e, k));
  }

  /** Every strict execution leaves an honest journal in the world the reference reaches it with. */
  ghost predicate HonestReplays(e: EvmBlock) {
    forall j: TxId :: j < |e.txs| ==> HonestJournal(e.txs[j].strict, WorldReference(e, j).world, e.codeOf)
  }

  lemma ReplayIsHonest(e: EvmBlock, outcomes: seq<TxOutcome>, w: World)
    requires HonestReplays(e) && IsPrefix(e, outcomes, w) && |outcomes| < |e.txs|
    ensures HonestJournal(e.txs[|outcomes|].strict, w, e.codeOf)
  {
    var j := |outcomes|;
    var v := WorldReference(e, j).world;
    assert HonestJournal(e.txs[j].strict, v, e.codeOf);
    ExecuteSame(e.txs[j].strict, v, w, e.codeOf, map[]);
  }

  // ----- the parallel phase -----

  /** The parallel phase is over: its threads have been joined, between two commits. */
  ghost predicate Joined(b: Block.BlockSpec, trace: seq<Protocol.State>, s: Protocol.State) {
    && Protocol.IsRun(b, trace) && s == trace[|trace| - 1]
    && s.ledger.applying.None?
    && (s.abort.Some? || s.ledger.committed == |b.txs|)
  }

  function Receipts(receipts: seq<Receipt>): seq<TxOutcome> {
    seq(|receipts|, i requires 0 <= i < |receipts| => Ran(receipts[i]))
  }

  /** Everything sound that a run has committed succeeds, with that receipt, on the world before it. */
  lemma LedgerSucceeds(e: EvmBlock, trace: seq<Protocol.State>, k: nat)
    requires HonestBlock(e) && Protocol.IsRun(BlockOf(e), trace) && k < |trace|
    requires SoundLedger(BlockOf(e), trace[k])
    ensures |trace[k].ledger.receipts| == trace[k].ledger.committed <= |e.txs| == |BlockOf(e).txs|
    ensures forall j :: 0 <= j < trace[k].ledger.committed ==> Succeeds(e, j, trace[k].ledger.receipts[j])
  {
    var ledger := trace[k].ledger;
    SoundLedgerIsSequential(e, trace, k);
    SameSize(e);
    hide HonestBlock, BlockOf, Protocol.IsRun, Succeeds, Block.SequentialAction, Block.SequentialOverlay, SoundLedger;
    forall j | 0 <= j < ledger.committed ensures Succeeds(e, j, ledger.receipts[j]) {
      assert Serializability.Commits(BlockOf(e), j, ledger.receipts[j]);
      CommitSucceeds(e, j, ledger.receipts[j]);
    }
  }

  /** If everything committed is sound it is sequential. */
  lemma SoundLedgerIsSequential(e: EvmBlock, trace: seq<Protocol.State>, k: nat)
    requires HonestBlock(e) && Protocol.IsRun(BlockOf(e), trace) && k < |trace|
    requires SoundLedger(BlockOf(e), trace[k])
    ensures
      var b, s := BlockOf(e), trace[k];
      && |s.ledger.receipts| == s.ledger.committed <= |s.cells| == |b.txs|
      && SteadyReads.SequentialBelow(b, s.cells, s.ledger.committed)
      && (forall j :: 0 <= j < s.ledger.committed ==> Serializability.Commits(b, j, s.ledger.receipts[j]))
      && (s.ledger.applying.None? ==> s.ledger.overlay == Block.SequentialOverlay(b, s.ledger.committed))
  {
    SameSize(e);
    hide HonestBlock, BlockOf, Protocol.IsRun, SoundBelow, SteadyReads.SequentialBelow, Serializability.Commits,
      Block.SequentialOverlay;
    Serializability.RunKeeps(BlockOf(e), trace, k);
    Serializability.CommittedPrefixIsFinal(BlockOf(e), trace, k);
    SoundIsSequential(e, trace[k], trace[k].ledger.committed);
    Serializability.CommitsInOrder(BlockOf(e), trace, k, trace[k].ledger.committed);
  }

  lemma SameSize(e: EvmBlock)
    ensures |BlockOf(e).txs| == |e.txs|
  {
  }

  /** A committed prefix is the prefix of the reference. */
  lemma CommittedIsPrefix(e: EvmBlock, receipts: seq<Receipt>, w: World)
    requires NonceOnly(e) && |receipts| <= |e.txs|
    requires forall j :: 0 <= j < |receipts| ==> Succeeds(e, j, receipts[j])
    requires SameWorld(w, SequentialWorld(e, |receipts|))
    ensures IsPrefix(e, Receipts(receipts), w)
  {
    PrefixIsReference(e, receipts);
    hide WorldReference, SequentialWorld, NonceOnly, Succeeds;
    assert WorldReference(e, |receipts|).outcomes == Receipts(receipts);
  }

  // ----- errors -----

  /** The error of the transaction that aborted the parallel phase, if its result still holds it. */
  function FatalErrorOf(s: Protocol.State): Option<EvmError> {
    match s.abort
    case Some(FatalEvmError(txid)) =>
      if txid < |s.cells| && s.cells[txid].result.Some? && s.cells[txid].result.value.execution.Failed?
      then Some(s.cells[txid].result.value.execution.error) else None
    case _ => None
  }

  /** The error is the fatal error on which sequential execution stops, after exactly these outcomes. */
  ghost predicate Replayed(e: EvmBlock, error: GrevmError, outcomes: seq<TxOutcome>, w: World) {
    && error.txid == |outcomes| && error.kind.Failure? && error.kind.error.FatalError?
    && StopsAfter(e, outcomes, w, error.kind.error.reason)
  }

  /**
   * The failed result of `j` is that of an execution that began when everything before `j` was final,
   * and the nonce of `j` fits.
   */
  ghost predicate Genuine(e: EvmBlock, trace: seq<Protocol.State>, j: TxId) {
    && j < |e.txs| && FailedLate(BlockOf(e), trace, j)
    && NonceMatches(e, e.txs[j], SequentialWorld(e, j).accounts(e.txs[j].sender))
  }

  /** The error of such a result is what replay meets on that transaction, which is the next to commit. */
  lemma GenuineIsMet(e: EvmBlock, trace: seq<Protocol.State>, s: Protocol.State, j: TxId)
    requires HonestBlock(e) && NonceOnly(e) && Joined(BlockOf(e), trace, s) && SoundLedger(BlockOf(e), s)
    requires s.abort == Some(Protocol.FatalEvmError(j)) && FatalErrorOf(s).Some? && Genuine(e, trace, j)
    ensures j == s.ledger.committed && ReplayMove(e, j, SequentialWorld(e, j)) == Evm.Abort(FatalErrorOf(s).value)
  {
    var b, error := BlockOf(e), FatalErrorOf(s).value;
    SameSize(e);
    hide HonestBlock, NonceOnly, BlockOf, SequentialWorld, WorkerEnding, ReplayMove, Block.SequentialAction, FailedLate;
    AtCommitHead(b, trace, j);
    SoundLedgerIsSequential(e, trace, |trace| - 1);
    SteadyReads.SequentialSooner(b, s.cells, j, s.ledger.committed);
    LateFailureIsSequential(b, trace, j, error);
    FailureIsSequential(e, j, error);
    ReplayFailsAlike(e, j, error);
  }

  lemma AtCommitHead(b: Block.BlockSpec, trace: seq<Protocol.State>, j: TxId)
    requires Protocol.IsRun(b, trace) && |trace| > 0
    requires trace[|trace| - 1].abort == Some(Protocol.FatalEvmError(j))
    ensures j <= trace[|trace| - 1].ledger.committed
  {
    Serializability.RunKeeps(b, trace, |trace| - 1);
    Serializability.Parts(b, trace[|trace| - 1]);
  }

  /** Where an error after the parallel phase comes from; a `genuine` fatal error is the reference's. */
  ghost predicate CausedBy(
    e: EvmBlock, error: GrevmError, abort: Option<Protocol.AbortReason>, fatal: Option<EvmError>, genuine: bool,
    committed: seq<TxOutcome>, outcomes: seq<TxOutcome>, w: World)
  {
    && abort.Some?
    && match abort.value
       case CommitError(txid) => error == GrevmError(txid, Database) && outcomes == committed
       case FatalEvmError(txid) =>
         if fatal.Some? then
           && error == GrevmError(txid, Failure(fatal.value)) && outcomes == committed
           && (genuine && fatal.value.FatalError? ==> Replayed(e, error, outcomes, w))
         else Replayed(e, error, outcomes, w)
       case _ => Replayed(e, error, outcomes, w)
  }

  /** Where an error of a whole execution comes from; the commit loop's own error comes first. */
  ghost predicate Reported(
    e: EvmBlock, trace: seq<Protocol.State>, s: Protocol.State, error: GrevmError, outcomes: seq<TxOutcome>, w: World)
  {
    if s.ledger.failed then
      error == GrevmError(s.ledger.committed, Database) && outcomes == Receipts(s.ledger.receipts)
    else
      CausedBy(
        e, error, s.abort, FatalErrorOf(s), GenuineAt(e, trace, s), Receipts(s.ledger.receipts), outcomes, w)
  }

  /** The last result of `j` is this error. */
  predicate EndedIn(s: Protocol.State, j: TxId, error: EvmError) {
    j < |s.cells| && s.cells[j].result.Some? && s.cells[j].result.value.execution == Protocol.Failed(error)
  }

  /**
   * What stops the block without replay: the commit loop's own error; else, as the first abort cause, a
   * failed commit, or a fatal error that is still the result of its transaction.
   */
  ghost predicate StopsAtOnce(s: Protocol.State, result: BlockResult, outcomes: seq<TxOutcome>) {
    && (s.ledger.failed ==> result == Stopped(GrevmError(s.ledger.committed, Database)))
    && (forall j: TxId :: !s.ledger.failed && s.abort == Some(Protocol.CommitError(j)) ==>
          result == Stopped(GrevmError(j, Database)))
    && (forall j: TxId, error: EvmError ::
          !s.ledger.failed && s.abort == Some(Protocol.FatalEvmError(j)) && EndedIn(s, j, error) ==>
            result == Stopped(GrevmError(j, Failure(error))) && outcomes == Receipts(s.ledger.receipts))
  }

  lemma StopsByCause(s: Protocol.State, result: BlockResult, outcomes: seq<TxOutcome>)
    requires s.ledger.failed ==> result == Stopped(GrevmError(s.ledger.committed, Database))
    requires !s.ledger.failed && s.abort.Some? && s.abort.value.CommitError? ==>
      result == Stopped(GrevmError(s.abort.value.txid, Database))
    requires !s.ledger.failed && s.abort.Some? && s.abort.value.FatalEvmError? && FatalErrorOf(s).Some? ==>
      && result == Stopped(GrevmError(s.abort.value.txid, Failure(FatalErrorOf(s).value)))
      && outcomes == Receipts(s.ledger.receipts)
    ensures StopsAtOnce(s, result, outcomes)
  {
  }

  ghost predicate GenuineAt(e: EvmBlock, trace: seq<Protocol.State>, s: Protocol.State) {
    s.abort.Some? && s.abort.value.FatalEvmError? && Genuine(e, trace, s.abort.value.txid)
  }

  // ----- the scheduler -----

  class Scheduler {
    const e: EvmBlock
    const forceSequential: bool
    const minParallel: nat
    const state: ParallelState
    var started: bool
    var results: seq<TxOutcome>
    var committedIdx: nat

    /** State and outcomes describe one sequential prefix, and nothing happens before the start. */
    ghost predicate Valid()
      reads this, state
    {
      state.Valid() && IsPrefix(e, results, state.world) && (!started ==> results == [])
    }

    /** Whether a parallel phase runs at all. */
    predicate Parallel() {
      !forceSequential && |e.txs| >= minParallel
    }

    constructor (e: EvmBlock, forceSequential: bool, minParallel: nat)
      requires NoOrphanSlots(e.start)
      ensures Valid() && !started && results == [] && fresh(state)
      ensures this.e == e && this.forceSequential == forceSequential && this.minParallel == minParallel
    {
      this.e, this.forceSequential, this.minParallel := e, forceSequential, minParallel;
      started, results, committedIdx := false, [], 0;
      state := new ParallelState(e.start);
    }

    /** One transaction of the replay loop; the prefix grows by its outcome, or the block stops. */
    method ReplayNext(outcomes: seq<TxOutcome>) returns (outcome: Option<TxOutcome>, fatal: nat)
      requires HonestReplays(e) && state.Valid()
      requires IsPrefix(e, outcomes, state.world) && |outcomes| < |e.txs|
      modifies state
      ensures state.Valid()
      ensures outcome.Some? ==> IsPrefix(e, outcomes + [outcome.value], state.world)
      ensures outcome.None? ==>
        IsPrefix(e, outcomes, state.world) && StopsAfter(e, outcomes, state.world, fatal)
    {
      fatal := 0;
      ReplayIsHonest(e, outcomes, state.world);
      PrefixStep(e, outcomes, state.world);
      hide IsPrefix, StopsAfter, HonestJournal, HonestReplays, ReplayMove, SameWorld;
      var m := ReplayOne(e, |outcomes|, state);
      match m
      case Done(_, receipt) => outcome := Some(Ran(receipt));
      case Abort(InvalidTransaction(reason)) => outcome := Some(Skipped(reason));
      case Abort(FatalError(reason)) => outcome, fatal := None, reason;
    }

    /** Execute the rest of the block one transaction at a time, from the committed boundary. */
    method ReplaySuffix(start: nat) returns (result: BlockResult)
      requires HonestReplays(e) && state.Valid() && IsPrefix(e, results, state.world)
      modifies this`results, state
      ensures state.Valid() && IsPrefix(e, results, state.world) && old(results) <= results
      ensures start != |old(results)| ==>
        && result == Stopped(GrevmError(ClampTo(|e.txs|, start), PrefixMismatch))
        && results == old(results) && state.world == old(state.world)
      ensures start == |old(results)| && result.Stopped? ==> Replayed(e, result.error, results, state.world)
      ensures result.Completed? ==> |results| == |e.txs|
    {
      if start > |e.txs| || |results| != start {
        return Stopped(GrevmError(ClampTo(|e.txs|, start), PrefixMismatch));
      }
      hide HonestReplays, StopsAfter, SameWorld, WorldReference;
      var outcomes := results;
      result := Completed;
      while |outcomes| < |e.txs| && result.Completed?
        invariant state.Valid() && IsPrefix(e, outcomes, state.world) && results <= outcomes
        invariant result.Stopped? ==> Replayed(e, result.error, outcomes, state.world)
        invariant results == old(results) && |outcomes| <= |e.txs|
        decreases |e.txs| - |outcomes|, result.Completed?
      {
        var outcome, fatal := ReplayNext(outcomes);
        if outcome.Some? {
          outcomes := outcomes + [outcome.value];
        } else {
          result := Stopped(GrevmError(|outcomes|, Failure(FatalError(fatal))));
        }
      }
      results := outcomes;
    }

    /** Replay, or report, according to the first abort cause. */
    method PostExecute(
      committed: nat, abort: Option<Protocol.AbortReason>, fatal: Option<EvmError>, ghost genuine: bool)
      returns (result: BlockResult)
      requires HonestReplays(e) && state.Valid() && IsPrefix(e, results, state.world) && committed == |results|
      requires abort.None? ==> committed == |e.txs|
      requires genuine && abort.Some? && abort.value.FatalEvmError? && fatal.Some? ==>
        && abort.value.txid == committed < |e.txs|
        && ReplayMove(e, committed, state.world) == Evm.Abort(fatal.value)
      modifies this`results, state
      ensures state.Valid() && IsPrefix(e, results, state.world) && old(results) <= results
      ensures result.Completed? ==> |results| == |e.txs|
      ensures result.Stopped? ==> CausedBy(e, result.error, abort, fatal, genuine, old(results), results, state.world)
      ensures abort.Some? && abort.value.CommitError? ==> result == Stopped(GrevmError(abort.value.txid, Database))
      ensures abort.Some? && abort.value.FatalEvmError? && fatal.Some? ==>
        result == Stopped(GrevmError(abort.value.txid, Failure(fatal.value))) && results == old(results)
    {
      match abort
      case None => result := Completed;
      case Some(FatalEvmError(txid)) =>
        if fatal.Some? {
          if genuine && fatal.value.FatalError? {
            StopsExactly(e, results, state.world, fatal.value.reason);
          }
          return Stopped(GrevmError(txid, Failure(fatal.value)));
        }
        result := ReplaySuffix(committed);
      case Some(CommitError(txid)) => result := Stopped(GrevmError(txid, Database));
      case Some(ParallelError(_)) => result := ReplaySuffix(committed);
      case Some(FallbackSequential) => result := ReplaySuffix(committed);
    }

    /** Commit what the joined run committed, then recover from its boundary. */
    method FinishParallel(s: Protocol.State, ghost trace: seq<Protocol.State>) returns (result: BlockResult)
      requires HonestReplays(e) && state.Valid() && IsPrefix(e, results, state.world) && results == []
      requires HonestBlock(e) && NonceOnly(e) && Joined(BlockOf(e), trace, s) && SoundLedger(BlockOf(e), s)
      modifies this`results, this`committedIdx, state
      ensures state.Valid() && IsPrefix(e, results, state.world)
      ensures result.Completed? ==> |results| == |e.txs|
      ensures result.Stopped? ==> Reported(e, trace, s, result.error, results, state.world)
      ensures StopsAtOnce(s, result, results)
    {
      LedgerSucceeds(e, trace, |trace| - 1);
      assert SameWorld(state.world, e.start);
      hide HonestBlock, NonceOnly, HonestReplays, BlockOf, Succeeds, SequentialWorld, WorldReference, SameWorld,
        IsPrefix, StopsAtOnce, CausedBy, Genuine, FatalErrorOf;
      var outcomes := CommitPrefix(e, s.ledger.receipts, state);
      CommittedIsPrefix(e, s.ledger.receipts, state.world);
      assert outcomes == Receipts(s.ledger.receipts);
      // The outcomes name the published boundary, and are installed once.
      assert |outcomes| == s.ledger.committed && results == [];
      results, committedIdx := outcomes, s.ledger.committed;
      if s.ledger.failed {
        result := Stopped(GrevmError(s.ledger.committed, Database));
        StopsByCause(s, result, results);
        return;
      }
      ghost var genuine := GenuineAt(e, trace, s);
      if genuine && FatalErrorOf(s).Some? {
        GenuineIsMet(e, trace, s, s.abort.value.txid);
        ReplaySame(e, s.ledger.committed, state.world, SequentialWorld(e, s.ledger.committed));
      }
      result := PostExecute(s.ledger.committed, s.abort, FatalErrorOf(s), genuine);
      StopsByCause(s, result, results);
    }

    /** One attempt at the block: in parallel, or sequentially if that is forced or the block is small. */
    method ParallelExecuteInner(s: Protocol.State, ghost trace: seq<Protocol.State>, anchorFails: bool)
      returns (result: BlockResult)
      requires HonestReplays(e) && state.Valid() && IsPrefix(e, results, state.world) && results == []
      requires Parallel() && !anchorFails ==>
        HonestBlock(e) && NonceOnly(e) && Joined(BlockOf(e), trace, s) && SoundLedger(BlockOf(e), s)
      modifies this`results, this`committedIdx, state
      ensures state.Valid() && IsPrefix(e, results, state.world)
      ensures result.Completed? ==> |results| == |e.txs|
      ensures !Parallel() && result.Stopped? ==> Replayed(e, result.error, results, state.world)
      ensures Parallel() && anchorFails ==> result == Stopped(GrevmError(0, Database)) && results == []
      ensures Parallel() && !anchorFails && result.Stopped? ==>
        Reported(e, trace, s, result.error, results, state.world)
      ensures Parallel() && !anchorFails ==> StopsAtOnce(s, result, results)
    {
      if forceSequential || |e.txs| < minParallel {
        result := ReplaySuffix(0);
        return;
      }
      if anchorFails {
        return Stopped(GrevmError(0, Database));
      }
      result := FinishParallel(s, trace);
    }

    /** Only the first call runs; a later one changes nothing. */
    method ParallelExecute(s: Protocol.State, ghost trace: seq<Protocol.State>, anchorFails: bool)
      returns (result: BlockResult)
      requires Valid() && HonestReplays(e)
      requires Parallel() && !anchorFails ==>
        HonestBlock(e) && NonceOnly(e) && Joined(BlockOf(e), trace, s) && SoundLedger(BlockOf(e), s)
      modifies this, state
      ensures Valid() && started && IsPrefix(e, results, state.world)
      ensures old(started) ==>
        && result == Stopped(GrevmError(ClampTo(|e.txs|, old(committedIdx)), AlreadyStarted))
        && results == old(results) && state.world == old(state.world)
      ensures result.Completed? ==> |results| == |e.txs|
      ensures !old(started) && result.Stopped? ==>
        if !Parallel() then Replayed(e, result.error, results, state.world)
        else if anchorFails then result == Stopped(GrevmError(0, Database)) && results == []
        else Reported(e, trace, s, result.error, results, state.world)
      ensures !old(started) && Parallel() && !anchorFails ==> StopsAtOnce(s, result, results)
    {
      if started {
        return Stopped(GrevmError(ClampTo(|e.txs|, committedIdx), AlreadyStarted));
      }
      started := true;
      result := ParallelExecuteInner(s, trace, anchorFails);
    }
  }
}
