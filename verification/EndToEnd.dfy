/**
 * The whole path: transactions over accounts and slots, run in parallel over multi-version memory,
 * committed in order, replayed where needed. What comes out is sequential execution on the accounts.
 */
module EndToEnd {
  import opened Types
  import opened Publication
  import opened Reward
  import opened StateCache
  import opened WorldBlock
  import opened Control
  import opened SoundReads
  import opened AbortCause

  /** Resolving `overlay` gives the world after the sequential execution that has these outcomes. */
  ghost predicate ResolvesTo(e: EvmBlock, outcomes: seq<TxOutcome>, overlay: map<Location, Value>) {
    && |outcomes| <= |e.txs|
    && var r := WorldReference(e, |outcomes|);
    && r.fatal.None? && r.outcomes == outcomes
    && Represents(Lowering.ViewOf(BlockOf(e), overlay), e.beneficiary, |outcomes|, r.world)
  }

  lemma RepresentsSame(view: View, beneficiary: Address, k: nat, v: World, w: World)
    requires Represents(view, beneficiary, k, v) && SameWorld(v, w)
    ensures Represents(view, beneficiary, k, w)
  {
    forall a ensures ResolveAccount(view, beneficiary, k, a) == w.accounts(a) {
      assert ResolveAccount(view, beneficiary, k, a) == v.accounts(a);
    }
  }

  lemma OverlayResolves(e: EvmBlock, receipts: seq<Receipt>, overlay: map<Location, Value>)
    requires NonceOnly(e) && |receipts| <= |e.txs|
    requires forall j :: 0 <= j < |receipts| ==> Succeeds(e, j, receipts[j])
    requires StandsFor(e, overlay, |receipts|, SequentialWorld(e, |receipts|))
    ensures ResolvesTo(e, Receipts(receipts), overlay)
  {
    var w := SequentialWorld(e, |receipts|);
    CommittedIsPrefix(e, receipts, w);
    hide Represents, SameWorld, WorldReference, SequentialWorld, BlockOf, NonceOnly, Succeeds;
    var v := WorldReference(e, |receipts|).world;
    SameBack(v, w);
    RepresentsSame(Lowering.ViewOf(BlockOf(e), overlay), e.beneficiary, |receipts|, w, v);
  }

  lemma SameBack(v: World, w: World)
    requires SameWorld(v, w)
    ensures SameWorld(w, v)
  {
  }

  /**
   * Serializability of the accounts. In every state of every run, between two commits, the receipts
   * are those of executing the committed prefix in order, with nonces checked and the beneficiary
   * paid at once, and every account and every slot resolved from the committed state has the value
   * that execution gives it.
   */
  lemma CommittedAccountsAreSequential(e: EvmBlock, trace: seq<Protocol.State>, k: nat)
    requires HonestBlock(e) && NonceOnly(e) && Protocol.IsRun(BlockOf(e), trace) && k < |trace|
    requires SoundLedger(BlockOf(e), trace[k])
    requires trace[k].ledger.applying.None?
    ensures ResolvesTo(e, Receipts(trace[k].ledger.receipts), trace[k].ledger.overlay)
    ensures |trace[k].ledger.receipts| == trace[k].ledger.committed
  {
    hide *;
    var ledger := trace[k].ledger;
    LedgerSucceeds(e, trace, k);
    SoundLedgerIsSequential(e, trace, k);
    SequentialStands(e, ledger.committed);
    OverlayResolves(e, ledger.receipts, ledger.overlay);
  }

  /** No execution, in the run or in order, ends in a fatal error, and the database always answers. */
  ghost predicate Clean(e: EvmBlock, parallel: bool, trace: seq<Protocol.State>, anchorFails: bool) {
    && WorldReference(e, |e.txs|).fatal.None?
    && (parallel ==> !anchorFails && NeverFatal(trace) && NeverStarved(trace))
  }

  lemma CleanIsNotReplayed(e: EvmBlock, error: GrevmError, outcomes: seq<TxOutcome>, w: World)
    requires WorldReference(e, |e.txs|).fatal.None?
    ensures !Replayed(e, error, outcomes, w)
  {
  }

  lemma CleanIsNotReported(
    e: EvmBlock, trace: seq<Protocol.State>, s: Protocol.State, error: GrevmError, outcomes: seq<TxOutcome>, w: World)
    requires Clean(e, true, trace, false) && Joined(BlockOf(e), trace, s)
    ensures !Reported(e, trace, s, error, outcomes, w)
  {
    var last := |trace| - 1;
    CleanRunFallsBack(BlockOf(e), trace, last);
    CleanAt(trace, last);
    CleanIsNotReplayed(e, error, outcomes, w);
    hide Replayed, GenuineAt, NeverFatal, NeverStarved, Protocol.IsRun;
  }

  lemma CleanStops(
    e: EvmBlock, forceSequential: bool, minParallel: nat, s: Protocol.State, trace: seq<Protocol.State>,
    anchorFails: bool, error: GrevmError, outcomes: seq<TxOutcome>, w: World)
    requires Clean(e, !forceSequential && |e.txs| >= minParallel, trace, anchorFails)
    requires !forceSequential && |e.txs| >= minParallel ==> Joined(BlockOf(e), trace, s)
    ensures
      if forceSequential || |e.txs| < minParallel then !Replayed(e, error, outcomes, w)
      else !anchorFails && !Reported(e, trace, s, error, outcomes, w)
  {
    if forceSequential || |e.txs| < minParallel {
      CleanIsNotReplayed(e, error, outcomes, w);
    } else {
      CleanIsNotReported(e, trace, s, error, outcomes, w);
    }
  }

  /**
   * Execute a block. On completion the outcomes are those of the sequential execution that skips
   * invalid transactions, and the state answers like its world; otherwise both are a prefix of it.
   * Whatever transactions are invalid, only a fatal error or the database keeps it from completing.
   */
  method ExecuteBlock(
    e: EvmBlock, forceSequential: bool, minParallel: nat, s: Protocol.State, ghost trace: seq<Protocol.State>,
    anchorFails: bool)
    returns (result: BlockResult, outcomes: seq<TxOutcome>, state: ParallelState)
    requires NoOrphanSlots(e.start) && HonestReplays(e)
    requires !forceSequential && |e.txs| >= minParallel && !anchorFails ==>
      HonestBlock(e) && NonceOnly(e) && Joined(BlockOf(e), trace, s) && SoundLedger(BlockOf(e), s)
    ensures state.Valid() && IsPrefix(e, outcomes, state.world)
    ensures result.Completed? ==> |outcomes| == |e.txs|
    ensures Clean(e, !forceSequential && |e.txs| >= minParallel, trace, anchorFails) ==> result.Completed?
    ensures result.Stopped? ==>
      if forceSequential || |e.txs| < minParallel then Replayed(e, result.error, outcomes, state.world)
      else if anchorFails then result == Stopped(GrevmError(0, Database)) && outcomes == []
      else Reported(e, trace, s, result.error, outcomes, state.world)
    ensures !forceSequential && |e.txs| >= minParallel && !anchorFails ==> StopsAtOnce(s, result, outcomes)
  {
    var scheduler := new Scheduler(e, forceSequential, minParallel);
    hide *;
    result := scheduler.ParallelExecute(s, trace, anchorFails);
    outcomes, state := scheduler.results, scheduler.state;
    if result.Stopped? && Clean(e, !forceSequential && |e.txs| >= minParallel, trace, anchorFails) {
      CleanStops(e, forceSequential, minParallel, s, trace, anchorFails, result.error, outcomes, state.world);
    }
  }
}
