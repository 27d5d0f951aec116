/**
 * The ordered commit loop over the shared cache. An account can be committed only if the cache holds
 * it; workers put it there when they read it from storage, and earlier commits did otherwise.
 */
module CommitLoop {
  import opened Types
  import opened Publication
  import opened Reward
  import opened Evm
  import opened Lowering
  import opened Settlement
  import opened StateCache
  import opened WorldBlock
  import opened OrderedCommit

  /** The accounts the final run of `j` loaded through the cache: those nobody before it had written. */
  function LoadedBy(e: EvmBlock, j: TxId): set<Address>
    requires j < |e.txs| == |BlockOf(e).txs|
  {
    var overlay := Block.SequentialOverlay(BlockOf(e), j);
    {e.beneficiary}
    + (set q <- WorkerEnding(e, j, SequentialWorld(e, j)).answers.Keys | q.AskAccount? && Basic(q.address) !in overlay
         :: q.address)
  }

  function OutcomeAt(e: EvmBlock, j: TxId): Outcome
    requires j < |e.txs| && WorkerEnding(e, j, SequentialWorld(e, j)).move.Done?
  {
    WorkerEnding(e, j, SequentialWorld(e, j)).move.outcome
  }

  /** Some run up to and including `j` loaded `a`. */
  ghost predicate LoadedUpTo(e: EvmBlock, j: TxId, a: Address)
    requires j < |e.txs| == |BlockOf(e).txs|
  {
    exists i: TxId :: i <= j && a in LoadedBy(e, i)
  }

  lemma LoadedSooner(e: EvmBlock, i: TxId, j: TxId, a: Address)
    requires i <= j < |e.txs| == |BlockOf(e).txs| && LoadedUpTo(e, i, a)
    ensures LoadedUpTo(e, j, a)
  {
  }

  /** What a run published under `Basic` belongs to an account it changed. */
  lemma OverlayStep(e: EvmBlock, j: TxId, a: Address)
    requires HonestBlock(e) && j < |e.txs| == |BlockOf(e).txs|
    requires Basic(a) in Block.SequentialOverlay(BlockOf(e), j + 1)
    ensures
      || Basic(a) in Block.SequentialOverlay(BlockOf(e), j)
      || (WorkerEnding(e, j, SequentialWorld(e, j)).move.Done? && a in OutcomeAt(e, j).changes)
  {
    var w, overlay := SequentialWorld(e, j), Block.SequentialOverlay(BlockOf(e), j);
    SequentialStands(e, j);
    LoweredAt(e, j);
    LoweringIsFaithful(BlockOf(e), SiteOf(e, j), Worker(e, j), overlay, w, e.codeOf);
    hide StandsFor, Execute, Block.Run, Lowered, HonestBlock, BlockOf, Worker;
  }

  lemma WorkersLoad(e: EvmBlock, j: TxId)
    requires HonestBlock(e) && j < |e.txs| && WorkerEnding(e, j, SequentialWorld(e, j)).move.Done?
    ensures OnlyLoaded(OutcomeAt(e, j).changes, WorkerEnding(e, j, SequentialWorld(e, j)).answers)
  {
    assert HonestAt(e, j);
    SettledIsLoaded(Deferred, e.beneficiary, e.txs[j].relaxed, SequentialWorld(e, j), e.codeOf);
  }

  lemma NothingWritten(e: EvmBlock)
    ensures Block.SequentialOverlay(BlockOf(e), 0) == map[]
  {
  }

  lemma LoadedFromStorage(e: EvmBlock, j: TxId, a: Address)
    requires j < |e.txs| == |BlockOf(e).txs| && Basic(a) !in Block.SequentialOverlay(BlockOf(e), j)
    requires AskAccount(a) in WorkerEnding(e, j, SequentialWorld(e, j)).answers
    ensures LoadedUpTo(e, j, a)
  {
    hide SequentialWorld, WorkerEnding, Block.SequentialOverlay, BlockOf;
    assert AskAccount(a) in WorkerEnding(e, j, SequentialWorld(e, j)).answers.Keys;
    assert a in LoadedBy(e, j);
  }

  /** Whatever a run before `j` wrote under `Basic` was loaded by it or by a run before it. */
  lemma {:induction false} WrittenWasLoaded(e: EvmBlock, j: TxId, a: Address)
    requires HonestBlock(e) && j < |e.txs| == |BlockOf(e).txs|
    requires Basic(a) in Block.SequentialOverlay(BlockOf(e), j)
    ensures LoadedUpTo(e, j, a)
    decreases j, 0
  {
    hide *;
    NothingWritten(e);
    if j > 0 {
      OverlayStep(e, j - 1, a);
      if Basic(a) in Block.SequentialOverlay(BlockOf(e), j - 1) {
        WrittenWasLoaded(e, j - 1, a);
      } else {
        ChangedWasLoaded(e, j - 1, a);
      }
      LoadedSooner(e, j - 1, j, a);
    }
  }

  /** Every account a successful run changes was loaded through the cache, by it or by a run before it. */
  lemma {:induction false} ChangedWasLoaded(e: EvmBlock, j: TxId, a: Address)
    requires HonestBlock(e) && j < |e.txs| == |BlockOf(e).txs|
    requires WorkerEnding(e, j, SequentialWorld(e, j)).move.Done? && a in OutcomeAt(e, j).changes
    ensures LoadedUpTo(e, j, a)
    decreases j, 1
  {
    hide *;
    WorkersLoad(e, j);
    LoadedMember(OutcomeAt(e, j).changes, WorkerEnding(e, j, SequentialWorld(e, j)).answers, a);
    if Basic(a) in Block.SequentialOverlay(BlockOf(e), j) {
      WrittenWasLoaded(e, j, a);
    } else {
      LoadedFromStorage(e, j, a);
    }
  }

  lemma LoadedMember(changes: Changes, answers: Answers, a: Address)
    requires OnlyLoaded(changes, answers) && a in changes
    ensures AskAccount(a) in answers
  {
  }

  // ----- the loop -----

  /** The cache holds everything the runs before `k` loaded. */
  ghost predicate CachedUpTo(e: EvmBlock, k: nat, accounts: AccountMap)
    requires k <= |e.txs| == |BlockOf(e).txs|
  {
    forall i: TxId :: i < k ==> LoadedBy(e, i) <= accounts.Keys
  }

  lemma ChangedAreCached(e: EvmBlock, j: TxId, accounts: AccountMap)
    requires HonestBlock(e) && j < |e.txs| == |BlockOf(e).txs| && CachedUpTo(e, j + 1, accounts)
    requires WorkerEnding(e, j, SequentialWorld(e, j)).move.Done?
    ensures OutcomeAt(e, j).changes.Keys <= accounts.Keys
  {
    hide HonestBlock, SequentialWorld, WorkerEnding, BlockOf, OutcomeAt, LoadedBy;
    forall a <- OutcomeAt(e, j).changes ensures a in accounts {
      ChangedWasLoaded(e, j, a);
    }
  }

  /** A worker's storage reads go through the shared cache before its transaction commits. */
  method Load(addresses: set<Address>, state: ParallelState)
    requires state.Valid()
    modifies state`accounts
    ensures state.Valid() && old(state.accounts).Keys + addresses <= state.accounts.Keys
  {
    var todo := addresses;
    while todo != {}
      invariant state.Valid() && old(state.accounts).Keys + (addresses - todo) <= state.accounts.Keys
      decreases |todo|
    {
      var a :| a in todo;
      ghost var before := state.accounts;
      var _ := state.Basic(a);
      assert before.Keys <= state.accounts.Keys;
      todo := todo - {a};
    }
  }

  /** What commit relies on about the outcome of `j`. */
  lemma OutcomeIsCommittable(e: EvmBlock, j: TxId, v: World)
    requires HonestBlock(e) && j < |e.txs| && WorkerEnding(e, j, SequentialWorld(e, j)).move.Done?
    requires SameWorld(v, SequentialWorld(e, j))
    ensures
      var o := OutcomeAt(e, j);
      && (o.reward.Some? ==> o.reward.value > 0 && e.beneficiary !in o.changes)
      && (forall a <- o.changes :: HonestSlots(o.changes[a], v, a))
      && SameWorld(After(v, o, e.beneficiary), SequentialWorld(e, j + 1))
  {
    var w := SequentialWorld(e, j);
    WorkersAreHonest(e, j);
    SettledExecutes(Deferred, e.beneficiary, e.txs[j].relaxed, w, e.codeOf);
    AfterSame(v, w, OutcomeAt(e, j), e.beneficiary);
    hide Execute, Settled, HonestBlock;
  }

  function EnvOf(tx: EvmTransaction): TxEnv {
    TxEnv(tx.sender, tx.nonce)
  }

  lemma CacheGrows(e: EvmBlock, j: TxId, before: AccountMap, accounts: AccountMap)
    requires j < |e.txs| == |BlockOf(e).txs| && CachedUpTo(e, j, before)
    requires before.Keys + LoadedBy(e, j) <= accounts.Keys
    ensures CachedUpTo(e, j + 1, accounts)
  {
    hide LoadedBy, BlockOf;
  }

  /** Everything known about the commit of `j` on a state that looks like the world before it. */
  ghost predicate Prepared(e: EvmBlock, j: TxId, receipt: Receipt, committer: OrderedCommitter)
    requires j < |e.txs| == |BlockOf(e).txs|
    reads committer, committer.state
  {
    && committer.beneficiary == e.beneficiary && committer.disableNonceCheck == !e.checkNonces
    && committer.state.Valid() && SameWorld(committer.state.world, SequentialWorld(e, j))
    && CachedUpTo(e, j, committer.state.accounts)
    && Succeeds(e, j, receipt)
  }

  /** The commit of one transaction, after its worker's reads have filled the cache. */
  method CommitNext(e: EvmBlock, j: TxId, receipt: Receipt, committer: OrderedCommitter)
    requires HonestBlock(e) && j < |e.txs| == |BlockOf(e).txs| && Prepared(e, j, receipt, committer)
    modifies committer, committer.state
    ensures committer.state.Valid() && SameWorld(committer.state.world, SequentialWorld(e, j + 1))
    ensures CachedUpTo(e, j + 1, committer.state.accounts)
    ensures committer.outcomes == old(committer.outcomes) + [Ran(receipt)]
  {
    hide HonestBlock, BlockOf, LoadedBy, WorkerEnding, HonestSlots, After, CachedUpTo, SequentialWorld, OutcomeAt;
    var state := committer.state;
    ghost var before := state.accounts;
    Load(LoadedBy(e, j), state);
    CacheGrows(e, j, before, state.accounts);
    ChangedAreCached(e, j, state.accounts);
    OutcomeIsCommittable(e, j, state.world);
    ghost var loaded := state.accounts;
    ghost var w := state.world;
    var r := committer.Commit(EnvOf(e.txs[j]), OutcomeAt(e, j), receipt, {});
    CacheKept(e, j + 1, loaded, state.accounts);
    SameChain(state.world, After(w, OutcomeAt(e, j), e.beneficiary), SequentialWorld(e, j + 1));
  }

  lemma CacheKept(e: EvmBlock, k: nat, before: AccountMap, accounts: AccountMap)
    requires k <= |e.txs| == |BlockOf(e).txs| && CachedUpTo(e, k, before) && before.Keys <= accounts.Keys
    ensures CachedUpTo(e, k, accounts)
  {
    hide LoadedBy, BlockOf;
  }

  lemma NothingCommitted(e: EvmBlock, accounts: AccountMap)
    requires |e.txs| == |BlockOf(e).txs|
    ensures SequentialWorld(e, 0) == e.start && CachedUpTo(e, 0, accounts)
  {
  }

  /** Commit the prefix with these receipts, in order, through the cache. */
  method CommitPrefix(e: EvmBlock, receipts: seq<Receipt>, state: ParallelState) returns (outcomes: seq<TxOutcome>)
    requires HonestBlock(e) && |receipts| <= |e.txs| == |BlockOf(e).txs|
    requires forall j :: 0 <= j < |receipts| ==> Succeeds(e, j, receipts[j])
    requires state.Valid() && SameWorld(state.world, e.start)
    modifies state
    ensures state.Valid() && SameWorld(state.world, SequentialWorld(e, |receipts|))
    ensures |outcomes| == |receipts| && forall j :: 0 <= j < |receipts| ==> outcomes[j] == Ran(receipts[j])
  {
    hide HonestBlock, BlockOf, SameWorld, CachedUpTo, SequentialWorld, Succeeds;
    NothingCommitted(e, state.accounts);
    var committer := new OrderedCommitter(e.beneficiary, !e.checkNonces, state);
    var j := 0;
    while j < |receipts|
      invariant 0 <= j <= |receipts| && committer.state == state && fresh(committer)
      invariant committer.beneficiary == e.beneficiary && committer.disableNonceCheck == !e.checkNonces
      invariant state.Valid() && SameWorld(state.world, SequentialWorld(e, j))
      invariant CachedUpTo(e, j, state.accounts)
      invariant |committer.outcomes| == j && forall i :: 0 <= i < j ==> committer.outcomes[i] == Ran(receipts[i])
    {
      CommitNext(e, j, receipts[j], committer);
      j := j + 1;
    }
    outcomes := committer.outcomes;
  }
}
