/**
 * A block of transactions over accounts and slots, its sequential execution on a plain world, and
 * the block over locations that the parallel scheduler runs.
 */
module WorldBlock {
  import opened Types
  import opened Beneficiary
  import opened Publication
  import opened Reward
  import opened Evm
  import opened Lowering
  import opened Settlement

  /** `relaxed` runs without the nonce check, `strict` with it. */
  datatype EvmTransaction = EvmTransaction(relaxed: Core, strict: Core, sender: Address, nonce: Nonce)

  /** `database` is what the database holds under a hash; `codeOf` is the code that has the hash. */
  datatype EvmBlock = EvmBlock(
    beneficiary: Address, txs: seq<EvmTransaction>, checkNonces: bool, start: World,
    codeOf: Hash -> Bytecode, database: Hash -> Bytecode)

  function NonceOf(account: Option<Info>): Nonce {
    if account.Some? then account.value.nonce else 0
  }

  /** The check of ordered commit: equal nonces, except that the last nonce is never accepted. */
  predicate NonceMatches(e: EvmBlock, tx: EvmTransaction, sender: Option<Info>) {
    e.checkNonces ==> tx.nonce == NonceOf(sender) && tx.nonce != U64_MAX
  }

  // ----- sequential execution, as replay does it -----

  datatype TxOutcome = Ran(receipt: Receipt) | Skipped(reason: nat)

  /** Why the last nonce is refused; incrementing it would saturate. */
  const NONCE_OVERFLOW: nat := 0

  predicate NonceOverflows(e: EvmBlock, j: TxId, w: World)
    requires j < |e.txs|
  {
    e.checkNonces && e.txs[j].nonce == U64_MAX && NonceOf(w.accounts(e.txs[j].sender)) == U64_MAX
  }

  /** Replay of one transaction: nonces are checked and the beneficiary is paid at once. */
  function ReplayMove(e: EvmBlock, j: TxId, w: World): (m: Move<Outcome>)
    requires j < |e.txs|
    ensures !m.Ask?
  {
    if NonceOverflows(e, j, w) then Abort(InvalidTransaction(NONCE_OVERFLOW))
    else Execute(Settled(Immediate, e.beneficiary, e.txs[j].strict), w, e.codeOf, map[]).move
  }

  /** Outcomes and world of a sequential prefix; `fatal` once a transaction stopped the block. */
  datatype WorldState = WorldState(outcomes: seq<TxOutcome>, world: World, fatal: Option<nat>)

  function WorldStep(e: EvmBlock, j: TxId, before: WorldState): WorldState
    requires j < |e.txs|
  {
    if before.fatal.Some? then before else
    match ReplayMove(e, j, before.world)
    case Done(o, r) => WorldState(before.outcomes + [Ran(r)], After(before.world, o, e.beneficiary), None)
    case Abort(InvalidTransaction(reason)) => before.(outcomes := before.outcomes + [Skipped(reason)])
    case Abort(FatalError(reason)) => before.(fatal := Some(reason))
  }

  /** Execute the first `k` transactions one after another, skipping invalid ones. */
  function WorldReference(e: EvmBlock, k: nat): WorldState
    requires k <= |e.txs|
  {
    if k == 0 then WorldState([], e.start, None) else WorldStep(e, k - 1, WorldReference(e, k - 1))
  }

  /** A sender at the last nonce is not run: its transaction is skipped and the world left alone. */
  lemma LastNonceIsSkipped(e: EvmBlock, k: TxId)
    requires k < |e.txs| && e.checkNonces && e.txs[k].nonce == U64_MAX && WorldReference(e, k).fatal.None?
    requires
      var sender := WorldReference(e, k).world.accounts(e.txs[k].sender);
      sender.Some? && sender.value.nonce == U64_MAX
    ensures
      var before := WorldReference(e, k);
      WorldReference(e, k + 1) == WorldState(before.outcomes + [Skipped(NONCE_OVERFLOW)], before.world, None)
  {
    assert NonceOverflows(e, k, WorldReference(e, k).world);
  }

  // ----- sequential execution, as workers do it -----

  /** The transaction as a worker runs it: no nonce check, rewards deferred where that is safe. */
  function Worker(e: EvmBlock, j: TxId): EvmTx<Outcome>
    requires j < |e.txs|
  {
    Settled(Deferred, e.beneficiary, e.txs[j].relaxed)
  }

  function WorkerEnding(e: EvmBlock, j: TxId, w: World): (end: Ending<Outcome>)
    requires j < |e.txs|
    ensures !end.move.Ask?
  {
    Execute(Worker(e, j), w, e.codeOf, map[])
  }

  /** The world after the first `k` transactions ran one after another the way workers run them. */
  function SequentialWorld(e: EvmBlock, k: nat): World
    requires k <= |e.txs|
  {
    if k == 0 then e.start else
    var before := SequentialWorld(e, k - 1);
    match WorkerEnding(e, k - 1, before).move
    case Done(o, _) => After(before, o, e.beneficiary)
    case _ => before
  }

  // ----- what is asked of the EVM -----

  /** Transaction `j` leaves an honest journal in the world it finds. */
  ghost predicate HonestAt(e: EvmBlock, j: TxId)
    requires j < |e.txs|
  {
    var w := SequentialWorld(e, j);
    var end := Execute(e.txs[j].relaxed, w, e.codeOf, map[]);
    end.move.Done? ==>
      && OnlyLoaded(end.move.outcome.changes, end.answers)
      && HonestDraft(w, e.beneficiary, SnapshotsOf(end.answers), end.move.outcome.changes, e.codeOf)
  }

  /** The database holds the code of the accounts it holds, and every execution leaves an honest journal. */
  ghost predicate HonestBlock(e: EvmBlock) {
    && (forall a :: HasCode(e.start.accounts(a)) ==>
          e.database(e.start.accounts(a).value.codeHash) == e.codeOf(e.start.accounts(a).value.codeHash))
    && (forall j: TxId :: j < |e.txs| ==> HonestAt(e, j))
  }

  /**
   * Where the nonce of a transaction matches the world it finds, checking it makes no difference to
   * how the transaction ends. Both sides pay the beneficiary at once: this is about the check alone.
   */
  ghost predicate NonceOnly(e: EvmBlock) {
    forall j: TxId :: j < |e.txs| && NonceMatches(e, e.txs[j], SequentialWorld(e, j).accounts(e.txs[j].sender)) ==>
      var w := SequentialWorld(e, j);
      EndAlike(w, e.beneficiary,
        Execute(Settled(Immediate, e.beneficiary, e.txs[j].strict), w, e.codeOf, map[]).move,
        Execute(Settled(Immediate, e.beneficiary, e.txs[j].relaxed), w, e.codeOf, map[]).move)
  }

  // ----- the same block over locations -----

  function BaseValue(e: EvmBlock, l: Location): Value {
    match l
    case Basic(a) => AccountValue(e.start.accounts(a))
    case Code(_) => CodeValue(None)
    case Storage(a, s) => SlotValue(None, e.start.slots(a, s))
    case StorageReset(_) => ResetValue(None)
    case History(_) => EffectValue(Unchanged)
  }

  function SiteOf(e: EvmBlock, j: TxId): Site {
    Site(e.beneficiary, j, e.database)
  }

  /** The sender's account as the overlay of the first `j` transactions stores it. */
  function SenderIn(e: EvmBlock, j: TxId, overlay: Block.Overlay, a: Address): Option<Info> {
    var stored := Stored(e, overlay, Basic(a));
    var account := if stored.AccountValue? then stored.info else None;
    if a == e.beneficiary then Fold(account, seq(j, i requires 0 <= i < j => EffectIn(e, overlay, i)), j) else account
  }

  function Stored(e: EvmBlock, overlay: Block.Overlay, l: Location): Value {
    if l in overlay then overlay[l] else BaseValue(e, l)
  }

  function EffectIn(e: EvmBlock, overlay: Block.Overlay, i: nat): Effect {
    var value := Stored(e, overlay, History(i));
    if value.EffectValue? then value.effect else Unchanged
  }

  function LoweredTx(e: EvmBlock, j: TxId): Block.Transaction
    requires j < |e.txs|
  {
    Block.Transaction(
      Lowered(SiteOf(e, j), Worker(e, j)),
      overlay => NonceMatches(e, e.txs[j], SenderIn(e, j, overlay, e.txs[j].sender)))
  }

  function BlockOf(e: EvmBlock): Block.BlockSpec {
    Block.BlockSpec(seq(|e.txs|, j requires 0 <= j < |e.txs| => LoweredTx(e, j)), l => BaseValue(e, l))
  }

  // ----- the location block computes the world -----

  /** The overlay after `k` transactions stands for the world `w`. */
  ghost predicate StandsFor(e: EvmBlock, overlay: Block.Overlay, k: nat, w: World) {
    && Represents(ViewOf(BlockOf(e), overlay), e.beneficiary, k, w)
    && CodeOk(ViewOf(BlockOf(e), overlay), w, e.codeOf, e.database)
  }

  lemma StartStands(e: EvmBlock)
    requires HonestBlock(e)
    ensures StandsFor(e, map[], 0, e.start)
  {
  }

  /** A transaction that leaves nothing leaves the world alone. */
  lemma SkipStands(e: EvmBlock, overlay: Block.Overlay, k: nat, w: World)
    requires StandsFor(e, overlay, k, w) && FreshFrom(overlay, k)
    ensures StandsFor(e, overlay, k + 1, w) && FreshFrom(overlay, k + 1)
  {
    var view := ViewOf(BlockOf(e), overlay);
    FoldPrefix(view(Basic(e.beneficiary)).info, Effects(view, k), Effects(view, k + 1), k);
    forall a ensures ResolveAccount(view, e.beneficiary, k + 1, a) == w.accounts(a) {
      assert ResolveAccount(view, e.beneficiary, k, a) == w.accounts(a);
    }
  }

  lemma SameView(view: View, view': View, beneficiary: Address, k: nat, w: World, codeOf: Hash -> Bytecode,
    database: Hash -> Bytecode)
    requires forall l :: view(l) == view'(l)
    requires Represents(view, beneficiary, k, w) && CodeOk(view, w, codeOf, database)
    ensures Represents(view', beneficiary, k, w) && CodeOk(view', w, codeOf, database)
  {
    forall a ensures ResolveAccount(view', beneficiary, k, a) == w.accounts(a) {
      assert ResolveAccount(view, beneficiary, k, a) == w.accounts(a);
      assert Effects(view, k) == Effects(view', k);
    }
    forall a, s ensures ResolveSlot(view', a, s) == w.slots(a, s) {
      assert ResolveSlot(view, a, s) == w.slots(a, s);
    }
  }

  lemma ViewsAgree(e: EvmBlock, overlay: Block.Overlay, k: TxId, writes: map<Location, Value>, effect: Effect)
    ensures forall l ::
      Overlaid(ViewOf(BlockOf(e), overlay), k, writes, effect)(l)
      == ViewOf(BlockOf(e), overlay + Block.AllWrites(k, writes, effect))(l)
  {
  }

  lemma PublishedStands(e: EvmBlock, overlay: Block.Overlay, k: TxId, w: World, snapshots: Snapshots, o: Outcome)
    requires StandsFor(e, overlay, k, w)
    requires Honest(w, e.beneficiary, snapshots, o, e.codeOf) && KeepsCode(o, e.beneficiary, snapshots)
    ensures
      var writes := WritesOf(k, e.beneficiary, snapshots, o.changes);
      StandsFor(e, overlay + Block.AllWrites(k, writes, OutcomeEffect(o, e.beneficiary)), k + 1, After(w, o,
        e.beneficiary))
  {
    var writes := WritesOf(k, e.beneficiary, snapshots, o.changes);
    var effect := OutcomeEffect(o, e.beneficiary);
    var view := ViewOf(BlockOf(e), overlay);
    var overlay' := overlay + Block.AllWrites(k, writes, effect);
    var view', w' := Overlaid(view, k, writes, effect), After(w, o, e.beneficiary);
    assert Represents(view, e.beneficiary, k, w) && CodeOk(view, w, e.codeOf, e.database);
    assert StandsFor(e, overlay', k + 1, w') by {
      hide *;
      WritesPublish(k, e.beneficiary, snapshots, o.changes);
      PublicationRefines(view, k, e.beneficiary, snapshots, o, writes, w, e.codeOf);
      RepresentsTyped(view', e.beneficiary, k + 1, w');
      CodeStaysResolvable(view, k, e.beneficiary, snapshots, o, writes, w, e.codeOf, e.database);
      ViewsAgree(e, overlay, k, writes, effect);
      SameView(view', ViewOf(BlockOf(e), overlay'), e.beneficiary, k + 1, w', e.codeOf, e.database);
      Standing(e, overlay', k + 1, w');
    }
  }

  lemma Standing(e: EvmBlock, overlay: Block.Overlay, k: nat, w: World)
    requires Represents(ViewOf(BlockOf(e), overlay), e.beneficiary, k, w)
    requires CodeOk(ViewOf(BlockOf(e), overlay), w, e.codeOf, e.database)
    ensures StandsFor(e, overlay, k, w)
  {
  }

  ghost predicate HonestEnding(e: EvmBlock, end: Ending<Outcome>, w: World) {
    end.move.Done? ==>
      && Honest(w, e.beneficiary, SnapshotsOf(end.answers), end.move.outcome, e.codeOf)
      && KeepsCode(end.move.outcome, e.beneficiary, SnapshotsOf(end.answers))
  }

  /** A transaction over locations ends as it does over the world, and leaves the same world. */
  lemma RunStands(e: EvmBlock, overlay: Block.Overlay, k: TxId, w: World, tx: EvmTx<Outcome>)
    requires StandsFor(e, overlay, k, w) && HonestEnding(e, Execute(tx, w, e.codeOf, map[]), w)
    ensures
      var end := Execute(tx, w, e.codeOf, map[]);
      match Block.Run(BlockOf(e), Lowered(SiteOf(e, k), tx), overlay)
      case Finish(writes, effect, receipt) =>
        && end.move.Done? && end.move.receipt == receipt && Block.HistoryFree(writes)
        && StandsFor(e, overlay + Block.AllWrites(k, writes, effect), k + 1, After(w, end.move.outcome, e.beneficiary))
      case Fail(error) => end.move == Abort(error)
      case Read(_) => false
  {
    var end := Execute(tx, w, e.codeOf, map[]);
    LoweringIsFaithful(BlockOf(e), SiteOf(e, k), tx, overlay, w, e.codeOf);
    if end.move.Done? {
      hide *;
      PublishedStands(e, overlay, k, w, SnapshotsOf(end.answers), end.move.outcome);
      EndsDone(SiteOf(e, k), end);
    }
  }

  lemma EndsDone(site: Site, end: Ending<Outcome>)
    requires end.move.Done?
    ensures LoweredEnding(site, end) ==
      Block.Finish(
        WritesOf(site.txid, site.beneficiary, SnapshotsOf(end.answers), end.move.outcome.changes),
        OutcomeEffect(end.move.outcome, site.beneficiary), end.move.receipt)
  {
  }

  // ----- whole blocks -----

  /** No transaction at or after `k` has left an effect. */
  ghost predicate FreshFrom(overlay: Block.Overlay, k: nat) {
    forall i: nat :: k <= i ==> History(i) !in overlay
  }

  lemma AddsOne(overlay: Block.Overlay, k: nat, writes: map<Location, Value>, effect: Effect)
    requires FreshFrom(overlay, k) && Block.HistoryFree(writes)
    ensures FreshFrom(overlay + Block.AllWrites(k, writes, effect), k + 1)
  {
  }

  lemma LoweredAt(e: EvmBlock, k: TxId)
    requires k < |e.txs|
    ensures |BlockOf(e).txs| == |e.txs| && BlockOf(e).txs[k] == LoweredTx(e, k)
  {
  }

  lemma WorkersAreHonest(e: EvmBlock, j: TxId)
    requires HonestBlock(e) && j < |e.txs|
    ensures HonestEnding(e, WorkerEnding(e, j, SequentialWorld(e, j)), SequentialWorld(e, j))
  {
    assert HonestAt(e, j);
    SettledIsHonest(Deferred, e.beneficiary, e.txs[j].relaxed, SequentialWorld(e, j), e.codeOf);
  }

  lemma SequentialStart(e: EvmBlock)
    requires HonestBlock(e)
    ensures StandsFor(e, Block.SequentialOverlay(BlockOf(e), 0), 0, SequentialWorld(e, 0))
    ensures FreshFrom(Block.SequentialOverlay(BlockOf(e), 0), 0)
  {
    StartStands(e);
  }

  lemma SequentialStep(e: EvmBlock, k: TxId, overlay: Block.Overlay, w: World)
    requires k < |e.txs| && StandsFor(e, overlay, k, w) && FreshFrom(overlay, k)
    requires overlay == Block.SequentialOverlay(BlockOf(e), k) && w == SequentialWorld(e, k)
    requires HonestEnding(e, WorkerEnding(e, k, w), w)
    ensures StandsFor(e, Block.SequentialOverlay(BlockOf(e), k + 1), k + 1, SequentialWorld(e, k + 1))
    ensures FreshFrom(Block.SequentialOverlay(BlockOf(e), k + 1), k + 1)
  {
    hide StandsFor, Execute, Block.Run, Lowered, HonestEnding, After, BlockOf, FreshFrom, Worker;
    LoweredAt(e, k);
    RunStands(e, overlay, k, w, Worker(e, k));
    match Block.Run(BlockOf(e), Lowered(SiteOf(e, k), Worker(e, k)), overlay)
    case Finish(writes, effect, _) => AddsOne(overlay, k, writes, effect);
    case Fail(_) => SkipStands(e, overlay, k, w);
  }

  /** Executing over locations, one transaction after another, is executing on the world. */
  lemma {:induction false} SequentialStands(e: EvmBlock, k: nat)
    requires HonestBlock(e) && k <= |e.txs|
    ensures StandsFor(e, Block.SequentialOverlay(BlockOf(e), k), k, SequentialWorld(e, k))
    ensures FreshFrom(Block.SequentialOverlay(BlockOf(e), k), k)
  {
    hide *;
    if k == 0 {
      SequentialStart(e);
    } else {
      SequentialStands(e, k - 1);
      WorkersAreHonest(e, k - 1);
      LoweredAt(e, k - 1);
      SequentialStep(e, k - 1, Block.SequentialOverlay(BlockOf(e), k - 1), SequentialWorld(e, k - 1));
    }
  }

  /** The sender's account as commit looks it up is the sender's account in the world. */
  lemma SenderIsResolved(e: EvmBlock, j: TxId, overlay: Block.Overlay, w: World, a: Address)
    requires StandsFor(e, overlay, j, w)
    ensures SenderIn(e, j, overlay, a) == w.accounts(a)
  {
    var view := ViewOf(BlockOf(e), overlay);
    assert ResolveAccount(view, e.beneficiary, j, a) == w.accounts(a);
    assert seq(j, i requires 0 <= i < j => EffectIn(e, overlay, i)) == Effects(view, j);
  }

  /** In the world the earlier transactions leave, a worker's run of `j` succeeds and its nonce fits. */
  ghost predicate Succeeds(e: EvmBlock, j: TxId, receipt: Receipt)
    requires j < |e.txs|
  {
    var w := SequentialWorld(e, j);
    && WorkerEnding(e, j, w).move.Done? && WorkerEnding(e, j, w).move.receipt == receipt
    && NonceMatches(e, e.txs[j], w.accounts(e.txs[j].sender))
  }

  /** What commits over locations succeeds over the world. */
  lemma CommitSucceeds(e: EvmBlock, j: TxId, receipt: Receipt)
    requires HonestBlock(e) && j < |e.txs| == |BlockOf(e).txs|
    requires
      var b := BlockOf(e);
      && Block.SequentialAction(b, j).Finish? && Block.SequentialAction(b, j).receipt == receipt
      && b.txs[j].nonceMatches(Block.SequentialOverlay(b, j))
    ensures Succeeds(e, j, receipt)
  {
    var overlay, w := Block.SequentialOverlay(BlockOf(e), j), SequentialWorld(e, j);
    LoweredAt(e, j);
    SequentialStands(e, j);
    WorkersAreHonest(e, j);
    SenderIsResolved(e, j, overlay, w, e.txs[j].sender);
    hide StandsFor, Execute, Block.Run, Lowered, HonestBlock, HonestEnding, BlockOf, Worker, SenderIn;
    RunStands(e, overlay, j, w, Worker(e, j));
  }

  /** What fails over locations fails over the world, with the same error. */
  lemma FailureIsSequential(e: EvmBlock, j: TxId, error: EvmError)
    requires HonestBlock(e) && j < |e.txs| == |BlockOf(e).txs|
    requires Block.SequentialAction(BlockOf(e), j) == Block.Fail(error)
    ensures WorkerEnding(e, j, SequentialWorld(e, j)).move == Abort(error)
  {
    var overlay, w := Block.SequentialOverlay(BlockOf(e), j), SequentialWorld(e, j);
    LoweredAt(e, j);
    SequentialStands(e, j);
    WorkersAreHonest(e, j);
    hide StandsFor, Execute, Block.Run, Lowered, HonestBlock, HonestEnding, BlockOf, Worker, SenderIn;
    RunStands(e, overlay, j, w, Worker(e, j));
  }

  // ----- replay and workers leave the same world -----

  lemma {:induction false} ExecuteSame<T>(tx: EvmTx<T>, v: World, w: World, codeOf: Hash -> Bytecode, answers: Answers)
    requires SameWorld(v, w)
    ensures Execute(tx, v, codeOf, answers) == Execute(tx, w, codeOf, answers)
    decreases tx.limit - |answers|
  {
    var move := NextMove(tx, answers);
    if move.Ask? {
      assert Reply(v, codeOf, move.query) == Reply(w, codeOf, move.query);
      ExecuteSame(tx, v, w, codeOf, answers[move.query := Reply(w, codeOf, move.query)]);
    }
  }

  lemma AfterSame(v: World, w: World, o: Outcome, beneficiary: Address)
    requires SameWorld(v, w)
    ensures SameWorld(After(v, o, beneficiary), After(w, o, beneficiary))
  {
  }

  lemma SameChain(u: World, v: World, w: World)
    requires SameWorld(u, v) && SameWorld(v, w)
    ensures SameWorld(u, w)
  {
  }

  lemma ReplaySame(e: EvmBlock, j: TxId, v: World, w: World)
    requires j < |e.txs| && SameWorld(v, w)
    ensures ReplayMove(e, j, v) == ReplayMove(e, j, w)
  {
    ExecuteSame(Settled(Immediate, e.beneficiary, e.txs[j].strict), v, w, e.codeOf, map[]);
  }

  /** Replaying a transaction that succeeds and fits ends as the worker's run of it ended. */
  lemma ReplayEndsAlike(e: EvmBlock, j: TxId, receipt: Receipt)
    requires NonceOnly(e) && j < |e.txs| && Succeeds(e, j, receipt)
    ensures
      var w := SequentialWorld(e, j);
      && ReplayMove(e, j, w).Done? && ReplayMove(e, j, w).receipt == receipt
      && SameWorld(After(w, ReplayMove(e, j, w).outcome, e.beneficiary), SequentialWorld(e, j + 1))
  {
    ModesAgree(e.beneficiary, e.txs[j].relaxed, SequentialWorld(e, j), e.codeOf);
    hide Settled, Execute, After;
  }

  /** Replaying a transaction that fails and fits fails as the worker's run of it failed. */
  lemma ReplayFailsAlike(e: EvmBlock, j: TxId, error: EvmError)
    requires NonceOnly(e) && j < |e.txs|
    requires
      var w := SequentialWorld(e, j);
      WorkerEnding(e, j, w).move == Abort(error) && NonceMatches(e, e.txs[j], w.accounts(e.txs[j].sender))
    ensures ReplayMove(e, j, SequentialWorld(e, j)) == Abort(error)
  {
    ModesAgree(e.beneficiary, e.txs[j].relaxed, SequentialWorld(e, j), e.codeOf);
    hide Settled, Execute, After;
  }

  /** The reference has run the first `k` transactions with these receipts, and left the workers' world. */
  ghost predicate RanAll(e: EvmBlock, k: nat, receipts: seq<Receipt>)
    requires k <= |e.txs|
  {
    var r := WorldReference(e, k);
    && r.fatal.None? && |r.outcomes| == k == |receipts|
    && (forall j :: 0 <= j < k ==> r.outcomes[j] == Ran(receipts[j]))
    && SameWorld(r.world, SequentialWorld(e, k))
  }

  lemma ReferenceStep(e: EvmBlock, k: TxId, receipts: seq<Receipt>, receipt: Receipt)
    requires NonceOnly(e) && k < |e.txs| && RanAll(e, k, receipts) && Succeeds(e, k, receipt)
    ensures RanAll(e, k + 1, receipts + [receipt])
  {
    hide ReplayMove, NonceOnly, Succeeds, After, SequentialWorld, SameWorld;
    var v, w := WorldReference(e, k).world, SequentialWorld(e, k);
    ReplaySame(e, k, v, w);
    ReplayEndsAlike(e, k, receipt);
    AfterSame(v, w, ReplayMove(e, k, w).outcome, e.beneficiary);
    SameChain(
      After(v, ReplayMove(e, k, w).outcome, e.beneficiary), After(w, ReplayMove(e, k, w).outcome, e.beneficiary),
      SequentialWorld(e, k + 1));
  }

  lemma NothingRan(e: EvmBlock, receipts: seq<Receipt>)
    requires |receipts| == 0
    ensures RanAll(e, 0, receipts)
  {
  }

  /**
   * A prefix that workers ran with fitting nonces is the prefix sequential replay would have
   * produced: the same receipts and the same world, although workers deferred rewards and skipped
   * the nonce check.
   */
  lemma {:induction false} PrefixIsReference(e: EvmBlock, receipts: seq<Receipt>)
    requires NonceOnly(e) && |receipts| <= |e.txs|
    requires forall j :: 0 <= j < |receipts| ==> Succeeds(e, j, receipts[j])
    ensures RanAll(e, |receipts|, receipts)
  {
    hide *;
    var k := |receipts|;
    if k == 0 {
      NothingRan(e, receipts);
    } else {
      var before := receipts[..k - 1];
      assert forall j :: 0 <= j < k - 1 ==> before[j] == receipts[j];
      PrefixIsReference(e, before);
      assert Succeeds(e, k - 1, receipts[k - 1]);
      assert before + [receipts[k - 1]] == receipts;
      ReferenceStep(e, k - 1, before, receipts[k - 1]);
    }
  }
}
