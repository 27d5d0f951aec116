/**
 * Transactions as they see the state: accounts, code and slots. Lowering one to multi-version
 * memory locations, the way a worker's database does it, does not change what it computes.
 */
module Evm {
  import opened Types
  import opened Beneficiary
  import opened Publication
  import Block

  datatype Query = AskAccount(address: Address) | AskSlot(address: Address, slot: Slot)

  datatype Answer = AccountIs(info: Option<Info>, code: Option<Bytecode>) | WordIs(word: Word)

  type Answers = map<Query, Answer>

  datatype Move<T> = Ask(query: Query) | Done(outcome: T, receipt: Receipt) | Abort(error: EvmError)

  /** An execution asks at most `limit` queries, and its next move depends on the answers alone. */
  datatype EvmTx<!T> = EvmTx(limit: nat, step: Answers -> Move<T>)

  // ----- running against a world -----

  function NextMove<T>(tx: EvmTx<T>, answers: Answers): (m: Move<T>)
    ensures m.Ask? ==> m.query !in answers && |answers| < tx.limit
  {
    match tx.step(answers)
    case Ask(q) => if q in answers || |answers| >= tx.limit then Abort(FatalError(0)) else Ask(q)
    case m => m
  }

  function Reply(w: World, codeOf: Hash -> Bytecode, q: Query): Answer {
    match q
    case AskAccount(a) => AccountAnswer(w.accounts(a), codeOf)
    case AskSlot(a, s) => WordIs(w.slots(a, s))
  }

  function AccountAnswer(info: Option<Info>, codeOf: Hash -> Bytecode): Answer {
    AccountIs(info, if HasCode(info) then Some(codeOf(info.value.codeHash)) else None)
  }

  /** How an execution ends, and everything it asked on the way. */
  datatype Ending<T> = Ending(move: Move<T>, answers: Answers)

  function Execute<T>(tx: EvmTx<T>, w: World, codeOf: Hash -> Bytecode, answers: Answers): (e: Ending<T>)
    ensures !e.move.Ask?
    decreases tx.limit - |answers|
  {
    match NextMove(tx, answers)
    case Ask(q) => Execute(tx, w, codeOf, answers[q := Reply(w, codeOf, q)])
    case m => Ending(m, answers)
  }

  // ----- what the lookups so far say -----

  /** A location that is looked up once: the journal keeps accounts, code and slots. */
  function Once(l: Location): Block.Probe {
    Block.Probe(l, 0)
  }

  /** The storage reset of `a` is looked up again for every slot that is loaded. */
  function ResetFor(a: Address, s: Slot): Block.Probe {
    Block.Probe(StorageReset(a), s)
  }

  /** The beneficiary before `k`, if the entries read so far determine it. */
  function HistoryIn(obs: Block.Observations, anchor: Option<Info>, k: nat): Option<Option<Info>> {
    if k == 0 then Some(anchor)
    else if Once(History(k - 1)) !in obs then None
    else if !obs[Once(History(k - 1))].EffectValue? then Some(None)
    else
      match obs[Once(History(k - 1))].effect
      case Snapshot(account) => Some(account)
      case Unchanged => HistoryIn(obs, anchor, k - 1)
      case Reward(amount) =>
        var before := HistoryIn(obs, anchor, k - 1);
        if before.None? then None else Some(Some(Credit(before.value, amount)))
  }

  /** The next history entry to read. */
  function NextEntry(obs: Block.Observations, anchor: Option<Info>, k: nat): (i: nat)
    requires HistoryIn(obs, anchor, k).None?
    ensures i < k && Once(History(i)) !in obs
  {
    if Once(History(k - 1)) !in obs then k - 1 else NextEntry(obs, anchor, k - 1)
  }

  function StoredIn(obs: Block.Observations, a: Address): Option<Info>
    requires Once(Basic(a)) in obs
  {
    if obs[Once(Basic(a))].AccountValue? then obs[Once(Basic(a))].info else None
  }

  function InfoIn(obs: Block.Observations, beneficiary: Address, j: TxId, a: Address): Option<Option<Info>> {
    if Once(Basic(a)) !in obs then None
    else
      var stored := StoredIn(obs, a);
      if a == beneficiary then HistoryIn(obs, stored, j) else Some(stored)
  }

  function CodeIn(obs: Block.Observations, a: Address): Option<Bytecode>
    requires Once(Code(a)) in obs
  {
    if obs[Once(Code(a))].CodeValue? then obs[Once(Code(a))].code else None
  }

  function SlotIn(obs: Block.Observations, a: Address, s: Slot): Word
    requires ResetFor(a, s) in obs && Once(Storage(a, s)) in obs
  {
    SlotOf(obs[ResetFor(a, s)], obs[Once(Storage(a, s))])
  }

  /** The word that a reset and a slot, as they were found, amount to. */
  function SlotOf(reset: Value, slot: Value): Word {
    if reset.ResetValue? && slot.SlotValue? then SlotFrom(reset.resetWriter, slot.slotWriter, slot.word) else 0
  }

  /** Where a lowered transaction runs. */
  datatype Site = Site(beneficiary: Address, txid: TxId, database: Hash -> Bytecode)

  function Answered(site: Site, obs: Block.Observations, q: Query): Option<Answer> {
    match q
    case AskSlot(a, s) =>
      if ResetFor(a, s) in obs && Once(Storage(a, s)) in obs then Some(WordIs(SlotIn(obs, a, s))) else None
    case AskAccount(a) =>
      var info := InfoIn(obs, site.beneficiary, site.txid, a);
      if info.None? then None
      else if !HasCode(info.value) then Some(AccountIs(info.value, None))
      else if Once(Code(a)) !in obs then None
      else Some(AccountIs(info.value, Some(CodeFrom(CodeIn(obs, a), info.value.value.codeHash, site.database))))
  }

  /** The next lookup that answering `q` needs. */
  function Missing(site: Site, obs: Block.Observations, q: Query): (l: Block.Probe)
    requires Answered(site, obs, q).None?
    ensures l !in obs
  {
    match q
    case AskSlot(a, s) => if ResetFor(a, s) !in obs then ResetFor(a, s) else Once(Storage(a, s))
    case AskAccount(a) =>
      if Once(Basic(a)) !in obs then Once(Basic(a))
      else if InfoIn(obs, site.beneficiary, site.txid, a).Some? then Once(Code(a))
      else Once(History(NextEntry(obs, StoredIn(obs, a), site.txid)))
  }

  function Queries(obs: Block.Observations): set<Query> {
    (set l <- obs.Keys | l.location.Basic? :: AskAccount(l.location.address))
    + (set l <- obs.Keys | l.location.Storage? :: AskSlot(l.location.address, l.location.slot))
  }

  function AnswersIn(site: Site, obs: Block.Observations): Answers {
    map q <- Queries(obs) | Answered(site, obs, q).Some? :: Answered(site, obs, q).value
  }

  // ----- lowering -----

  function SnapshotsOf(answers: Answers): Snapshots {
    map a <- Addresses(answers) | answers[AskAccount(a)].AccountIs? && answers[AskAccount(a)].info.Some?
      :: answers[AskAccount(a)].info.value
  }

  function Addresses(answers: Answers): (r: set<Address>)
    ensures forall a <- r :: AskAccount(a) in answers
  {
    set q <- answers.Keys | q.AskAccount? :: q.address
  }

  function Places(changes: Changes): set<Location> {
    (set a <- changes.Keys :: Basic(a)) + (set a <- changes.Keys :: Code(a))
    + (set a <- changes.Keys :: StorageReset(a))
    + (set a, s | a in changes.Keys && s in changes[a].storage.Keys :: Storage(a, s))
  }

  function WritesOf(j: TxId, beneficiary: Address, snapshots: Snapshots, changes: Changes): map<Location, Value> {
    map l <- Places(changes) | WriteAt(j, beneficiary, snapshots, changes, l).Some?
      :: WriteAt(j, beneficiary, snapshots, changes, l).value
  }

  lemma WritesPublish(j: TxId, beneficiary: Address, snapshots: Snapshots, changes: Changes)
    ensures Publishes(WritesOf(j, beneficiary, snapshots, changes), j, beneficiary, snapshots, changes)
  {
  }

  /** The ending of an execution as a program over locations reports it. */
  function LoweredEnding(site: Site, e: Ending<Outcome>): Block.Action
    requires !e.move.Ask?
  {
    match e.move
    case Done(o, r) =>
      Block.Finish(
        WritesOf(site.txid, site.beneficiary, SnapshotsOf(e.answers), o.changes), OutcomeEffect(o, site.beneficiary), r)
    case Abort(error) => Block.Fail(error)
  }

  function LoweredStep(site: Site, tx: EvmTx<Outcome>, obs: Block.Observations): Block.Action {
    var answers := AnswersIn(site, obs);
    match NextMove(tx, answers)
    case Ask(q) => if Answered(site, obs, q).None? then Block.Read(Missing(site, obs, q)) else Block.Fail(FatalError(0))
    case m => LoweredEnding(site, Ending(m, answers))
  }

  /** A query reads at most the whole history, the anchor and the code. */
  function Budget(limit: nat, j: TxId): nat {
    limit * (j + 2)
  }

  function Lowered(site: Site, tx: EvmTx<Outcome>): Block.Program {
    Block.Program(Budget(tx.limit, site.txid), obs => LoweredStep(site, tx, obs))
  }
}
