/**
 * Publishing a transaction's accounts to multi-version memory, and resolving accounts and slots
 * back out of it. The reference is a plain world of accounts and slots updated in block order.
 */
module Publication {
  import opened Types
  import opened Accounts
  import opened Beneficiary

  // ----- the reference -----

  type Accts = Address -> Option<Info>
  type Slots = (Address, Slot) -> Word

  datatype World = World(accounts: Accts, slots: Slots)

  type Changes = map<Address, Account>

  /** What a successful execution leaves: changed accounts and, apart from them, a deferred reward. */
  datatype Outcome = Outcome(changes: Changes, reward: Option<Word>)

  function AccountAfter(o: Outcome, beneficiary: Address, a: Address, before: Option<Info>): Option<Info> {
    if a in o.changes then InfoAfter(o.changes[a], before)
    else if a == beneficiary && o.reward.Some? then Some(Credit(before, o.reward.value))
    else before
  }

  function WordAfter(o: Outcome, a: Address, s: Slot, before: Word): Word {
    if a in o.changes then SlotAfter(o.changes[a], s, before) else before
  }

  /** The world after one more transaction. */
  function After(w: World, o: Outcome, beneficiary: Address): World {
    World(
      (a: Address) => AccountAfter(o, beneficiary, a, w.accounts(a)),
      (a: Address, s: Slot) => WordAfter(o, a, s, w.slots(a, s)))
  }

  // ----- publication -----

  /** The accounts as the transaction read them, as far as they existed. */
  type Snapshots = map<Address, Info>

  /** The journal carries non-empty code that is not the code that was read. */
  predicate CodeChanged(account: Account, snapshots: Snapshots, a: Address) {
    && account.info.codeHash != EMPTY_CODE && account.code.Some?
    && (a in snapshots ==> snapshots[a].codeHash != account.info.codeHash)
  }

  predicate InfoChanged(account: Account, snapshots: Snapshots, a: Address) {
    || CodeChanged(account, snapshots, a)
    || (a in snapshots ==>
          snapshots[a].nonce != account.info.nonce || snapshots[a].balance != account.info.balance)
  }

  predicate Resets(account: Account) {
    Classify(account).Deleted? || Classify(account).Created?
  }

  predicate Survives(account: Account) {
    Classify(account).Created? || Classify(account).Updated?
  }

  predicate SlotChanged(account: Account, s: Slot) {
    s in account.storage && account.storage[s].original != account.storage[s].present
  }

  /** What transaction `j` publishes at `l`, if anything. */
  function WriteAt(j: TxId, beneficiary: Address, snapshots: Snapshots, changes: Changes, l: Location): Option<Value> {
    if l.History? || l.address !in changes then None else
    var account := changes[l.address];
    match l
    case Basic(a) =>
      if a == beneficiary then None
      else if Classify(account).Deleted? then Some(AccountValue(None))
      else if Survives(account) && InfoChanged(account, snapshots, a) then Some(AccountValue(Some(account.info)))
      else None
    case Code(a) =>
      if Survives(account) && CodeChanged(account, snapshots, a) then Some(CodeValue(account.code)) else None
    case Storage(a, s) =>
      if Survives(account) && SlotChanged(account, s) then Some(SlotValue(Some(j), account.storage[s].present))
        else None
    case StorageReset(a) =>
      if Resets(account) then Some(ResetValue(Some(j))) else None
    case History(_) => None
  }

  /** `writes` is exactly what `j` publishes. */
  ghost predicate Publishes(
    writes: map<Location, Value>, j: TxId, beneficiary: Address, snapshots: Snapshots, changes: Changes)
  {
    forall l: Location ::
      && (l in writes <==> WriteAt(j, beneficiary, snapshots, changes, l).Some?)
      && (l in writes ==> WriteAt(j, beneficiary, snapshots, changes, l) == Some(writes[l]))
  }

  // ----- resolution -----

  type View = Location -> Value

  /** Every location holds a value of its own kind. */
  ghost predicate Typed(view: View) {
    && (forall a :: view(Basic(a)).AccountValue?)
    && (forall a :: view(Code(a)).CodeValue?)
    && (forall a, s :: view(Storage(a, s)).SlotValue?)
    && (forall a :: view(StorageReset(a)).ResetValue?)
    && (forall i :: view(History(i)).EffectValue?)
  }

  /** A slot write counts unless a later reset masks it; a reset alone means zero. */
  function SlotFrom(reset: Option<TxId>, writer: Option<TxId>, word: Word): Word {
    if writer.Some? && (reset.Some? ==> writer.value >= reset.value) then word
    else if reset.Some? then 0
    else word
  }

  function ResolveSlot(view: View, a: Address, s: Slot): Word
    requires view(StorageReset(a)).ResetValue? && view(Storage(a, s)).SlotValue?
  {
    SlotFrom(view(StorageReset(a)).resetWriter, view(Storage(a, s)).slotWriter, view(Storage(a, s)).word)
  }

  predicate HasCode(info: Option<Info>) {
    info.Some? && info.value.codeHash != EMPTY_CODE
  }

  /** The published code of the account, or what the database holds under its hash. */
  function CodeFrom(value: Option<Bytecode>, hash: Hash, database: Hash -> Bytecode): Bytecode {
    if value.Some? then value.value else database(hash)
  }

  function Effects(view: View, k: nat): seq<Effect>
    requires Typed(view)
  {
    seq(k, i requires 0 <= i < k => view(History(i)).effect)
  }

  function ResolveAccount(view: View, beneficiary: Address, k: nat, a: Address): Option<Info>
    requires Typed(view)
  {
    if a == beneficiary then Fold(view(Basic(a)).info, Effects(view, k), k) else view(Basic(a)).info
  }

  // ----- refinement -----

  /** Only transactions before `k` have written. */
  ghost predicate WrittenBefore(view: View, k: nat)
    requires Typed(view)
  {
    && (forall a :: view(StorageReset(a)).resetWriter.Some? ==> view(StorageReset(a)).resetWriter.value < k)
    && (forall a, s :: view(Storage(a, s)).slotWriter.Some? ==> view(Storage(a, s)).slotWriter.value < k)
  }

  /** Resolving every account and every slot before transaction `k` gives the world `w`. */
  ghost predicate Represents(view: View, beneficiary: Address, k: nat, w: World) {
    && Typed(view) && WrittenBefore(view, k)
    && (forall a :: ResolveAccount(view, beneficiary, k, a) == w.accounts(a))
    && (forall a, s :: ResolveSlot(view, a, s) == w.slots(a, s))
  }

  /** The code resolved for every account that has code is the code with that hash. */
  ghost predicate CodeOk(view: View, w: World, codeOf: Hash -> Bytecode, database: Hash -> Bytecode) {
    && Typed(view)
    && forall a :: w.accounts(a).Some? && w.accounts(a).value.codeHash != EMPTY_CODE ==>
         CodeFrom(view(Code(a)).code, w.accounts(a).value.codeHash, database) == codeOf(w.accounts(a).value.codeHash)
  }

  /** The slots of an account that is not destroyed start from what the transaction could read. */
  ghost predicate HonestSlots(account: Account, w: World, a: Address) {
    !account.selfdestructed ==>
      forall s <- account.storage :: account.storage[s].original == if account.created then 0 else w.slots(a, s)
  }

  /** The journal carries the code of an account whose code it changed. */
  ghost predicate HonestCode(account: Account, w: World, a: Address, codeOf: Hash -> Bytecode) {
    var hash := account.info.codeHash;
    !account.selfdestructed && hash != EMPTY_CODE ==>
      if account.code.Some? then account.code.value == codeOf(hash)
      else w.accounts(a).Some? && w.accounts(a).value.codeHash == hash
  }

  /** What the EVM guarantees about an execution in the world `w`. */
  ghost predicate Honest(w: World, beneficiary: Address, snapshots: Snapshots, o: Outcome, codeOf: Hash -> Bytecode) {
    && (o.reward.Some? ==> beneficiary !in o.changes)
    && (forall a <- snapshots :: w.accounts(a) == Some(snapshots[a]))
    && (forall a <- o.changes :: HonestSlots(o.changes[a], w, a))
    && (forall a <- o.changes :: HonestCode(o.changes[a], w, a, codeOf))
  }

  /** The code is gone or replaced without its bytes, and neither nonce nor balance moved. */
  predicate LosesCode(account: Account, snapshots: Snapshots, a: Address) {
    && Survives(account) && a in snapshots && snapshots[a].codeHash != account.info.codeHash
    && (account.info.codeHash == EMPTY_CODE || account.code.None?)
    && snapshots[a].nonce == account.info.nonce && snapshots[a].balance == account.info.balance
  }

  predicate KeepsCode(o: Outcome, beneficiary: Address, snapshots: Snapshots) {
    forall a <- o.changes :: a != beneficiary ==> !LosesCode(o.changes[a], snapshots, a)
  }

  function OutcomeEffect(o: Outcome, beneficiary: Address): Effect {
    EffectOf(o.reward, if beneficiary in o.changes then Some(o.changes[beneficiary]) else None)
  }

  /** The view of the next transaction. */
  function Overlaid(view: View, k: nat, writes: map<Location, Value>, effect: Effect): View {
    (l: Location) => if l == History(k) then EffectValue(effect) else if l in writes then writes[l] else view(l)
  }

  lemma {:induction false} FoldPrefix(anchor: Option<Info>, e: seq<Effect>, e': seq<Effect>, k: nat)
    requires k <= |e| && k <= |e'| && forall i :: 0 <= i < k ==> e[i] == e'[i]
    ensures Fold(anchor, e, k) == Fold(anchor, e', k)
  {
    if k > 0 {
      FoldPrefix(anchor, e, e', k - 1);
    }
  }

  /** The value at `l` is of its kind, and written before `k`. */
  predicate KindAt(view: View, l: Location, k: nat) {
    var v := view(l);
    match l
    case Basic(_) => v.AccountValue?
    case Code(_) => v.CodeValue?
    case Storage(_, _) => v.SlotValue? && (v.slotWriter.Some? ==> v.slotWriter.value < k)
    case StorageReset(_) => v.ResetValue? && (v.resetWriter.Some? ==> v.resetWriter.value < k)
    case History(_) => v.EffectValue?
  }

  lemma KindNext(
    view: View, k: nat, beneficiary: Address, snapshots: Snapshots, o: Outcome, writes: map<Location, Value>,
      l: Location)
    requires KindAt(view, l, k) && Publishes(writes, k, beneficiary, snapshots, o.changes)
    ensures KindAt(Overlaid(view, k, writes, OutcomeEffect(o, beneficiary)), l, k + 1)
  {
    assert l in writes ==> WriteAt(k, beneficiary, snapshots, o.changes, l) == Some(writes[l]);
  }

  lemma KindsAreTyped(view: View, k: nat)
    requires forall l :: KindAt(view, l, k)
    ensures Typed(view) && WrittenBefore(view, k)
  {
    assert forall a :: KindAt(view, Basic(a), k) && KindAt(view, Code(a), k) && KindAt(view, StorageReset(a), k);
    assert forall a, s :: KindAt(view, Storage(a, s), k);
    assert forall i :: KindAt(view, History(i), k);
  }

  lemma TypedNext(view: View, k: nat, beneficiary: Address, snapshots: Snapshots, o: Outcome,
    writes: map<Location, Value>)
    requires Typed(view) && WrittenBefore(view, k) && Publishes(writes, k, beneficiary, snapshots, o.changes)
    ensures Typed(Overlaid(view, k, writes, OutcomeEffect(o, beneficiary)))
    ensures WrittenBefore(Overlaid(view, k, writes, OutcomeEffect(o, beneficiary)), k + 1)
  {
    hide Publishes, Overlaid, OutcomeEffect;
    var view', k' := Overlaid(view, k, writes, OutcomeEffect(o, beneficiary)), k + 1;
    forall l ensures KindAt(view', l, k') {
      KindNext(view, k, beneficiary, snapshots, o, writes, l);
    }
    KindsAreTyped(view', k');
  }

  /** A slot is published if and only if the account survives and the slot ends with another value. */
  lemma OnlyChangedSlotsArePublished(
    writes: map<Location, Value>, j: TxId, beneficiary: Address, snapshots: Snapshots, changes: Changes, w: World,
    a: Address, s: Slot)
    requires Publishes(writes, j, beneficiary, snapshots, changes)
    requires a in changes ==> HonestSlots(changes[a], w, a)
    ensures
      Storage(a, s) in writes <==>
        && a in changes && Survives(changes[a])
        && After(w, Outcome(changes, None), beneficiary).slots(a, s)
           != if changes[a].created then 0 else w.slots(a, s)
  {
    assert Storage(a, s) in writes <==> WriteAt(j, beneficiary, snapshots, changes, Storage(a, s)).Some?;
    var after := After(w, Outcome(changes, None), beneficiary);
    assert after.slots(a, s) == WordAfter(Outcome(changes, None), a, s, w.slots(a, s));
  }

  /** An account that ends as it was read is not published, and neither is its code. */
  lemma UnchangedAccountIsNotPublished(
    writes: map<Location, Value>, j: TxId, beneficiary: Address, snapshots: Snapshots, changes: Changes, a: Address)
    requires Publishes(writes, j, beneficiary, snapshots, changes)
    requires a in changes && a in snapshots && Classify(changes[a]) != Deleted && changes[a].info == snapshots[a]
    ensures Basic(a) !in writes && Code(a) !in writes
  {
    assert Basic(a) in writes <==> WriteAt(j, beneficiary, snapshots, changes, Basic(a)).Some?;
    assert Code(a) in writes <==> WriteAt(j, beneficiary, snapshots, changes, Code(a)).Some?;
  }

  /** Slots: deletion and creation mask older slots, a slot of the same transaction beats its reset. */
  lemma SlotNext(
    view: View, k: nat, beneficiary: Address, snapshots: Snapshots, o: Outcome, writes: map<Location, Value>,
    w: World, a: Address, s: Slot)
    requires Typed(view) && WrittenBefore(view, k) && Publishes(writes, k, beneficiary, snapshots, o.changes)
    requires ResolveSlot(view, a, s) == w.slots(a, s)
    requires a in o.changes ==> HonestSlots(o.changes[a], w, a)
    ensures
      var view' := Overlaid(view, k, writes, OutcomeEffect(o, beneficiary));
      && view'(StorageReset(a)).ResetValue? && view'(Storage(a, s)).SlotValue?
      && ResolveSlot(view', a, s) == After(w, o, beneficiary).slots(a, s)
  {
    assert StorageReset(a) in writes <==> WriteAt(k, beneficiary, snapshots, o.changes, StorageReset(a)).Some?;
    assert Storage(a, s) in writes <==> WriteAt(k, beneficiary, snapshots, o.changes, Storage(a, s)).Some?;
  }

  lemma AccountNext(
    view: View, k: nat, beneficiary: Address, snapshots: Snapshots, o: Outcome, writes: map<Location, Value>,
    w: World, a: Address)
    requires Typed(view) && Publishes(writes, k, beneficiary, snapshots, o.changes) && a != beneficiary
    requires view(Basic(a)).info == w.accounts(a)
    requires a in snapshots ==> w.accounts(a) == Some(snapshots[a])
    ensures
      var view' := Overlaid(view, k, writes, OutcomeEffect(o, beneficiary));
      && view'(Basic(a)).AccountValue?
      && (view'(Basic(a)).info == After(w, o, beneficiary).accounts(a)
          <==> (a in o.changes ==> !LosesCode(o.changes[a], snapshots, a)))
  {
  }

  lemma BeneficiaryNext(
    view: View, k: nat, beneficiary: Address, snapshots: Snapshots, o: Outcome, writes: map<Location, Value>, w: World)
    requires Typed(view) && Publishes(writes, k, beneficiary, snapshots, o.changes)
    requires o.reward.Some? ==> beneficiary !in o.changes
    requires ResolveAccount(view, beneficiary, k, beneficiary) == w.accounts(beneficiary)
    requires Typed(Overlaid(view, k, writes, OutcomeEffect(o, beneficiary)))
    ensures
      ResolveAccount(Overlaid(view, k, writes, OutcomeEffect(o, beneficiary)), beneficiary, k + 1, beneficiary)
      == After(w, o, beneficiary).accounts(beneficiary)
  {
    var view' := Overlaid(view, k, writes, OutcomeEffect(o, beneficiary));
    assert Basic(beneficiary) in writes <==> WriteAt(k, beneficiary, snapshots, o.changes, Basic(beneficiary)).Some?;
    forall i: nat | i < k ensures Effects(view, k)[i] == Effects(view', k + 1)[i] {
      assert History(i) in writes <==> WriteAt(k, beneficiary, snapshots, o.changes, History(i)).Some?;
    }
    FoldPrefix(view(Basic(beneficiary)).info, Effects(view, k), Effects(view', k + 1), k);
  }

  /**
   * Publishing a transaction and resolving afterwards is applying its accounts to the world, for
   * every account and every slot, if and only if no account loses its code without a nonce or
   * balance change.
   */
  lemma PublicationRefines(
    view: View, k: nat, beneficiary: Address, snapshots: Snapshots, o: Outcome, writes: map<Location, Value>,
    w: World, codeOf: Hash -> Bytecode)
    requires Represents(view, beneficiary, k, w) && Honest(w, beneficiary, snapshots, o, codeOf)
    requires Publishes(writes, k, beneficiary, snapshots, o.changes)
    ensures
      Represents(Overlaid(view, k, writes, OutcomeEffect(o, beneficiary)), beneficiary, k + 1, After(w, o, beneficiary))
      <==> KeepsCode(o, beneficiary, snapshots)
  {
    var view' := Overlaid(view, k, writes, OutcomeEffect(o, beneficiary));
    var w' := After(w, o, beneficiary);
    TypedNext(view, k, beneficiary, snapshots, o, writes);
    forall a, s ensures ResolveSlot(view', a, s) == w'.slots(a, s) {
      SlotNext(view, k, beneficiary, snapshots, o, writes, w, a, s);
    }
    assert ResolveAccount(view, beneficiary, k, beneficiary) == w.accounts(beneficiary);
    BeneficiaryNext(view, k, beneficiary, snapshots, o, writes, w);
    forall a | a != beneficiary
      ensures ResolveAccount(view', beneficiary, k + 1, a) == w'.accounts(a)
         <==> (a in o.changes ==> !LosesCode(o.changes[a], snapshots, a))
    {
      assert ResolveAccount(view, beneficiary, k, a) == w.accounts(a);
      AccountNext(view, k, beneficiary, snapshots, o, writes, w, a);
    }
  }

  /** Clearing code alone is the failing family: here the account keeps resolving to its old code. */
  lemma ClearedCodeIsLost(view: View, w: World, beneficiary: Address, a: Address, info: Info, codeOf: Hash -> Bytecode)
    requires Represents(view, beneficiary, 0, w) && a != beneficiary
    requires w.accounts(a) == Some(info) && info.codeHash != EMPTY_CODE && info.nonce > 0
    ensures
      var cleared := Account(Info(info.balance, info.nonce, EMPTY_CODE), None, true, false, false, map[]);
      var o := Outcome(map[a := cleared], None);
      && Honest(w, beneficiary, map[a := info], o, codeOf)
      && Publishes(map[], 0, beneficiary, map[a := info], o.changes)
      && After(w, o, beneficiary).accounts(a) != view(Basic(a)).info
  {
  }

  /** Code: whatever was published or left alone, the resolved code has the account's hash. */
  lemma CodeStaysResolvable(
    view: View, k: nat, beneficiary: Address, snapshots: Snapshots, o: Outcome, writes: map<Location, Value>,
    w: World, codeOf: Hash -> Bytecode, database: Hash -> Bytecode)
    requires CodeOk(view, w, codeOf, database) && Honest(w, beneficiary, snapshots, o, codeOf)
    requires Publishes(writes, k, beneficiary, snapshots, o.changes)
    requires Typed(Overlaid(view, k, writes, OutcomeEffect(o, beneficiary)))
    ensures CodeOk(Overlaid(view, k, writes, OutcomeEffect(o, beneficiary)), After(w, o, beneficiary), codeOf, database)
  {
    var view' := Overlaid(view, k, writes, OutcomeEffect(o, beneficiary));
    var w' := After(w, o, beneficiary);
    forall a | w'.accounts(a).Some? && w'.accounts(a).value.codeHash != EMPTY_CODE
      ensures CodeFrom(view'(Code(a)).code, w'.accounts(a).value.codeHash, database)
        == codeOf(w'.accounts(a).value.codeHash)
    {
      assert Code(a) in writes <==> WriteAt(k, beneficiary, snapshots, o.changes, Code(a)).Some?;
      assert a in o.changes ==> HonestCode(o.changes[a], w, a, codeOf);
    }
  }

  // ----- any sequence of transactions -----

  /** One transaction's accounts, what it had read, and what it published. */
  datatype Step = Step(outcome: Outcome, snapshots: Snapshots, writes: map<Location, Value>)

  function WorldAfter(w: World, steps: seq<Step>, beneficiary: Address, k: nat): World
    requires k <= |steps|
  {
    if k == 0 then w else After(WorldAfter(w, steps, beneficiary, k - 1), steps[k - 1].outcome, beneficiary)
  }

  function ViewAfter(view: View, steps: seq<Step>, beneficiary: Address, k: nat): View
    requires k <= |steps|
  {
    if k == 0 then view else
    Overlaid(ViewAfter(view, steps, beneficiary, k - 1), k - 1, steps[k - 1].writes,
             OutcomeEffect(steps[k - 1].outcome, beneficiary))
  }

  /** Step `k` is honest about the world before it, keeps code, and publishes what it should. */
  ghost predicate Sound(w: World, steps: seq<Step>, beneficiary: Address, codeOf: Hash -> Bytecode, k: nat)
    requires k < |steps|
  {
    && Honest(WorldAfter(w, steps, beneficiary, k), beneficiary, steps[k].snapshots, steps[k].outcome, codeOf)
    && KeepsCode(steps[k].outcome, beneficiary, steps[k].snapshots)
    && Publishes(steps[k].writes, k, beneficiary, steps[k].snapshots, steps[k].outcome.changes)
  }

  /**
   * For every sequence of finalized account changes and every reader `k`, resolving accounts, slots
   * and code before `k` gives what applying the first `k` changes in order gives.
   */
  lemma {:induction false} PublicationsRefine(
    view: View, w: World, steps: seq<Step>, beneficiary: Address, codeOf: Hash -> Bytecode,
    database: Hash -> Bytecode, k: nat)
    requires k <= |steps| && Represents(view, beneficiary, 0, w) && CodeOk(view, w, codeOf, database)
    requires forall j :: 0 <= j < k ==> Sound(w, steps, beneficiary, codeOf, j)
    ensures Represents(ViewAfter(view, steps, beneficiary, k), beneficiary, k, WorldAfter(w, steps, beneficiary, k))
    ensures CodeOk(ViewAfter(view, steps, beneficiary, k), WorldAfter(w, steps, beneficiary, k), codeOf, database)
  {
    hide Represents, CodeOk, Honest, KeepsCode, Publishes, After, Overlaid, OutcomeEffect;
    if k > 0 {
      PublicationsRefine(view, w, steps, beneficiary, codeOf, database, k - 1);
      var before, world := ViewAfter(view, steps, beneficiary, k - 1), WorldAfter(w, steps, beneficiary, k - 1);
      var step := steps[k - 1];
      assert Sound(w, steps, beneficiary, codeOf, k - 1);
      PublicationRefines(before, k - 1, beneficiary, step.snapshots, step.outcome, step.writes, world, codeOf);
      RepresentsTyped(ViewAfter(view, steps, beneficiary, k), beneficiary, k, WorldAfter(w, steps, beneficiary, k));
      CodeStaysResolvable(
        before, k - 1, beneficiary, step.snapshots, step.outcome, step.writes, world, codeOf, database);
    }
  }

  lemma RepresentsTyped(view: View, beneficiary: Address, k: nat, w: World)
    requires Represents(view, beneficiary, k, w)
    ensures Typed(view)
  {
  }
}
