/**
 * The account and storage cache between the block and its database: reads fill it, commits change
 * it, and it always answers like the database overlaid with what has been committed.
 */
module StateCache {
  import opened Types
  import opened Accounts
  import opened Publication

  /**
   * How much of an account's storage the cache may assume: everything not cached is zero, or the
   * account is as loaded, or it has changed and uncached slots are still those of the database.
   */
  datatype Coverage = Known | Loaded | Changed

  datatype CacheAccount = CacheAccount(info: Option<Info>, coverage: Coverage)

  /** Accounts without nonce and code have no stored slots. */
  ghost predicate NoOrphanSlots(database: World) {
    forall a, s :: (database.accounts(a).None? || Bare(database.accounts(a).value)) ==> database.slots(a, s) == 0
  }

  predicate Bare(info: Info) {
    info.nonce == 0 && info.codeHash == EMPTY_CODE
  }

  // ----- one account -----

  function FromDatabase(database: World, a: Address): CacheAccount {
    CacheAccount(database.accounts(a), if database.accounts(a).None? then Known else Loaded)
  }

  predicate StorageKnown(cached: Option<CacheAccount>) {
    cached.Some? && (cached.value.coverage.Known? || cached.value.info.None?)
  }

  /** The cached account and slots of `a` agree with the world `w`. */
  ghost predicate AgreesAt(cached: Option<CacheAccount>, slots: map<Slot, Word>, database: World, w: World,
    a: Address) {
    && (cached.Some? ==> cached.value.info == w.accounts(a))
    && (cached.Some? && cached.value.info.None? ==> cached.value.coverage.Known?)
    && (cached.None? || cached.value.coverage.Loaded? ==> w.accounts(a) == database.accounts(a))
    && (forall s <- slots :: slots[s] == w.slots(a, s))
    && (forall s :: s !in slots ==> w.slots(a, s) == if StorageKnown(cached) then 0 else database.slots(a, s))
  }

  /** The slots a journal account changed, as the cache stores them. */
  function ChangedSlots(account: Account): map<Slot, Word> {
    map s <- account.storage.Keys | SlotChanged(account, s) :: account.storage[s].present
  }

  function CoverageAfterChange(cached: CacheAccount): Coverage {
    match cached.coverage
    case Known => Known
    case Loaded => if cached.info.None? || Bare(cached.info.value) then Known else Changed
    case Changed => Changed
  }

  function CachedAfter(cached: CacheAccount, account: Account): CacheAccount {
    match Classify(account)
    case Untouched => cached
    case Deleted => CacheAccount(None, Known)
    case Created => CacheAccount(Some(account.info), Known)
    case Updated => CacheAccount(Some(account.info), CoverageAfterChange(cached))
  }

  function SlotsAfter(slots: map<Slot, Word>, account: Account): map<Slot, Word> {
    match Classify(account)
    case Untouched => slots
    case Deleted => map[]
    case Created => ChangedSlots(account)
    case Updated => slots + ChangedSlots(account)
  }

  lemma CommitAgrees(
    cached: CacheAccount, slots: map<Slot, Word>, database: World, w: World, a: Address, o: Outcome,
      beneficiary: Address)
    requires NoOrphanSlots(database) && AgreesAt(Some(cached), slots, database, w, a)
    requires o.reward.None? && a in o.changes && HonestSlots(o.changes[a], w, a)
    ensures
      AgreesAt(Some(CachedAfter(cached, o.changes[a])), SlotsAfter(slots, o.changes[a]), database, After(w, o,
        beneficiary), a)
  {
  }

  /**
   * When uncached slots are answered without the database: they were before, or the account is reset,
   * or it is changed for the first time after it was loaded without nonce and code.
   */
  lemma WithoutTheDatabase(cached: CacheAccount, account: Account)
    ensures
      StorageKnown(Some(CachedAfter(cached, account))) <==>
        || Resets(account)
        || (if Survives(account)
            then
              || cached.coverage.Known?
              || (cached.coverage.Loaded? && (cached.info.None? || Bare(cached.info.value)))
            else StorageKnown(Some(cached)))
  {
  }

  /** Accounts the transaction did not change stay in agreement. */
  lemma OthersAgree(
    cached: Option<CacheAccount>, slots: map<Slot, Word>, database: World, w: World, a: Address, o: Outcome,
    beneficiary: Address)
    requires AgreesAt(cached, slots, database, w, a) && a !in o.changes && o.reward.None?
    ensures AgreesAt(cached, slots, database, After(w, o, beneficiary), a)
  {
  }

  // ----- the cache -----

  type AccountMap = map<Address, CacheAccount>
  type StorageMap = map<Address, map<Slot, Word>>

  function CachedIn(accounts: AccountMap, a: Address): Option<CacheAccount> {
    if a in accounts then Some(accounts[a]) else None
  }

  function SlotsIn(storage: StorageMap, a: Address): map<Slot, Word> {
    if a in storage then storage[a] else map[]
  }

  ghost predicate Agrees(accounts: AccountMap, storage: StorageMap, database: World, w: World) {
    forall a :: AgreesAt(CachedIn(accounts, a), SlotsIn(storage, a), database, w, a)
  }

  class ParallelState {
    const database: World
    ghost var world: World
    var accounts: AccountMap
    var storage: StorageMap

    ghost predicate Valid()
      reads this
    {
      NoOrphanSlots(database) && Agrees(accounts, storage, database, world)
    }

    constructor (database: World)
      requires NoOrphanSlots(database)
      ensures Valid() && this.database == database && world == database
    {
      this.database := database;
      world := database;
      accounts, storage := map[], map[];
    }

    /** An account read through the cache is the account of the world. */
    method Basic(a: Address) returns (info: Option<Info>)
      requires Valid()
      modifies this`accounts
      ensures Valid() && info == world.accounts(a) && a in accounts
      ensures forall b <- old(accounts) :: b in accounts && accounts[b] == old(accounts)[b]
    {
      assert AgreesAt(CachedIn(accounts, a), SlotsIn(storage, a), database, world, a);
      if a in accounts {
        return accounts[a].info;
      }
      var cached := FromDatabase(database, a);
      ghost var before := accounts;
      accounts := accounts[a := cached];
      forall b ensures AgreesAt(CachedIn(accounts, b), SlotsIn(storage, b), database, world, b) {
        assert AgreesAt(CachedIn(before, b), SlotsIn(storage, b), database, world, b);
      }
      return cached.info;
    }

    /** A slot read through the cache is the slot of the world, whether or not the account is cached. */
    method Storage(a: Address, s: Slot) returns (word: Word)
      requires Valid()
      modifies this`storage
      ensures Valid() && word == world.slots(a, s)
    {
      assert AgreesAt(CachedIn(accounts, a), SlotsIn(storage, a), database, world, a);
      if a in storage && s in storage[a] {
        return storage[a][s];
      }
      var known := a in accounts && (accounts[a].coverage.Known? || accounts[a].info.None?);
      word := if known then 0 else database.slots(a, s);
      ghost var before := storage;
      storage := storage[a := SlotsIn(storage, a)[s := word]];
      forall b ensures AgreesAt(CachedIn(accounts, b), SlotsIn(storage, b), database, world, b) {
        assert AgreesAt(CachedIn(accounts, b), SlotsIn(before, b), database, world, b);
      }
    }

    /** One account of a committed transaction. */
    method ApplyAccount(a: Address, account: Account)
      requires a in accounts
      modifies this`accounts, this`storage
      ensures accounts == old(accounts)[a := CachedAfter(old(accounts)[a], account)]
      ensures forall b :: SlotsIn(storage, b) == if b == a then SlotsAfter(SlotsIn(old(storage), a), account)
        else SlotsIn(old(storage), b)
    {
      if !account.touched {
        return;
      }
      if account.selfdestructed {
        storage := storage - {a};
        accounts := accounts[a := CacheAccount(None, Known)];
        return;
      }
      var changed := ChangedSlots(account);
      if account.created {
        storage := storage - {a};
        accounts := accounts[a := CacheAccount(Some(account.info), Known)];
      } else if IsEmpty(account.info) {
        storage := storage - {a};
        accounts := accounts[a := CacheAccount(None, Known)];
        return;
      } else {
        accounts := accounts[a := CacheAccount(Some(account.info), CoverageAfterChange(accounts[a]))];
      }
      if changed != map[] {
        storage := storage[a := SlotsIn(storage, a) + changed];
      }
      assert SlotsIn(storage, a) == SlotsAfter(SlotsIn(old(storage), a), account);
    }

    /** Commit a transaction: the cache now answers like the world it leaves. */
    method Commit(changes: Changes)
      requires Valid() && changes.Keys <= accounts.Keys
      requires forall a <- changes :: HonestSlots(changes[a], world, a)
      modifies this
      ensures Valid() && world == After(old(world), Outcome(changes, None), 0)
      ensures accounts.Keys == old(accounts).Keys
    {
      hide AgreesAt, After, CachedAfter, SlotsAfter, HonestSlots, NoOrphanSlots;
      ghost var o := Outcome(changes, None);
      ghost var w, w' := world, After(world, o, 0);
      var todo := changes.Keys;
      forall a | a !in todo ensures AgreesAt(CachedIn(accounts, a), SlotsIn(storage, a), database, w', a) {
        OthersAgree(CachedIn(accounts, a), SlotsIn(storage, a), database, w, a, o, 0);
      }
      while todo != {}
        invariant todo <= changes.Keys <= accounts.Keys == old(accounts).Keys && world == w
        invariant forall a :: AgreesAt(CachedIn(accounts, a), SlotsIn(storage, a), database, if a in todo then w
          else w', a)
        decreases |todo|
      {
        var a :| a in todo;
        ghost var accounts0, storage0 := accounts, storage;
        assert AgreesAt(CachedIn(accounts, a), SlotsIn(storage, a), database, w, a);
        CommitAgrees(accounts[a], SlotsIn(storage, a), database, w, a, o, 0);
        ApplyAccount(a, changes[a]);
        todo := todo - {a};
        forall b ensures AgreesAt(CachedIn(accounts, b), SlotsIn(storage, b), database, if b in todo then w else w',
          b) {
          assert b != a ==>
            CachedIn(accounts, b) == CachedIn(accounts0, b) && SlotsIn(storage, b) == SlotsIn(storage0, b);
        }
      }
      world := w';
    }
  }
}
