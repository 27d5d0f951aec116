/**
 * The delegated-balance reserve: what an account will need for its later transactions, and what its
 * balance was before delegated execution first took something out of it.
 */
module Reserve {
  import opened Types

  // ----- the cost of later transactions -----

  /** `maxSpending` is absent when the transaction's own maximum cost overflows. */
  datatype TxCost = TxCost(caller: Address, maxSpending: Option<Word>)

  function CostOf(tx: TxCost): Word {
    if tx.maxSpending.Some? then tx.maxSpending.value else U256_MAX
  }

  /** The exact cost, unbounded, of `a`'s transactions from index `i` on. */
  function SumFrom(txs: seq<TxCost>, a: Address, i: nat): nat
    decreases |txs| - i
  {
    if i >= |txs| then 0 else (if txs[i].caller == a then CostOf(txs[i]) else 0) + SumFrom(txs, a, i + 1)
  }

  function Cap(n: nat): Word {
    if n <= U256_MAX then n else U256_MAX
  }

  function SaturatingAdd(a: Word, b: Word): Word {
    Cap(a + b)
  }

  /** Where `a` is the caller. */
  ghost predicate IsIndexOf(txids: seq<TxId>, txs: seq<TxCost>, a: Address, k: nat)
    requires k <= |txs|
  {
    && (forall i, j :: 0 <= i < j < |txids| ==> txids[i] < txids[j])
    && (forall i :: 0 <= i < |txids| ==> txids[i] < k && txs[txids[i]].caller == a)
    && (forall t :: 0 <= t < k && txs[t].caller == a ==> t in txids)
  }

  datatype Schedule = Schedule(txids: seq<TxId>, costFrom: seq<Word>)

  ghost predicate IsSchedule(s: Schedule, txs: seq<TxCost>, a: Address) {
    && IsIndexOf(s.txids, txs, a, |txs|) && |s.costFrom| == |s.txids|
    && forall i :: 0 <= i < |s.txids| ==> s.costFrom[i] == Cap(SumFrom(txs, a, s.txids[i]))
  }

  /** Nothing of `a` lies between `i` and `j`. */
  lemma {:induction false} SkipOthers(txs: seq<TxCost>, a: Address, i: nat, j: nat)
    requires i <= j <= |txs| && forall t :: i <= t < j ==> txs[t].caller != a
    ensures SumFrom(txs, a, i) == SumFrom(txs, a, j)
    decreases j - i
  {
    if i < j {
      SkipOthers(txs, a, i + 1, j);
    }
  }

  /** The first index whose transaction comes strictly after `txid`. */
  function PartitionPoint(txids: seq<TxId>, txid: TxId): (p: nat)
    ensures p <= |txids|
    ensures forall i :: 0 <= i < p ==> txids[i] <= txid
    ensures p < |txids| ==> txids[p] > txid
  {
    if txids == [] || txids[0] > txid then 0 else 1 + PartitionPoint(txids[1..], txid)
  }

  /** Everything `a` still has to pay after `txid`, capped at the largest word. */
  function Required(txs: seq<TxCost>, a: Address, txid: TxId): Word {
    Cap(SumFrom(txs, a, txid + 1))
  }

  lemma NextOwn(txids: seq<TxId>, txs: seq<TxCost>, a: Address, txid: TxId)
    requires IsIndexOf(txids, txs, a, |txs|)
    ensures
      var p := PartitionPoint(txids, txid);
      SumFrom(txs, a, txid + 1) == if p < |txids| then SumFrom(txs, a, txids[p]) else 0
  {
    var p := PartitionPoint(txids, txid);
    var end := if p < |txids| then txids[p] else |txs|;
    if txid + 1 <= end {
      forall t | txid + 1 <= t < end ensures txs[t].caller != a {
        assert forall i :: 0 <= i < |txids| ==> txids[i] <= txid || txids[i] >= end;
        assert t !in txids;
      }
      SkipOthers(txs, a, txid + 1, end);
    }
  }

  lemma {:induction false} EmptySums(txs: seq<TxCost>, a: Address, i: nat)
    requires forall t :: 0 <= t < |txs| ==> txs[t].caller != a
    ensures SumFrom(txs, a, i) == 0
  {
    if i <= |txs| {
      SkipOthers(txs, a, i, |txs|);
    }
  }

  /** Some transaction of `a` from index `i` on has a maximum cost that overflows. */
  ghost predicate Overflows(txs: seq<TxCost>, a: Address, i: nat) {
    exists t :: i <= t < |txs| && txs[t].caller == a && txs[t].maxSpending.None?
  }

  /** The maximum costs of `a` from index `i` on, as far as they do not overflow. */
  ghost function SpendingFrom(txs: seq<TxCost>, a: Address, i: nat): nat
    decreases |txs| - i
  {
    if i >= |txs| then 0
    else
      var rest := SpendingFrom(txs, a, i + 1);
      if txs[i].caller == a && txs[i].maxSpending.Some? then txs[i].maxSpending.value + rest else rest
  }

  /** One overflowing cost asks for the largest word; without one, the costs simply add up. */
  lemma {:induction false} SumIsSpending(txs: seq<TxCost>, a: Address, i: nat)
    ensures Overflows(txs, a, i) ==> SumFrom(txs, a, i) >= U256_MAX
    ensures !Overflows(txs, a, i) ==> SumFrom(txs, a, i) == SpendingFrom(txs, a, i)
    decreases |txs| - i
  {
    if i < |txs| {
      SumIsSpending(txs, a, i + 1);
    }
  }

  lemma RequiredIsSpending(txs: seq<TxCost>, a: Address, txid: TxId)
    ensures
      Required(txs, a, txid) ==
      if Overflows(txs, a, txid + 1) then U256_MAX else Cap(SpendingFrom(txs, a, txid + 1))
  {
    SumIsSpending(txs, a, txid + 1);
  }

  /** Saturating suffix sums are capped exact sums. */
  lemma SaturatingIsCapped(a: nat, b: Word)
    ensures SaturatingAdd(Cap(a), b) == Cap(b + a)
  {
  }

  /** The planner: an index and schedules that are built when first asked for. */
  class ReservePlanner {
    const txs: seq<TxCost>
    var senderIndex: Option<map<Address, seq<TxId>>>
    var schedules: map<Address, Schedule>

    ghost predicate Valid()
      reads this
    {
      && (senderIndex.Some? ==> IndexOk(senderIndex.value, txs, |txs|))
      && forall a <- schedules :: IsSchedule(schedules[a], txs, a)
    }

    constructor (txs: seq<TxCost>)
      ensures Valid() && this.txs == txs && senderIndex.None? && schedules == map[]
    {
      this.txs, senderIndex, schedules := txs, None, map[];
    }

    method BuildIndex() returns (index: map<Address, seq<TxId>>)
      ensures IndexOk(index, txs, |txs|)
    {
      index := map[];
      var txid := 0;
      while txid < |txs|
        invariant txid <= |txs| && IndexOk(index, txs, txid)
      {
        IndexGrows(index, txs, txid);
        var caller := txs[txid].caller;
        index := index[caller := (if caller in index then index[caller] else []) + [txid]];
        txid := txid + 1;
      }
    }

    method BuildSchedule(txids: seq<TxId>, ghost a: Address) returns (s: Schedule)
      requires IsIndexOf(txids, txs, a, |txs|)
      ensures IsSchedule(s, txs, a)
    {
      var costs: seq<Word> := seq(|txids|, _ => 0);
      var suffix: Word := 0;
      var i := |txids|;
      hide SumFrom;
      while i > 0
        invariant 0 <= i <= |txids| == |costs|
        invariant suffix == CostAt(txids, txs, a, i)
        invariant forall j :: i <= j < |txids| ==> costs[j] == CostAt(txids, txs, a, j)
      {
        i := i - 1;
        CostStep(txids, txs, a, i);
        suffix := SaturatingAdd(suffix, CostOf(txs[txids[i]]));
        costs := costs[i := suffix];
      }
      s := Schedule(txids, costs);
    }

    /**
     * Whatever was asked before, the answer is the capped sum of the later maximum costs, and the
     * largest word if one of them overflows.
     */
    method RequiredAfter(txid: TxId, a: Address) returns (r: Word)
      requires Valid()
      modifies this
      ensures Valid() && r == Required(txs, a, txid)
      ensures r == if Overflows(txs, a, txid + 1) then U256_MAX else Cap(SpendingFrom(txs, a, txid + 1))
    {
      RequiredIsSpending(txs, a, txid);
      hide SumFrom, IsIndexOf, Overflows, SpendingFrom;
      if senderIndex.None? {
        var index := BuildIndex();
        senderIndex := Some(index);
      }
      if a !in senderIndex.value {
        EmptySums(txs, a, txid + 1);
        return 0;
      }
      var txids := senderIndex.value[a];
      NextOwn(txids, txs, a, txid);
      if PartitionPoint(txids, txid) == |txids| {
        return 0;
      }
      if a !in schedules {
        var s := BuildSchedule(txids, a);
        schedules := schedules[a := s];
      }
      var s := schedules[a];
      NextOwn(s.txids, txs, a, txid);
      var p := PartitionPoint(s.txids, txid);
      r := if p < |s.costFrom| then s.costFrom[p] else 0;
    }
  }

  ghost predicate IndexOk(index: map<Address, seq<TxId>>, txs: seq<TxCost>, k: nat)
    requires k <= |txs|
  {
    && (forall a <- index :: IsIndexOf(index[a], txs, a, k))
    && (forall t :: 0 <= t < k ==> txs[t].caller in index)
  }

  lemma IndexGrows(index: map<Address, seq<TxId>>, txs: seq<TxCost>, k: nat)
    requires k < |txs| && IndexOk(index, txs, k)
    ensures
      var caller := txs[k].caller;
      IndexOk(index[caller := (if caller in index then index[caller] else []) + [k]], txs, k + 1)
  {
    hide IsIndexOf;
    var caller := txs[k].caller;
    var own := if caller in index then index[caller] else [];
    if caller !in index {
      EmptyIndex(txs, caller, k);
    }
    IndexOne(own, txs, caller, k);
    forall a <- index | a != caller ensures IsIndexOf(index[a], txs, a, k + 1) {
      IndexWiden(index[a], txs, a, k);
    }
  }

  lemma EmptyIndex(txs: seq<TxCost>, a: Address, k: nat)
    requires k <= |txs| && forall t :: 0 <= t < k ==> txs[t].caller != a
    ensures IsIndexOf([], txs, a, k)
  {
  }

  lemma IndexWiden(own: seq<TxId>, txs: seq<TxCost>, a: Address, k: nat)
    requires k < |txs| && IsIndexOf(own, txs, a, k) && txs[k].caller != a
    ensures IsIndexOf(own, txs, a, k + 1)
  {
  }

  lemma IndexOne(own: seq<TxId>, txs: seq<TxCost>, a: Address, k: nat)
    requires k < |txs| && IsIndexOf(own, txs, a, k) && txs[k].caller == a
    ensures IsIndexOf(own + [k], txs, a, k + 1)
  {
  }

  /** The capped cost from the `i`th transaction of the index on. */
  ghost function CostAt(txids: seq<TxId>, txs: seq<TxCost>, a: Address, i: nat): Word {
    if i < |txids| then Cap(SumFrom(txs, a, txids[i])) else 0
  }

  lemma CostStep(txids: seq<TxId>, txs: seq<TxCost>, a: Address, i: nat)
    requires IsIndexOf(txids, txs, a, |txs|) && i < |txids|
    ensures CostAt(txids, txs, a, i) == SaturatingAdd(CostAt(txids, txs, a, i + 1), CostOf(txs[txids[i]]))
  {
    NextOwn(txids, txs, a, txids[i]);
    var p := PartitionPoint(txids, txids[i]);
    assert i + 1 < |txids| ==> txids[i] < txids[i + 1];
    assert forall k :: 0 <= k < i ==> txids[k] < txids[i];
    assert p == i + 1;
    SaturatingIsCapped(SumFrom(txs, a, txids[i] + 1), CostOf(txs[txids[i]]));
  }

  // ----- undoing a balance journal -----

  datatype JournalEntry =
    | BalanceTransfer(from: Address, to: Address, balance: Word)
    | AccountDestroyed(destroyed: Address, target: Address, hadBalance: Word)
    | BalanceChange(address: Address, oldBalance: Word)
    | OtherEntry

  /** What an entry says happened to the balance of `a`. */
  predicate Moves(entry: JournalEntry, a: Address, before: Word, after: Word) {
    match entry
    case BalanceTransfer(from, to, v) =>
      if from == a && to != a then before >= v && after == before - v
      else if to == a && from != a then after == before + v
      else after == before
    case AccountDestroyed(destroyed, target, had) =>
      if destroyed == a then before >= had && after == before - had
      else if target == a then after == before + had
      else after == before
    case BalanceChange(changed, previous) => if changed == a then before == previous else after == before
    case OtherEntry => after == before
  }

  /** `balances[i]` is the balance of `a` before entry `i`, and the last one is the final balance. */
  ghost predicate Journaled(entries: seq<JournalEntry>, a: Address, balances: seq<Word>) {
    && |balances| == |entries| + 1
    && forall i :: 0 <= i < |entries| ==> Moves(entries[i], a, balances[i], balances[i + 1])
  }

  function SaturatingSub(a: Word, b: Word): Word {
    if b <= a then a - b else 0
  }

  function UndoOne(entry: JournalEntry, a: Address, balance: Word): Word {
    match entry
    case BalanceTransfer(from, to, v) =>
      if from == a && to != a then SaturatingAdd(balance, v)
      else if to == a && from != a then SaturatingSub(balance, v)
      else balance
    case AccountDestroyed(destroyed, target, had) =>
      if destroyed == a then SaturatingAdd(balance, had)
      else if target == a then SaturatingSub(balance, had)
      else balance
    case BalanceChange(changed, previous) => if changed == a then previous else balance
    case OtherEntry => balance
  }

  /** Undo the entries from the end down to `index`. */
  function Undo(entries: seq<JournalEntry>, index: nat, a: Address, balance: Word): Word
    requires index <= |entries|
    decreases |entries| - index
  {
    if index == |entries| then balance else UndoOne(entries[index], a, Undo(entries, index + 1, a, balance))
  }

  /** In a journal that records what happened, nothing saturates and the walk back is exact. */
  lemma {:induction false} UndoIsExact(entries: seq<JournalEntry>, index: nat, a: Address, balances: seq<Word>)
    requires index <= |entries| && Journaled(entries, a, balances)
    ensures Undo(entries, index, a, balances[|entries|]) == balances[index]
    decreases |entries| - index
  {
    if index < |entries| {
      UndoIsExact(entries, index + 1, a, balances);
      assert Moves(entries[index], a, balances[index], balances[index + 1]);
    }
  }

  method BalanceBeforeEntry(entries: seq<JournalEntry>, index: nat, a: Address, finalBalance: Word)
    returns (balance: Word)
    requires index <= |entries|
    ensures balance == Undo(entries, index, a, finalBalance)
  {
    balance := finalBalance;
    var i := |entries|;
    while i > index
      invariant index <= i <= |entries| && balance == Undo(entries, i, a, finalBalance)
    {
      i := i - 1;
      balance := UndoOne(entries[i], a, balance);
    }
  }

  // ----- delegated debits -----

  datatype Kind = Call(target: Address) | Create

  datatype CallEnv = CallEnv(caller: Address, value: Word, kind: Kind)

  /** An account as execution leaves it. */
  datatype AccountView = AccountView(balance: Word, delegated: bool)

  datatype DelegatedDebit = DelegatedDebit(address: Address, balanceBefore: Word, finalBalance: Word)

  predicate IsRootTransfer(entry: JournalEntry, tx: CallEnv) {
    && entry.BalanceTransfer? && entry.from == tx.caller && entry.balance == tx.value
    && (tx.kind.Call? ==> entry.to == tx.kind.target)
  }

  /** The entry changes the balance of `a` by `change`, whatever it was. */
  ghost predicate ChangesBy(entry: JournalEntry, a: Address, change: int) {
    && (exists before: Word, after: Word :: Moves(entry, a, before, after))
    && forall before: Word, after: Word :: Moves(entry, a, before, after) ==> after - before == change
  }

  /** A root transfer takes the transaction's value from its caller and, in a call, gives it to the target. */
  lemma RootMovesTheValue(entry: JournalEntry, tx: CallEnv)
    requires entry.BalanceTransfer? && entry.from != entry.to && tx.value != 0
    ensures
      IsRootTransfer(entry, tx) <==>
        && ChangesBy(entry, tx.caller, -(tx.value as int))
        && (tx.kind.Call? ==> ChangesBy(entry, tx.kind.target, tx.value))
  {
    assert Moves(entry, entry.from, U256_MAX, U256_MAX - entry.balance);
    assert Moves(entry, entry.to, 0, entry.balance);
    assert forall a :: a != entry.from && a != entry.to ==> Moves(entry, a, 0, 0);
  }

  /** Entry `i` is the transaction's own value transfer: the first that looks like it. */
  ghost predicate IsRoot(entries: seq<JournalEntry>, tx: CallEnv, start: nat, i: nat) {
    && start <= i < |entries| && tx.value != 0 && IsRootTransfer(entries[i], tx)
    && forall k :: start <= k < i ==> !IsRootTransfer(entries[k], tx)
  }

  /** At most one entry is exempt, and only if the transaction carries value. */
  lemma OneRoot(entries: seq<JournalEntry>, tx: CallEnv, start: nat, i: nat, j: nat)
    requires IsRoot(entries, tx, start, i) && IsRoot(entries, tx, start, j)
    ensures i == j && tx.value != 0
  {
  }

  /** The account an entry takes value out of. */
  function Source(entry: JournalEntry): Option<Address> {
    match entry
    case BalanceTransfer(from, to, v) => if from != to && v != 0 then Some(from) else None
    case AccountDestroyed(destroyed, _, had) => if had != 0 then Some(destroyed) else None
    case _ => None
  }

  /** Value moves by transfers and destructions; a `BalanceChange` moves none to another account. */
  predicate IsMove(entry: JournalEntry) {
    entry.BalanceTransfer? || entry.AccountDestroyed?
  }

  /** The entry takes something from `a`, whatever `a` had. */
  ghost predicate TakesFrom(entry: JournalEntry, a: Address) {
    forall before: Word, after: Word :: Moves(entry, a, before, after) ==> after < before
  }

  /** The account named is the one whose balance falls. */
  lemma SourceLosesValue(entry: JournalEntry, a: Address)
    requires IsMove(entry)
    ensures Source(entry) == Some(a) <==> TakesFrom(entry, a)
  {
    if Source(entry) != Some(a) {
      assert Moves(entry, a, U256_MAX, U256_MAX) || Moves(entry, a, 0, Amount(entry));
    }
  }

  /** What a transfer or a destruction moves. */
  function Amount(entry: JournalEntry): Word
    requires IsMove(entry)
  {
    if entry.BalanceTransfer? then entry.balance else entry.hadBalance
  }

  /** Entry `i` debits the delegated account `a`, other than by the root transfer. */
  ghost predicate Debits(
    entries: seq<JournalEntry>, tx: CallEnv, state: map<Address, AccountView>, start: nat, i: nat, a: Address)
  {
    && start <= i < |entries| && Source(entries[i]) == Some(a)
    && a in state && state[a].delegated && !IsRoot(entries, tx, start, i)
  }

  /** Among the entries before `end`, `first` holds each debited account at its first debit. */
  ghost predicate FirstDebits(
    first: map<Address, nat>, entries: seq<JournalEntry>, tx: CallEnv, state: map<Address, AccountView>, start: nat,
      end: nat)
  {
    && (forall a <- first ::
          && first[a] < end && Debits(entries, tx, state, start, first[a], a)
          && forall k :: start <= k < first[a] ==> !Debits(entries, tx, state, start, k, a))
    && (forall a: Address, k: nat :: k < end && Debits(entries, tx, state, start, k, a) ==> a in first)
  }

  method FirstDebitsSince(entries: seq<JournalEntry>, start: nat, tx: CallEnv, state: map<Address, AccountView>)
    returns (first: map<Address, nat>)
    requires start <= |entries|
    ensures FirstDebits(first, entries, tx, state, start, |entries|)
  {
    first := map[];
    var rootPending := tx.value != 0;
    var i := start;
    while i < |entries|
      invariant start <= i <= |entries|
      invariant rootPending <==> tx.value != 0 && forall k :: start <= k < i ==> !IsRootTransfer(entries[k], tx)
      invariant FirstDebits(first, entries, tx, state, start, i)
    {
      var entry := entries[i];
      if rootPending && IsRootTransfer(entry, tx) {
        assert IsRoot(entries, tx, start, i);
        rootPending := false;
      } else {
        assert !IsRoot(entries, tx, start, i);
        var source := Source(entry);
        if source.Some? && source.value in state && state[source.value].delegated && source.value !in first {
          first := first[source.value := i];
        }
      }
      i := i + 1;
    }
  }

  /** The debit reported for `a`: its balance is taken back to before its first debit. */
  ghost predicate Reports(
    d: DelegatedDebit, entries: seq<JournalEntry>, state: map<Address, AccountView>, a: Address, index: nat)
    requires index <= |entries|
  {
    a in state && d == DelegatedDebit(a, Undo(entries, index, a, state[a].balance), state[a].balance)
  }

  /** Each debited delegated account once, in any order. */
  ghost predicate AllDebits(
    debits: seq<DelegatedDebit>, first: map<Address, nat>, entries: seq<JournalEntry>, state: map<Address, AccountView>,
    todo: set<Address>)
  {
    && (forall d <- debits :: d.address in first && d.address !in todo && first[d.address] <= |entries|
          && Reports(d, entries, state, d.address, first[d.address]))
    && (forall i, j :: 0 <= i < j < |debits| ==> debits[i].address != debits[j].address)
    && (forall a <- first :: a in todo || exists d :: d in debits && d.address == a)
  }

  lemma OneMoreDebit(
    debits: seq<DelegatedDebit>, first: map<Address, nat>, entries: seq<JournalEntry>, state: map<Address, AccountView>,
    todo: set<Address>, a: Address, d: DelegatedDebit)
    requires AllDebits(debits, first, entries, state, todo) && a in todo && a in first
    requires first[a] <= |entries| && Reports(d, entries, state, a, first[a])
    ensures AllDebits(debits + [d], first, entries, state, todo - {a})
  {
  }

  /** Entry `index` is the first debit of `a`. */
  ghost predicate FirstDebitAt(
    entries: seq<JournalEntry>, tx: CallEnv, state: map<Address, AccountView>, start: nat, index: nat, a: Address)
  {
    && Debits(entries, tx, state, start, index, a)
    && forall k :: start <= k < index ==> !Debits(entries, tx, state, start, k, a)
  }

  lemma DebitsListed(
    debits: seq<DelegatedDebit>, first: map<Address, nat>, entries: seq<JournalEntry>, tx: CallEnv,
    state: map<Address, AccountView>, start: nat)
    requires FirstDebits(first, entries, tx, state, start, |entries|) && AllDebits(debits, first, entries, state, {})
    ensures forall d <- debits :: Listed(d, entries, tx, state, start)
    ensures forall a: Address, k: nat :: Debits(entries, tx, state, start, k, a) ==>
      exists d :: d in debits && d.address == a
  {
    forall d <- debits ensures Listed(d, entries, tx, state, start) {
      assert FirstDebitAt(entries, tx, state, start, first[d.address], d.address);
    }
  }

  /** A reported debit: the account, its balance before its first debit, and its final balance. */
  ghost predicate Listed(
    d: DelegatedDebit, entries: seq<JournalEntry>, tx: CallEnv, state: map<Address, AccountView>, start: nat)
  {
    exists index: nat ::
      index < |entries| && FirstDebitAt(entries, tx, state, start, index, d.address)
      && Reports(d, entries, state, d.address, index)
  }

  /** Every debited delegated account is listed, once. */
  method DelegatedDebitsSince(entries: seq<JournalEntry>, start: nat, tx: CallEnv, state: map<Address, AccountView>)
    returns (debits: seq<DelegatedDebit>)
    requires start <= |entries|
    ensures forall d <- debits :: Listed(d, entries, tx, state, start)
    ensures forall i, j :: 0 <= i < j < |debits| ==> debits[i].address != debits[j].address
    ensures forall a: Address, k: nat :: Debits(entries, tx, state, start, k, a) ==>
      exists d :: d in debits && d.address == a
  {
    var first := FirstDebitsSince(entries, start, tx, state);
    debits := [];
    var todo := first.Keys;
    while todo != {}
      invariant todo <= first.Keys && AllDebits(debits, first, entries, state, todo)
      decreases |todo|
    {
      var a :| a in todo;
      var before := BalanceBeforeEntry(entries, first[a], a, state[a].balance);
      OneMoreDebit(debits, first, entries, state, todo, a, DelegatedDebit(a, before, state[a].balance));
      debits := debits + [DelegatedDebit(a, before, state[a].balance)];
      todo := todo - {a};
    }
    DebitsListed(debits, first, entries, tx, state, start);
    hide FirstDebits, Listed, Debits, Reports;
  }

  function MinWord(a: Word, b: Word): Word {
    if a < b then a else b
  }

  /** A debited account ends below both what it had before its first debit and what it will need. */
  ghost predicate Violates(
    txs: seq<TxCost>, txid: TxId, entries: seq<JournalEntry>, tx: CallEnv, state: map<Address, AccountView>, start: nat,
    a: Address, index: nat)
  {
    && index < |entries| && FirstDebitAt(entries, tx, state, start, index, a)
    && state[a].balance < Undo(entries, index, a, state[a].balance) && state[a].balance < Required(txs, a, txid)
  }

  predicate Short(txs: seq<TxCost>, txid: TxId, d: DelegatedDebit) {
    d.finalBalance < MinWord(d.balanceBefore, Required(txs, d.address, txid))
  }

  method HasReserveViolation(
    planner: ReservePlanner, txid: TxId, entries: seq<JournalEntry>, start: nat, tx: CallEnv,
    state: map<Address, AccountView>)
    returns (violated: bool)
    requires planner.Valid() && start <= |entries|
    modifies planner
    ensures planner.Valid()
    ensures violated <==>
      exists a: Address, index: nat :: Violates(planner.txs, txid, entries, tx, state, start, a, index)
  {
    hide Listed, Debits, Undo, Required, Violates;
    var candidates := DelegatedDebitsSince(entries, start, tx, state);
    var i := 0;
    while i < |candidates|
      invariant 0 <= i <= |candidates| && planner.Valid()
      invariant forall k :: 0 <= k < i ==> !Short(planner.txs, txid, candidates[k])
    {
      var candidate := candidates[i];
      var futureCost := planner.RequiredAfter(txid, candidate.address);
      if futureCost != 0 && candidate.finalBalance < MinWord(candidate.balanceBefore, futureCost) {
        assert candidate in candidates;
        ShortViolates(planner.txs, txid, entries, tx, state, start, candidate);
        return true;
      }
      i := i + 1;
    }
    NoneShort(planner.txs, txid, entries, tx, state, start, candidates);
    violated := false;
  }

  lemma ShortViolates(
    txs: seq<TxCost>, txid: TxId, entries: seq<JournalEntry>, tx: CallEnv, state: map<Address, AccountView>, start: nat,
    d: DelegatedDebit)
    requires Listed(d, entries, tx, state, start) && Short(txs, txid, d)
    ensures exists a: Address, index: nat :: Violates(txs, txid, entries, tx, state, start, a, index)
  {
    var index: nat :|
      index < |entries| && FirstDebitAt(entries, tx, state, start, index, d.address)
      && Reports(d, entries, state, d.address, index);
    assert Violates(txs, txid, entries, tx, state, start, d.address, index);
  }

  lemma NoneShort(
    txs: seq<TxCost>, txid: TxId, entries: seq<JournalEntry>, tx: CallEnv, state: map<Address, AccountView>, start: nat,
    debits: seq<DelegatedDebit>)
    requires forall d <- debits :: Listed(d, entries, tx, state, start)
    requires forall a: Address, k: nat :: Debits(entries, tx, state, start, k, a) ==>
      exists d :: d in debits && d.address == a
    requires forall k :: 0 <= k < |debits| ==> !Short(txs, txid, debits[k])
    ensures forall a: Address, index: nat :: !Violates(txs, txid, entries, tx, state, start, a, index)
  {
    forall a: Address, index: nat ensures !Violates(txs, txid, entries, tx, state, start, a, index) {
      if index < |entries| && FirstDebitAt(entries, tx, state, start, index, a) {
        var d :| d in debits && d.address == a;
        var k :| 0 <= k < |debits| && debits[k] == d;
        assert !Short(txs, txid, debits[k]);
        var i: nat :|
          i < |entries| && FirstDebitAt(entries, tx, state, start, i, a) && Reports(d, entries, state, a, i);
        assert i == index;
      }
    }
  }

  // ----- the reserve in terms of balances -----

  /** The balance of a delegated account at every point of a journal that records what happened. */
  ghost predicate Recorded(
    entries: seq<JournalEntry>, state: map<Address, AccountView>, a: Address, balances: seq<Word>)
  {
    && a in state && state[a].delegated && Journaled(entries, a, balances)
    && balances[|entries|] == state[a].balance
  }

  /** Entry `i` moves value and the balance falls, other than by the root transfer. */
  ghost predicate FallsAt(entries: seq<JournalEntry>, tx: CallEnv, start: nat, balances: seq<Word>, i: nat)
    requires |balances| == |entries| + 1
  {
    && start <= i < |entries| && IsMove(entries[i]) && balances[i + 1] < balances[i]
    && !IsRoot(entries, tx, start, i)
  }

  ghost predicate FirstFallAt(entries: seq<JournalEntry>, tx: CallEnv, start: nat, balances: seq<Word>, i: nat)
    requires |balances| == |entries| + 1
  {
    && FallsAt(entries, tx, start, balances, i)
    && forall k :: start <= k < i ==> !FallsAt(entries, tx, start, balances, k)
  }

  lemma DebitIsFall(
    entries: seq<JournalEntry>, tx: CallEnv, state: map<Address, AccountView>, start: nat, a: Address,
    balances: seq<Word>, i: nat)
    requires Recorded(entries, state, a, balances)
    ensures Debits(entries, tx, state, start, i, a) <==> FallsAt(entries, tx, start, balances, i)
  {
    if i < |entries| {
      assert Moves(entries[i], a, balances[i], balances[i + 1]);
      if IsMove(entries[i]) {
        SourceLosesValue(entries[i], a);
      }
    }
  }

  /** The first fall of the balance leaves the account short of what it had and of what it will need. */
  ghost predicate FallsShort(
    txs: seq<TxCost>, txid: TxId, entries: seq<JournalEntry>, start: nat, tx: CallEnv, balances: seq<Word>, a: Address,
    index: nat)
  {
    && |balances| == |entries| + 1 && FirstFallAt(entries, tx, start, balances, index)
    && balances[|entries|] < balances[index] && balances[|entries|] < Required(txs, a, txid)
  }

  lemma ViolationIsShortfall(
    txs: seq<TxCost>, txid: TxId, entries: seq<JournalEntry>, start: nat, tx: CallEnv, state: map<Address, AccountView>,
    a: Address, balances: seq<Word>, index: nat)
    requires Recorded(entries, state, a, balances)
    ensures
      Violates(txs, txid, entries, tx, state, start, a, index)
      <==> FallsShort(txs, txid, entries, start, tx, balances, a, index)
  {
    hide IsRoot, Required, Moves, Source;
    forall i: nat
      ensures Debits(entries, tx, state, start, i, a) <==> FallsAt(entries, tx, start, balances, i)
    {
      DebitIsFall(entries, tx, state, start, a, balances, i);
    }
    hide Debits, FallsAt;
    if index < |entries| {
      UndoIsExact(entries, index, a, balances);
    }
  }

  /** A violation is reported if and only if some delegated account falls short. */
  lemma ReportsExactly(
    txs: seq<TxCost>, txid: TxId, entries: seq<JournalEntry>, start: nat, tx: CallEnv, state: map<Address, AccountView>,
    balances: Address -> seq<Word>)
    requires forall a <- state :: state[a].delegated ==> Recorded(entries, state, a, balances(a))
    ensures
      (exists a: Address, index: nat :: Violates(txs, txid, entries, tx, state, start, a, index))
      <==> exists a: Address, index: nat ::
        && a in state && state[a].delegated
        && FallsShort(txs, txid, entries, start, tx, balances(a), a, index)
  {
    forall a: Address, index: nat | a in state && state[a].delegated
      ensures
        Violates(txs, txid, entries, tx, state, start, a, index)
        <==> FallsShort(txs, txid, entries, start, tx, balances(a), a, index)
    {
      ViolationIsShortfall(txs, txid, entries, start, tx, state, a, balances(a), index);
    }
    assert forall a: Address, index: nat :: Violates(txs, txid, entries, tx, state, start, a, index) ==>
      a in state && state[a].delegated;
    hide Violates, FallsShort, Recorded;
  }

  /**
   * An accepted execution leaves every delegated account whose balance it made fall with all it had
   * before the first fall, or with everything its later transactions may cost.
   */
  lemma AcceptedKeepsReserve(
    txs: seq<TxCost>, txid: TxId, entries: seq<JournalEntry>, start: nat, tx: CallEnv, state: map<Address, AccountView>,
    a: Address, index: nat, balances: seq<Word>)
    requires !Violates(txs, txid, entries, tx, state, start, a, index)
    requires Recorded(entries, state, a, balances) && FirstFallAt(entries, tx, start, balances, index)
    ensures state[a].balance >= balances[index] || state[a].balance >= Cap(SumFrom(txs, a, txid + 1))
  {
    ViolationIsShortfall(txs, txid, entries, start, tx, state, a, balances, index);
  }
}
