/**
 * The database of one incarnation: it publishes the accounts of a finished execution to
 * multi-version memory and resolves reads through it, recording where every value came from.
 */
module IncarnationDb {
  import opened Types
  import opened Accounts
  import opened Beneficiary
  import opened Publication
  import Protocol

  datatype MemoryEntry = MemoryEntry(incarnation: nat, data: Value, estimate: bool)

  /** For every location, the versions of the transactions that wrote it. */
  type Memory = map<Location, map<TxId, MemoryEntry>>

  datatype ReadVersion = FromStorage | FromMemory(txid: TxId, incarnation: nat)
    | FromHistory(origins: seq<Beneficiary.Version>)

  function Versions(m: Memory, l: Location): map<TxId, MemoryEntry> {
    if l in m then m[l] else map[]
  }

  /** The last writer before `k`. */
  function Newest(versions: map<TxId, MemoryEntry>, k: nat): (r: Option<TxId>)
    ensures r.Some? ==> r.value < k && r.value in versions && forall i :: r.value < i < k ==> i !in versions
    ensures r.None? ==> forall i :: 0 <= i < k ==> i !in versions
  {
    if k == 0 then None else if k - 1 in versions then Some(k - 1) else Newest(versions, k - 1)
  }

  /** Grouping the same entries by transaction, as the protocol does, finds the same last writer. */
  lemma {:induction false} NewestIsLatest(m: Memory, mem: seq<map<Location, Protocol.Entry>>, l: Location, k: nat)
    requires k <= |mem| && forall t: TxId :: t < |mem| ==> (t in Versions(m, l) <==> l in mem[t])
    ensures Newest(Versions(m, l), k) == Protocol.Latest(mem, l, k)
  {
    if k > 0 {
      NewestIsLatest(m, mem, l, k - 1);
    }
  }

  function ValueBefore(m: Memory, base: View, k: nat, l: Location): Value {
    var writer := Newest(Versions(m, l), k);
    if writer.Some? then Versions(m, l)[writer.value].data else base(l)
  }

  function ViewBefore(m: Memory, base: View, k: nat): View {
    (l: Location) => ValueBefore(m, base, k, l)
  }

  function OriginBefore(m: Memory, k: nat, l: Location): ReadVersion {
    var writer := Newest(Versions(m, l), k);
    if writer.Some? then FromMemory(writer.value, Versions(m, l)[writer.value].incarnation) else FromStorage
  }

  /** The writers whose estimates a read of these locations would see. */
  function EstimatesBefore(m: Memory, k: nat, l: Location): set<TxId> {
    var writer := Newest(Versions(m, l), k);
    if writer.Some? && Versions(m, l)[writer.value].estimate then {writer.value} else {}
  }

  // ----- recorded versions -----

  /** At `l`, the memory holds the entries that `mem` holds by transaction. */
  ghost predicate Mirrors(m: Memory, mem: seq<map<Location, Protocol.Entry>>, l: Location) {
    forall t: TxId :: t < |mem| ==>
      && (t in Versions(m, l) <==> l in mem[t])
      && (l in mem[t] ==>
            Versions(m, l)[t] == MemoryEntry(mem[t][l].incarnation, mem[t][l].value, mem[t][l].estimate))
  }

  /** A version recorded by a lookup, as the protocol writes it. */
  predicate Names(v: ReadVersion, version: Protocol.Version) {
    match v
    case FromStorage => version == Protocol.FromStorage
    case FromMemory(txid, incarnation) => version == Protocol.FromTx(txid, incarnation)
    case FromHistory(_) => false
  }

  /** The entry a lookup by `k` finds is an estimate of transaction `i`. */
  predicate FindsEstimate(mem: seq<map<Location, Protocol.Entry>>, l: Location, k: nat, i: TxId)
    requires k <= |mem|
  {
    Protocol.Latest(mem, l, k) == Some(i) && mem[i][l].estimate
  }

  /**
   * Over every memory that holds the same entries, the version recorded for `l` is the one the
   * protocol's lookup finds there: it is current unless an estimate was found, and the writer of an
   * estimate is among those the execution waits for.
   */
  ghost predicate Records(readSet: map<Location, ReadVersion>, blocking: set<TxId>, m: Memory, k: nat, l: Location) {
    l in readSet && forall mem :: Mirrors(m, mem, l) && k <= |mem| ==>
      && (forall v :: Names(readSet[l], v) ==>
            (Protocol.Current(mem, l, k, v) <==> forall i :: !FindsEstimate(mem, l, k, i)))
      && (exists v :: Names(readSet[l], v))
      && forall i :: FindsEstimate(mem, l, k, i) ==> i in blocking
  }

  /** What a lookup of `l` by `k` records, by the protocol's own grouping of the memory. */
  lemma OriginIsLatest(m: Memory, mem: seq<map<Location, Protocol.Entry>>, l: Location, k: nat)
    requires Mirrors(m, mem, l) && k <= |mem|
    ensures
      match Protocol.Latest(mem, l, k)
      case None => OriginBefore(m, k, l) == FromStorage && EstimatesBefore(m, k, l) == {}
      case Some(i) =>
        && OriginBefore(m, k, l) == FromMemory(i, mem[i][l].incarnation)
        && EstimatesBefore(m, k, l) == if mem[i][l].estimate then {i} else {}
  {
    NewestIsLatest(m, mem, l, k);
  }

  /** A recorded version is found again as long as the last writer and its incarnation stay. */
  lemma RecordedStaysCurrent(
    m: Memory, mem: seq<map<Location, Protocol.Entry>>, mem': seq<map<Location, Protocol.Entry>>, l: Location, k: nat,
    v: Protocol.Version)
    requires Mirrors(m, mem, l) && k <= |mem| && k <= |mem'| && Names(OriginBefore(m, k, l), v)
    ensures
      Protocol.Current(mem', l, k, v) <==>
        && Protocol.Latest(mem', l, k) == Protocol.Latest(mem, l, k)
        && match Protocol.Latest(mem, l, k)
           case None => true
           case Some(i) => mem'[i][l].incarnation == mem[i][l].incarnation && !mem'[i][l].estimate
  {
    OriginIsLatest(m, mem, l, k);
  }

  /** Once the entry that was read is published again by a newer incarnation, the version is stale. */
  lemma RepublishedIsStale(
    m: Memory, mem: seq<map<Location, Protocol.Entry>>, l: Location, k: nat, i: TxId, entry: Protocol.Entry,
    v: Protocol.Version)
    requires Mirrors(m, mem, l) && k <= |mem| && Protocol.Latest(mem, l, k) == Some(i)
    requires Names(OriginBefore(m, k, l), v) && entry.incarnation > mem[i][l].incarnation
    ensures !Protocol.Current(mem[i := mem[i][l := entry]], l, k, v)
  {
    RecordedStaysCurrent(m, mem, mem[i := mem[i][l := entry]], l, k, v);
  }

  lemma LookupRecords(readSet: map<Location, ReadVersion>, blocking: set<TxId>, m: Memory, k: nat, l: Location)
    requires l in readSet && readSet[l] == OriginBefore(m, k, l) && EstimatesBefore(m, k, l) <= blocking
    ensures Records(readSet, blocking, m, k, l)
  {
    forall mem: seq<map<Location, Protocol.Entry>> | Mirrors(m, mem, l) && k <= |mem|
      ensures forall v :: Names(readSet[l], v) ==>
        (Protocol.Current(mem, l, k, v) <==> forall i :: !FindsEstimate(mem, l, k, i))
      ensures exists v :: Names(readSet[l], v)
      ensures forall i :: FindsEstimate(mem, l, k, i) ==> i in blocking
    {
      OriginIsLatest(m, mem, l, k);
      var latest := Protocol.Latest(mem, l, k);
      assert latest.None? ==> Names(readSet[l], Protocol.FromStorage);
      assert latest.Some? ==> Names(readSet[l], Protocol.FromTx(latest.value, mem[latest.value][l].incarnation));
      assert latest.Some? && mem[latest.value][l].estimate ==> FindsEstimate(mem, l, k, latest.value);
    }
  }

  // ----- publication -----

  /** `m` is `m0` with `writes` published by one incarnation of `j`, and nothing else touched. */
  ghost predicate Published(
    m: Memory, m0: Memory, writes: map<Location, Value>, j: TxId, incarnation: nat, estimate: bool)
  {
    forall l: Location ::
      Versions(m, l) ==
      if l in writes then Versions(m0, l)[j := MemoryEntry(incarnation, writes[l], estimate)] else Versions(m0, l)
  }

  /** What `j` publishes for the accounts in `done`. */
  ghost predicate PublishesFor(
    writes: map<Location, Value>, j: TxId, beneficiary: Address, snapshots: Snapshots, changes: Changes,
      done: set<Address>)
  {
    forall l: Location ::
      if !l.History? && l.address in done
      then (if l in writes then Some(writes[l]) else None) == WriteAt(j, beneficiary, snapshots, changes, l)
      else l !in writes
  }

  lemma PublishOne(
    m: Memory, m0: Memory, writes: map<Location, Value>, j: TxId, incarnation: nat, estimate: bool, l: Location,
      v: Value)
    requires Published(m, m0, writes, j, incarnation, estimate)
    ensures
      Published(m[l := Versions(m, l)[j := MemoryEntry(incarnation, v, estimate)]], m0, writes[l := v], j,
        incarnation, estimate)
  {
  }

  /** A value of the right kind for `l`; slots and resets name the transaction that stored them. */
  predicate Tagged(l: Location, writer: Option<TxId>, v: Value) {
    match l
    case Basic(_) => v.AccountValue?
    case Code(_) => v.CodeValue?
    case Storage(_, _) => v.SlotValue? && v.slotWriter == writer
    case StorageReset(_) => v.ResetValue? && v.resetWriter == writer
    case History(_) => v.EffectValue?
  }

  ghost predicate MemoryOk(m: Memory) {
    forall l: Location, t: TxId :: t in Versions(m, l) ==> Tagged(l, Some(t), Versions(m, l)[t].data)
  }

  ghost predicate BaseOk(base: View) {
    forall l: Location :: Tagged(l, None, base(l))
  }

  lemma ViewIsTagged(m: Memory, base: View, k: nat, l: Location)
    requires MemoryOk(m) && BaseOk(base)
    ensures Tagged(l, Newest(Versions(m, l), k), ValueBefore(m, base, k, l))
  {
  }

  /** Whatever is published keeps the memory well typed. */
  lemma PublishedIsTagged(
    m: Memory, m0: Memory, writes: map<Location, Value>, j: TxId, incarnation: nat, estimate: bool,
    beneficiary: Address, snapshots: Snapshots, changes: Changes)
    requires MemoryOk(m0) && Published(m, m0, writes, j, incarnation, estimate)
    requires Publishes(writes, j, beneficiary, snapshots, changes)
    ensures MemoryOk(m)
  {
  }

  function Get(writes: map<Location, Value>, l: Location): Option<Value> {
    if l in writes then Some(writes[l]) else None
  }

  function Put(writes: map<Location, Value>, l: Location, v: Option<Value>): map<Location, Value> {
    if v.Some? then writes[l := v.value] else writes
  }

  /** The writes for an account itself, apart from its slots. */
  function PutInfo(
    writes: map<Location, Value>, j: TxId, beneficiary: Address, snapshots: Snapshots, changes: Changes, a: Address)
    : map<Location, Value>
  {
    var w1 := Put(writes, StorageReset(a), WriteAt(j, beneficiary, snapshots, changes, StorageReset(a)));
    var w2 := Put(w1, Code(a), WriteAt(j, beneficiary, snapshots, changes, Code(a)));
    Put(w2, Basic(a), WriteAt(j, beneficiary, snapshots, changes, Basic(a)))
  }

  function SlotWrite(j: TxId, account: Account, s: Slot): Option<Value> {
    if Survives(account) && SlotChanged(account, s) then Some(SlotValue(Some(j), account.storage[s].present)) else None
  }

  /** The slots of `a` outside `todo` have been added to `writes`. */
  ghost predicate SlotsDone(
    after: map<Location, Value>, writes: map<Location, Value>, j: TxId, a: Address, account: Account, todo: set<Slot>)
  {
    forall l: Location ::
      Get(after, l) ==
      if l.Storage? && l.address == a then (if l.slot in todo then None else SlotWrite(j, account, l.slot))
      else Get(writes, l)
  }

  lemma SlotOne(
    after: map<Location, Value>, writes: map<Location, Value>, j: TxId, a: Address, account: Account,
    todo: set<Slot>, s: Slot)
    requires SlotsDone(after, writes, j, a, account, todo) && s in todo
    ensures SlotsDone(Put(after, Storage(a, s), SlotWrite(j, account, s)), writes, j, a, account, todo - {s})
  {
  }

  lemma AccountDone(
    before: map<Location, Value>, writes: map<Location, Value>, j: TxId, beneficiary: Address, snapshots: Snapshots,
    changes: Changes, done: set<Address>, a: Address)
    requires PublishesFor(before, j, beneficiary, snapshots, changes, done) && a in changes && a !in done
    requires SlotsDone(writes, PutInfo(before, j, beneficiary, snapshots, changes, a), j, a, changes[a], {})
    ensures PublishesFor(writes, j, beneficiary, snapshots, changes, done + {a})
  {
    var info := PutInfo(before, j, beneficiary, snapshots, changes, a);
    forall l: Location
      ensures
        if !l.History? && l.address in done + {a} then Get(writes, l) == WriteAt(j, beneficiary, snapshots, changes, l)
        else l !in writes
    {
      assert Get(writes, l) ==
        if l.Storage? && l.address == a then SlotWrite(j, changes[a], l.slot) else Get(info, l);
      if !l.History? && l.address == a && !l.Storage? {
        assert l !in before;
        assert Get(info, l) == WriteAt(j, beneficiary, snapshots, changes, l);
      } else {
        assert Get(info, l) == Get(before, l);
      }
    }
  }

  lemma NothingPublished(
    m: Memory, j: TxId, incarnation: nat, estimate: bool, beneficiary: Address, snapshots: Snapshots, changes: Changes)
    ensures Published(m, m, map[], j, incarnation, estimate)
    ensures PublishesFor(map[], j, beneficiary, snapshots, changes, {})
  {
  }

  lemma NotYet(
    writes: map<Location, Value>, j: TxId, beneficiary: Address, snapshots: Snapshots, changes: Changes,
    done: set<Address>, a: Address)
    requires PublishesFor(writes, j, beneficiary, snapshots, changes, done) && a in changes && a !in done
    ensures forall s :: Storage(a, s) !in PutInfo(writes, j, beneficiary, snapshots, changes, a)
  {
  }

  lemma AllDone(writes: map<Location, Value>, j: TxId, beneficiary: Address, snapshots: Snapshots, changes: Changes)
    requires PublishesFor(writes, j, beneficiary, snapshots, changes, changes.Keys)
    ensures Publishes(writes, j, beneficiary, snapshots, changes)
  {
  }

  /** The memory holds exactly the writes of `steps`, whatever the order of their publication. */
  ghost predicate Holds(m: Memory, steps: seq<Step>) {
    forall l: Location, t: TxId ::
      (t in Versions(m, l) <==> t < |steps| && l in steps[t].writes)
      && (t in Versions(m, l) ==> Versions(m, l)[t].data == steps[t].writes[l])
  }

  /** A lookup before `k` sees the view that the first `k` transactions leave, location by location. */
  lemma {:induction false} LookupSeesPrefix(
    m: Memory, base: View, steps: seq<Step>, beneficiary: Address, k: nat, l: Location)
    requires Holds(m, steps) && k <= |steps| && !l.History?
    ensures ValueBefore(m, base, k, l) == ViewAfter(base, steps, beneficiary, k)(l)
  {
    if k > 0 {
      LookupSeesPrefix(m, base, steps, beneficiary, k - 1, l);
      assert k - 1 in Versions(m, l) <==> l in steps[k - 1].writes;
    }
  }

  /** The read set after an account read: an account with code has read its code location too. */
  function WithCode(readSet: map<Location, ReadVersion>, m: Memory, k: nat, a: Address, info: Option<Info>)
    : map<Location, ReadVersion>
  {
    if HasCode(info) then readSet[Code(a) := OriginBefore(m, k, Code(a))] else readSet
  }

  function CodeEstimates(m: Memory, k: nat, a: Address, info: Option<Info>): set<TxId> {
    if HasCode(info) then EstimatesBefore(m, k, Code(a)) else {}
  }

  class Incarnation {
    const beneficiary: Address
    const txid: TxId
    const incarnation: nat
    var memory: Memory
    var readSet: map<Location, ReadVersion>
    var snapshots: Snapshots
    var blocking: set<TxId>

    constructor (beneficiary: Address, txid: TxId, incarnation: nat, memory: Memory)
      ensures this.beneficiary == beneficiary && this.txid == txid && this.incarnation == incarnation
      ensures this.memory == memory && readSet == map[] && snapshots == map[] && blocking == {}
    {
      this.beneficiary, this.txid, this.incarnation := beneficiary, txid, incarnation;
      this.memory, readSet, snapshots, blocking := memory, map[], map[], {};
    }

    method PublishValue(l: Location, v: Value, estimate: bool, writes: map<Location, Value>, ghost m0: Memory)
      returns (writes': map<Location, Value>)
      requires Published(memory, m0, writes, txid, incarnation, estimate)
      modifies this`memory
      ensures writes' == writes[l := v] && Published(memory, m0, writes', txid, incarnation, estimate)
    {
      PublishOne(memory, m0, writes, txid, incarnation, estimate, l, v);
      memory := memory[l := (if l in memory then memory[l] else map[])[txid := MemoryEntry(incarnation, v, estimate)]];
      writes' := writes[l := v];
    }

    /** A deleted account: it is gone, and so are its slots. */
    method PublishDeletion(a: Address, changes: Changes, estimate: bool, writes: map<Location, Value>, ghost m0: Memory)
      returns (writes': map<Location, Value>)
      requires a in changes && Classify(changes[a]).Deleted?
      requires Published(memory, m0, writes, txid, incarnation, estimate)
      modifies this`memory
      ensures Published(memory, m0, writes', txid, incarnation, estimate)
      ensures writes' == PutInfo(writes, txid, beneficiary, snapshots, changes, a)
    {
      hide Published;
      writes' := writes;
      if a != beneficiary {
        writes' := PublishValue(Basic(a), AccountValue(None), estimate, writes', m0);
      }
      writes' := PublishValue(StorageReset(a), ResetValue(Some(txid)), estimate, writes', m0);
      assert writes' == PutInfo(writes, txid, beneficiary, snapshots, changes, a);
    }

    /** A surviving account: its reset if it is new, its code and itself if they changed. */
    method PublishSurvivor(a: Address, changes: Changes, estimate: bool, writes: map<Location, Value>, ghost m0: Memory)
      returns (writes': map<Location, Value>)
      requires a in changes && Survives(changes[a])
      requires Published(memory, m0, writes, txid, incarnation, estimate)
      modifies this`memory
      ensures Published(memory, m0, writes', txid, incarnation, estimate)
      ensures writes' == PutInfo(writes, txid, beneficiary, snapshots, changes, a)
    {
      hide Published, Classify;
      writes' := writes;
      var account := changes[a];
      if Classify(account).Created? {
        writes' := PublishValue(StorageReset(a), ResetValue(Some(txid)), estimate, writes', m0);
      }
      var info := account.info;
      var codeChanged :=
        info.codeHash != EMPTY_CODE && account.code.Some?
          && (a in snapshots ==> snapshots[a].codeHash != info.codeHash);
      if codeChanged {
        writes' := PublishValue(Code(a), CodeValue(account.code), estimate, writes', m0);
      }
      if a != beneficiary
         && (codeChanged
             || (a in snapshots ==> snapshots[a].nonce != info.nonce || snapshots[a].balance != info.balance)) {
        writes' := PublishValue(Basic(a), AccountValue(Some(info)), estimate, writes', m0);
      }
    }

    /** The storage reset, the code and the account itself. */
    method PublishInfo(a: Address, changes: Changes, estimate: bool, writes: map<Location, Value>, ghost m0: Memory)
      returns (writes': map<Location, Value>)
      requires a in changes && Published(memory, m0, writes, txid, incarnation, estimate)
      modifies this`memory
      ensures Published(memory, m0, writes', txid, incarnation, estimate)
      ensures writes' == PutInfo(writes, txid, beneficiary, snapshots, changes, a)
    {
      hide Published;
      var lifecycle := Classify(changes[a]);
      if lifecycle.Untouched? {
        writes' := writes;
      } else if lifecycle.Deleted? {
        writes' := PublishDeletion(a, changes, estimate, writes, m0);
      } else {
        writes' := PublishSurvivor(a, changes, estimate, writes, m0);
      }
    }

    /** The changed slots of a surviving account, in any order. */
    method PublishSlots(a: Address, account: Account, estimate: bool, writes: map<Location, Value>, ghost m0: Memory)
      returns (writes': map<Location, Value>)
      requires Published(memory, m0, writes, txid, incarnation, estimate)
      requires forall s :: Storage(a, s) !in writes
      modifies this`memory
      ensures Published(memory, m0, writes', txid, incarnation, estimate)
      ensures SlotsDone(writes', writes, txid, a, account, {})
    {
      writes' := writes;
      if !Survives(account) {
        return;
      }
      var todo := account.storage.Keys;
      assert SlotsDone(writes', writes, txid, a, account, todo);
      hide Published, SlotsDone;
      while todo != {}
        invariant todo <= account.storage.Keys
        invariant Published(memory, m0, writes', txid, incarnation, estimate)
        invariant SlotsDone(writes', writes, txid, a, account, todo)
        decreases |todo|
      {
        var s :| s in todo;
        SlotOne(writes', writes, txid, a, account, todo, s);
        if account.storage[s].original != account.storage[s].present {
          writes' := PublishValue(Storage(a, s), SlotValue(Some(txid), account.storage[s].present), estimate,
            writes', m0);
        }
        todo := todo - {s};
      }
    }

    /** Everything a finished execution publishes: exactly the writes of the specification. */
    method PublishWrites(changes: Changes, estimate: bool) returns (writes: map<Location, Value>)
      requires MemoryOk(memory)
      modifies this`memory
      ensures MemoryOk(memory)
      ensures Publishes(writes, txid, beneficiary, snapshots, changes)
      ensures Published(memory, old(memory), writes, txid, incarnation, estimate)
    {
      hide *;
      writes := map[];
      NothingPublished(memory, txid, incarnation, estimate, beneficiary, snapshots, changes);
      var todo := changes.Keys;
      ghost var done: set<Address> := {};
      while todo != {}
        invariant todo !! done && todo + done == changes.Keys
        invariant Published(memory, old(memory), writes, txid, incarnation, estimate)
        invariant PublishesFor(writes, txid, beneficiary, snapshots, changes, done)
        decreases |todo|
      {
        var a :| a in todo;
        ghost var before := writes;
        NotYet(before, txid, beneficiary, snapshots, changes, done, a);
        writes := PublishInfo(a, changes, estimate, writes, old(memory));
        writes := PublishSlots(a, changes[a], estimate, writes, old(memory));
        AccountDone(before, writes, txid, beneficiary, snapshots, changes, done, a);
        todo := todo - {a};
        done := done + {a};
      }
      assert done == changes.Keys;
      AllDone(writes, txid, beneficiary, snapshots, changes);
      PublishedIsTagged(memory, old(memory), writes, txid, incarnation, estimate, beneficiary, snapshots, changes);
    }

    /** Resolve one location through the memory, recording where the value came from. */
    method Lookup(l: Location, base: View) returns (value: Value, writer: Option<TxId>)
      modifies this`readSet, this`blocking
      ensures value == ValueBefore(memory, base, txid, l) && writer == Newest(Versions(memory, l), txid)
      ensures readSet == old(readSet)[l := OriginBefore(memory, txid, l)]
      ensures blocking == old(blocking) + EstimatesBefore(memory, txid, l)
      ensures Records(readSet, blocking, memory, txid, l)
    {
      writer := Newest(if l in memory then memory[l] else map[], txid);
      if writer.Some? {
        var entry := memory[l][writer.value];
        if entry.estimate {
          blocking := blocking + {writer.value};
        }
        readSet := readSet[l := FromMemory(writer.value, entry.incarnation)];
        value := entry.data;
      } else {
        readSet := readSet[l := FromStorage];
        value := base(l);
      }
      LookupRecords(readSet, blocking, memory, txid, l);
    }

    /** A slot read: both the reset and the slot are recorded, whichever of them decides. */
    method ReadStorage(a: Address, s: Slot, base: View) returns (word: Word)
      requires MemoryOk(memory) && BaseOk(base)
      modifies this`readSet, this`blocking
      ensures ValueBefore(memory, base, txid, StorageReset(a)).ResetValue?
      ensures ValueBefore(memory, base, txid, Storage(a, s)).SlotValue?
      ensures word == ResolveSlot(ViewBefore(memory, base, txid), a, s)
      ensures readSet == old(readSet)[StorageReset(a) := OriginBefore(memory, txid, StorageReset(a))]
                                     [Storage(a, s) := OriginBefore(memory, txid, Storage(a, s))]
      ensures blocking == old(blocking) + EstimatesBefore(memory, txid, StorageReset(a))
                        + EstimatesBefore(memory, txid, Storage(a, s))
      ensures Records(readSet, blocking, memory, txid, StorageReset(a))
      ensures Records(readSet, blocking, memory, txid, Storage(a, s))
    {
      ViewIsTagged(memory, base, txid, StorageReset(a));
      ViewIsTagged(memory, base, txid, Storage(a, s));
      var reset, resetTxid := Lookup(StorageReset(a), base);
      var slot, slotTxid := Lookup(Storage(a, s), base);
      LookupRecords(readSet, blocking, memory, txid, StorageReset(a));
      hide Records;
      if slotTxid.Some? && (resetTxid.Some? ==> slotTxid.value >= resetTxid.value) {
        return slot.word;
      }
      if resetTxid.Some? {
        return 0;
      }
      return slot.word;
    }

    /**
     * An account read. The beneficiary comes from its history; an unresolved history records only
     * the blocker, and absence stands in for the account.
     */
    method ReadBasic(a: Address, base: View, database: Hash -> Bytecode, history: BeneficiaryHistory)
      returns (info: Option<Info>, code: Option<Bytecode>)
      requires MemoryOk(memory) && BaseOk(base) && txid <= |history.entries|
      modifies this`readSet, this`blocking, this`snapshots
      ensures snapshots == if info.Some? then old(snapshots)[a := info.value] else old(snapshots)
      ensures a != beneficiary ==>
        && ValueBefore(memory, base, txid, Basic(a)).AccountValue?
        && info == ValueBefore(memory, base, txid, Basic(a)).info
        && readSet == WithCode(old(readSet)[Basic(a) := OriginBefore(memory, txid, Basic(a))], memory, txid, a, info)
        && blocking == old(blocking) + EstimatesBefore(memory, txid, Basic(a)) + CodeEstimates(memory, txid, a, info)
      ensures a != beneficiary ==> Records(readSet, blocking, memory, txid, Basic(a))
      ensures HasCode(info) ==> Records(readSet, blocking, memory, txid, Code(a))
      ensures a == beneficiary && (forall w: TxId :: !Blocks(history.entries, txid, w)) ==>
        && ScanBefore(history.anchor, history.entries, txid).Ok?
        && (forall effects :: Completes(effects, history.entries) ==> info == Fold(history.anchor, effects, txid))
        && var origins := ScanBefore(history.anchor, history.entries, txid).value.origins;
        && readSet == WithCode(old(readSet)[Basic(a) := FromHistory(origins)], memory, txid, a, info)
        && blocking == old(blocking) + CodeEstimates(memory, txid, a, info)
      ensures forall w: TxId :: a == beneficiary && Blocks(history.entries, txid, w) ==>
        info.None? && readSet == old(readSet) && blocking == old(blocking) + {w}
      ensures code.Some? <==> HasCode(info)
      ensures HasCode(info) ==>
        && ValueBefore(memory, base, txid, Code(a)).CodeValue?
        && code == Some(CodeFrom(ValueBefore(memory, base, txid, Code(a)).code, info.value.codeHash, database))
    {
      code := None;
      if a == beneficiary {
        var read := history.ResolveBefore(txid);
        match read
        case Ok(r) =>
          info := r.account;
          readSet := readSet[Basic(a) := FromHistory(r.origins)];
        case Err(w) =>
          info := None;
          blocking := blocking + {w};
      } else {
        ViewIsTagged(memory, base, txid, Basic(a));
        var value, _ := Lookup(Basic(a), base);
        info := value.info;
      }
      if info.Some? {
        snapshots := snapshots[a := info.value];
        if info.value.codeHash != EMPTY_CODE {
          ViewIsTagged(memory, base, txid, Code(a));
          var value, _ := Lookup(Code(a), base);
          code := Some(if value.code.Some? then value.code.value else database(info.value.codeHash));
        }
      }
    }
  }
}
