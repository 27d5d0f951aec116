/**
 * The beneficiary account through a block: one entry per transaction, read backwards until an
 * absolute snapshot or the block-start anchor.
 */
module Beneficiary {
  import opened Types
  import opened Accounts

  datatype Result<+T, +E> = Ok(value: T) | Err(error: E)

  // ----- what the effects of a prefix mean -----

  /** Checked addition: an overflowing reward leaves the balance alone. */
  function Credit(account: Option<Info>, amount: Word): Info {
    var info := if account.Some? then account.value else EMPTY_INFO;
    if info.balance + amount <= U256_MAX then Info(info.balance + amount, info.nonce, info.codeHash) else info
  }

  function ApplyEffect(account: Option<Info>, effect: Effect): Option<Info> {
    match effect
    case Unchanged => account
    case Reward(amount) => Some(Credit(account, amount))
    case Snapshot(after) => after
  }

  /** The account after the first `k` effects, applied in transaction order. */
  function Fold(anchor: Option<Info>, effects: seq<Effect>, k: nat): Option<Info>
    requires k <= |effects|
  {
    if k == 0 then anchor else ApplyEffect(Fold(anchor, effects, k - 1), effects[k - 1])
  }

  // ----- entries -----

  datatype EntryValue = Estimate | Exact(effect: Effect)

  datatype Entry = Entry(incarnation: nat, value: EntryValue)

  datatype Version = Version(txid: TxId, incarnation: nat)

  datatype Scan = Scan(base: Option<Info>, rewardsNewestFirst: seq<Word>, origins: seq<Version>)

  /** Continue a backwards scan below `k`, with what has been collected above it. */
  function ScanFrom(anchor: Option<Info>, entries: seq<Entry>, k: nat, rewards: seq<Word>, origins: seq<Version>)
    : Result<Scan, TxId>
    requires k <= |entries|
  {
    if k == 0 then Ok(Scan(anchor, rewards, origins)) else
    var entry := entries[k - 1];
    match entry.value
    case Estimate => Err(k - 1)
    case Exact(effect) =>
      var origins' := origins + [Version(k - 1, entry.incarnation)];
      match effect
      case Unchanged => ScanFrom(anchor, entries, k - 1, rewards, origins')
      case Reward(amount) => ScanFrom(anchor, entries, k - 1, rewards + [amount], origins')
      case Snapshot(account) => Ok(Scan(account, rewards, origins'))
  }

  function ScanBefore(anchor: Option<Info>, entries: seq<Entry>, k: nat): Result<Scan, TxId>
    requires k <= |entries|
  {
    ScanFrom(anchor, entries, k, [], [])
  }

  /** Credit the oldest reward, which is the last of the list, first. */
  function Credits(base: Option<Info>, rewardsNewestFirst: seq<Word>): Option<Info> {
    if rewardsNewestFirst == [] then base
    else Some(Credit(Credits(base, rewardsNewestFirst[1..]), rewardsNewestFirst[0]))
  }

  lemma {:induction false} CreditsAppend(base: Option<Info>, rewards: seq<Word>, oldest: Word)
    ensures Credits(base, rewards + [oldest]) == Credits(Some(Credit(base, oldest)), rewards)
  {
    if rewards == [] {
      assert (rewards + [oldest])[1..] == [];
    } else {
      assert (rewards + [oldest])[1..] == rewards[1..] + [oldest];
      CreditsAppend(base, rewards[1..], oldest);
    }
  }

  /** `effects` says what the exact entries say; under an estimate it may say anything. */
  ghost predicate Completes(effects: seq<Effect>, entries: seq<Entry>) {
    && |effects| == |entries|
    && forall i :: 0 <= i < |entries| && entries[i].value.Exact? ==> effects[i] == entries[i].value.effect
  }

  lemma {:induction false} ScanFromMeans(
    anchor: Option<Info>, entries: seq<Entry>, k: nat, rewards: seq<Word>, origins: seq<Version>, effects: seq<Effect>)
    requires k <= |entries| && Completes(effects, entries)
    requires ScanFrom(anchor, entries, k, rewards, origins).Ok?
    ensures
      var scan := ScanFrom(anchor, entries, k, rewards, origins).value;
      Credits(scan.base, scan.rewardsNewestFirst) == Credits(Fold(anchor, effects, k), rewards)
  {
    if k > 0 {
      var origins' := origins + [Version(k - 1, entries[k - 1].incarnation)];
      match entries[k - 1].value.effect
      case Unchanged =>
        ScanFromMeans(anchor, entries, k - 1, rewards, origins', effects);
      case Reward(amount) =>
        ScanFromMeans(anchor, entries, k - 1, rewards + [amount], origins', effects);
        CreditsAppend(Fold(anchor, effects, k - 1), rewards, amount);
      case Snapshot(_) =>
    }
  }

  /**
   * A resolved read is the in-order fold of the effects before `k`, whatever the entries hidden
   * behind the snapshot turn out to be.
   */
  lemma ResolvedIsFold(anchor: Option<Info>, entries: seq<Entry>, k: nat, effects: seq<Effect>)
    requires k <= |entries| && Completes(effects, entries) && ScanBefore(anchor, entries, k).Ok?
    ensures
      var scan := ScanBefore(anchor, entries, k).value;
      Credits(scan.base, scan.rewardsNewestFirst) == Fold(anchor, effects, k)
  {
    ScanFromMeans(anchor, entries, k, [], [], effects);
  }

  /** `w` is an estimate before `k` and nothing between them is an estimate or a snapshot. */
  predicate Blocks(entries: seq<Entry>, k: nat, w: TxId) {
    && w < k <= |entries| && entries[w].value.Estimate?
    && forall i :: w < i < k ==> entries[i].value.Exact? && !entries[i].value.effect.Snapshot?
  }

  /** A read fails exactly on the nearest estimate that no snapshot cuts off. */
  lemma {:induction false} BlockedByNearestEstimate(
    anchor: Option<Info>, entries: seq<Entry>, k: nat, rewards: seq<Word>, origins: seq<Version>, w: TxId)
    requires k <= |entries|
    ensures ScanFrom(anchor, entries, k, rewards, origins) == Err(w) <==> Blocks(entries, k, w)
  {
    if k > 0 && entries[k - 1].value.Exact? {
      var origins' := origins + [Version(k - 1, entries[k - 1].incarnation)];
      match entries[k - 1].value.effect
      case Unchanged => BlockedByNearestEstimate(anchor, entries, k - 1, rewards, origins', w);
      case Reward(amount) => BlockedByNearestEstimate(anchor, entries, k - 1, rewards + [amount], origins', w);
      case Snapshot(_) =>
    }
  }

  // ----- validation -----

  /**
   * What any sequence of publications and invalidations can do to an entry: the incarnation grows,
   * or stays with the same effect, or stays and becomes an estimate.
   */
  predicate EntryEvolves(e: Entry, e': Entry) {
    && e.incarnation <= e'.incarnation
    && (e.incarnation == e'.incarnation && e'.value.Exact? ==> e'.value == e.value)
  }

  ghost predicate Evolves(entries: seq<Entry>, entries': seq<Entry>) {
    && |entries'| == |entries|
    && forall i :: 0 <= i < |entries| ==> EntryEvolves(entries[i], entries'[i])
  }

  /** One call on the history. */
  datatype Op = Record(txid: TxId, incarnation: nat, value: EntryValue) | Invalidate(txid: TxId, incarnation: nat)

  function Recorded(e: Entry, incarnation: nat, value: EntryValue): Entry {
    if incarnation <= e.incarnation then e else Entry(incarnation, value)
  }

  function Invalidated(e: Entry, incarnation: nat): Entry {
    if e.incarnation == incarnation then Entry(incarnation, Estimate) else e
  }

  function ApplyOp(entries: seq<Entry>, op: Op): seq<Entry> {
    if op.txid >= |entries| then entries else
    match op
    case Record(t, incarnation, value) => entries[t := Recorded(entries[t], incarnation, value)]
    case Invalidate(t, incarnation) => entries[t := Invalidated(entries[t], incarnation)]
  }

  function ApplyOps(entries: seq<Entry>, ops: seq<Op>): seq<Entry>
    decreases |ops|
  {
    if ops == [] then entries else ApplyOps(ApplyOp(entries, ops[0]), ops[1..])
  }

  lemma {:induction false} OpsEvolve(entries: seq<Entry>, ops: seq<Op>)
    ensures Evolves(entries, ApplyOps(entries, ops))
    decreases |ops|
  {
    if ops != [] {
      OpsEvolve(ApplyOp(entries, ops[0]), ops[1..]);
    }
  }

  lemma {:induction false} SameOriginsSameScan(
    anchor: Option<Info>, es: seq<Entry>, es': seq<Entry>, k: nat, rewards: seq<Word>, origins: seq<Version>)
    requires k <= |es| && Evolves(es, es')
    requires ScanFrom(anchor, es, k, rewards, origins).Ok? && ScanFrom(anchor, es', k, rewards, origins).Ok?
    requires ScanFrom(anchor, es, k, rewards, origins).value.origins
          == ScanFrom(anchor, es', k, rewards, origins).value.origins
    ensures ScanFrom(anchor, es, k, rewards, origins) == ScanFrom(anchor, es', k, rewards, origins)
  {
    if k > 0 {
      OriginsExtend(anchor, es, k, rewards, origins);
      OriginsExtend(anchor, es', k, rewards, origins);
      assert es'[k - 1] == es[k - 1];
      var origins' := origins + [Version(k - 1, es[k - 1].incarnation)];
      match es[k - 1].value.effect
      case Unchanged => SameOriginsSameScan(anchor, es, es', k - 1, rewards, origins');
      case Reward(amount) => SameOriginsSameScan(anchor, es, es', k - 1, rewards + [amount], origins');
      case Snapshot(_) =>
    }
  }

  /** The origin recorded for `k - 1` follows those collected above it. */
  lemma {:induction false} OriginsExtend(
    anchor: Option<Info>, es: seq<Entry>, k: nat, rewards: seq<Word>, origins: seq<Version>)
    requires k <= |es| && ScanFrom(anchor, es, k, rewards, origins).Ok?
    ensures
      var all := ScanFrom(anchor, es, k, rewards, origins).value.origins;
      && origins <= all
      && (k > 0 ==> |origins| < |all| && all[|origins|] == Version(k - 1, es[k - 1].incarnation))
  {
    if k > 0 {
      var origins' := origins + [Version(k - 1, es[k - 1].incarnation)];
      match es[k - 1].value.effect
      case Unchanged => OriginsExtend(anchor, es, k - 1, rewards, origins');
      case Reward(amount) => OriginsExtend(anchor, es, k - 1, rewards + [amount], origins');
      case Snapshot(_) =>
    }
  }

  // ----- reads that take their entries one by one -----

  /** The history after the first `t` calls. */
  function At(entries: seq<Entry>, ops: seq<Op>, t: nat): seq<Entry>
    requires t <= |ops|
  {
    ApplyOps(entries, ops[..t])
  }

  lemma {:induction false} OpsCompose(entries: seq<Entry>, ops: seq<Op>, more: seq<Op>)
    ensures ApplyOps(entries, ops + more) == ApplyOps(ApplyOps(entries, ops), more)
    decreases |ops|
  {
    if ops == [] {
      assert ops + more == more;
    } else {
      assert (ops + more)[1..] == ops[1..] + more;
      OpsCompose(ApplyOp(entries, ops[0]), ops[1..], more);
    }
  }

  lemma HistoryEvolves(entries: seq<Entry>, ops: seq<Op>, t: nat, t': nat)
    requires t <= t' <= |ops|
    ensures Evolves(entries, At(entries, ops, t)) && Evolves(At(entries, ops, t), At(entries, ops, t'))
  {
    OpsEvolve(entries, ops[..t]);
    assert ops[..t'] == ops[..t] + ops[t..t'];
    OpsCompose(entries, ops[..t], ops[t..t']);
    OpsEvolve(At(entries, ops, t), ops[t..t']);
  }

  /** The entries as a reader sees them that takes entry `i` after the first `times[i]` calls. */
  ghost predicate SeenAt(seen: seq<Entry>, entries: seq<Entry>, ops: seq<Op>, times: seq<nat>) {
    && |seen| == |entries| == |times|
    && forall i :: 0 <= i < |entries| ==>
         && times[i] <= |ops| && |At(entries, ops, times[i])| == |entries|
         && seen[i] == At(entries, ops, times[i])[i]
  }

  /**
   * A read that validates resolves to the account it resolved to. Both the read and the validation
   * take their entries one by one, with publications and invalidations by anybody in between; all
   * that matters is that each entry is validated after it was read.
   */
  lemma ValidReadsAreCurrent(
    anchor: Option<Info>, entries: seq<Entry>, ops: seq<Op>, k: nat,
    read: seq<Entry>, readTimes: seq<nat>, checked: seq<Entry>, checkTimes: seq<nat>)
    requires k <= |entries| && SeenAt(read, entries, ops, readTimes) && SeenAt(checked, entries, ops, checkTimes)
    requires forall i :: 0 <= i < |entries| ==> readTimes[i] <= checkTimes[i]
    requires ScanBefore(anchor, read, k).Ok? && ScanBefore(anchor, checked, k).Ok?
    requires ScanBefore(anchor, read, k).value.origins == ScanBefore(anchor, checked, k).value.origins
    ensures ScanBefore(anchor, read, k) == ScanBefore(anchor, checked, k)
  {
    forall i | 0 <= i < |entries| ensures EntryEvolves(read[i], checked[i]) {
      HistoryEvolves(entries, ops, readTimes[i], checkTimes[i]);
    }
    SameOriginsSameScan(anchor, read, checked, k, [], []);
  }

  // ----- the component -----

  /** The effect of a successful execution: a deferred reward, or what the journal says. */
  function EffectOf(reward: Option<Word>, account: Option<Account>): Effect {
    if reward.Some? then Reward(reward.value)
    else if account.None? then Unchanged
    else
      match Classify(account.value)
      case Untouched => Unchanged
      case Deleted => Snapshot(None)
      case Created => Snapshot(Some(account.value.info))
      case Updated => Snapshot(Some(account.value.info))
  }

  datatype Read = Read(account: Option<Info>, origins: seq<Version>)

  datatype Validation = Validation(valid: bool, dependency: Option<TxId>)

  class BeneficiaryHistory {
    const anchor: Option<Info>
    var entries: seq<Entry>

    constructor (anchor: Option<Info>, blockSize: nat)
      ensures this.anchor == anchor && entries == seq(blockSize, _ => Entry(0, Estimate))
    {
      this.anchor := anchor;
      entries := seq(blockSize, _ => Entry(0, Estimate));
    }

    /** Walk the entries before `txid` backwards. */
    method Walk(txid: TxId) returns (r: Result<Scan, TxId>)
      requires txid <= |entries|
      ensures r == ScanBefore(anchor, entries, txid)
    {
      var origins: seq<Version> := [];
      var rewards: seq<Word> := [];
      var writer := txid;
      while writer > 0
        invariant 0 <= writer <= txid
        invariant ScanFrom(anchor, entries, writer, rewards, origins) == ScanBefore(anchor, entries, txid)
      {
        writer := writer - 1;
        var entry := entries[writer];
        if entry.value.Estimate? {
          return Err(writer);
        }
        origins := origins + [Version(writer, entry.incarnation)];
        match entry.value.effect
        case Unchanged =>
        case Reward(amount) => rewards := rewards + [amount];
        case Snapshot(account) => return Ok(Scan(account, rewards, origins));
      }
      r := Ok(Scan(anchor, rewards, origins));
    }

    /**
     * The account before `txid`, or the predecessor to wait for. A result is the fold of every
     * completion of the entries; a blocker is the nearest estimate that no snapshot hides.
     */
    method ResolveBefore(txid: TxId) returns (r: Result<Read, TxId>)
      requires txid <= |entries|
      ensures r.Ok? ==> forall effects :: Completes(effects, entries) ==> r.value.account == Fold(anchor, effects, txid)
      ensures r.Ok? ==>
        ScanBefore(anchor, entries, txid).Ok? && ScanBefore(anchor, entries, txid).value.origins == r.value.origins
      ensures forall w: TxId :: r == Err(w) <==> Blocks(entries, txid, w)
    {
      var scanned := Walk(txid);
      forall w: TxId ensures scanned == Err(w) <==> Blocks(entries, txid, w) {
        BlockedByNearestEstimate(anchor, entries, txid, [], [], w);
      }
      if scanned.Err? {
        return Err(scanned.error);
      }
      var scan := scanned.value;
      var account := scan.base;
      var i := |scan.rewardsNewestFirst|;
      while i > 0
        invariant 0 <= i <= |scan.rewardsNewestFirst|
        invariant account == Credits(scan.base, scan.rewardsNewestFirst[i..])
      {
        i := i - 1;
        account := Some(Credit(account, scan.rewardsNewestFirst[i]));
        assert scan.rewardsNewestFirst[i..][1..] == scan.rewardsNewestFirst[i + 1..];
      }
      assert scan.rewardsNewestFirst[0..] == scan.rewardsNewestFirst;
      forall effects | Completes(effects, entries) ensures account == Fold(anchor, effects, txid) {
        ResolvedIsFold(anchor, entries, txid, effects);
      }
      r := Ok(Read(account, scan.origins));
    }

    /** Publish the first result of a newer incarnation; an older one changes nothing. */
    method Record(txid: TxId, incarnation: nat, value: EntryValue) returns (published: bool)
      requires txid < |entries|
      modifies this
      ensures entries == ApplyOp(old(entries), Op.Record(txid, incarnation, value))
      ensures published == (incarnation > old(entries)[txid].incarnation)
      ensures published ==> entries[txid] == Entry(incarnation, value)
    {
      if incarnation <= entries[txid].incarnation {
        return false;
      }
      entries := entries[txid := Entry(incarnation, value)];
      return true;
    }

    method RecordExecution(txid: TxId, incarnation: nat, reward: Option<Word>, account: Option<Account>)
      returns (published: bool)
      requires txid < |entries|
      requires reward.Some? ==> account.None?
      modifies this
      ensures entries == ApplyOp(old(entries), Op.Record(txid, incarnation, Exact(EffectOf(reward, account))))
      ensures published == (incarnation > old(entries)[txid].incarnation)
    {
      published := Record(txid, incarnation, Exact(EffectOf(reward, account)));
    }

    /** Turn the inspected incarnation into an estimate; a newer one is left alone. */
    method Invalidate(txid: TxId, incarnation: nat) returns (matched: bool)
      requires txid < |entries|
      modifies this
      ensures entries == ApplyOp(old(entries), Op.Invalidate(txid, incarnation))
      ensures matched == (old(entries)[txid].incarnation == incarnation)
      ensures matched ==> entries[txid].value.Estimate?
    {
      if entries[txid].incarnation != incarnation {
        return false;
      }
      if entries[txid].value.Exact? {
        entries := entries[txid := Entry(incarnation, Estimate)];
      }
      return true;
    }

    /** Compare the whole chain of origins with that of an earlier read. */
    method Validate(txid: TxId, expected: seq<Version>) returns (v: Validation)
      requires txid <= |entries|
      ensures v.valid <==> exists scan :: ScanBefore(anchor, entries, txid) == Ok(scan) && scan.origins == expected
      ensures forall w: TxId :: Blocks(entries, txid, w) ==> v == Validation(false, Some(w))
      ensures ScanBefore(anchor, entries, txid).Ok? ==>
        v.dependency == if txid == 0 then None else Some((txid - 1) as TxId)
    {
      var scanned := Walk(txid);
      forall w: TxId ensures scanned == Err(w) <==> Blocks(entries, txid, w) {
        BlockedByNearestEstimate(anchor, entries, txid, [], [], w);
      }
      match scanned
      case Err(blocker) => v := Validation(false, Some(blocker));
      case Ok(scan) =>
        OriginsExtend(anchor, entries, txid, [], []);
        assert txid > 0 ==> scan.origins[0].txid == txid - 1;
        assert txid == 0 ==> scan.origins == [];
        v := Validation(scan.origins == expected, if scan.origins == [] then None else Some(scan.origins[0].txid));
    }
  }
}
