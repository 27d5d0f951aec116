/**
 * Loading a slot takes two lookups, and only the slot's own version is recorded for good: the version
 * of the reset is overwritten by the next slot of the account. This is exactly when that matters.
 */
module SlotReads {
  import opened Types
  import opened Block
  import opened Evm
  import opened Protocol
  import opened ProtocolInvariant
  import opened SteadyReads
  import opened Reachability

  /** A reset masks a slot that was not written at it or after it. */
  predicate Masks(reset: Value, slot: Value) {
    && reset.ResetValue? && reset.resetWriter.Some?
    && slot.SlotValue? && (slot.slotWriter.Some? ==> slot.slotWriter.value < reset.resetWriter.value)
  }

  /** Two resets give the same word exactly if both mask the slot, or neither, or it is zero anyway. */
  lemma SameWord(reset: Value, reset': Value, slot: Value)
    requires reset.ResetValue? && reset'.ResetValue? && slot.SlotValue?
    ensures SlotOf(reset, slot) == SlotOf(reset', slot) <==>
      slot.word == 0 || (Masks(reset, slot) <==> Masks(reset', slot))
  {
  }

  /** The reset found for a slot and the one recorded in the end give the same word. */
  ghost predicate MaskedAlike(b: BlockSpec, s: State, r: TxResult, a: Address, x: Slot) {
    && ResetFor(a, x) in r.obs && Once(Storage(a, x)) in r.obs && StorageReset(a) in r.versions
    && var slot := r.obs[Once(Storage(a, x))];
    && SlotOf(r.obs[ResetFor(a, x)], slot)
       == SlotOf(ValueOf(b, s, StorageReset(a), r.versions[StorageReset(a)]), slot)
  }

  /** The slot's own location is looked up once. */
  ghost predicate LoadsSlot(r: TxResult, a: Address, x: Slot) {
    && ResetFor(a, x) in r.obs && Once(Storage(a, x)) in r.obs
    && Once(Storage(a, x)) in r.seen && Storage(a, x) in r.versions && StorageReset(a) in r.versions
    && r.seen[Once(Storage(a, x))] == r.versions[Storage(a, x)]
  }

  /** A final transaction saw the slot itself as the results before it leave it. */
  lemma SlotIsInForce(b: BlockSpec, s: State, j: TxId, a: Address, x: Slot)
    requires Inv(b, s) && j < s.finality
    requires s.cells[j].result.Some? && LoadsSlot(s.cells[j].result.value, a, x)
    requires !Doomed(s, j, s.cells[j].result.value.seen)
    ensures s.cells[j].result.value.obs[Once(Storage(a, x))] == View(b, Merged(s.cells, j), Storage(a, x))
  {
    var r, q := s.cells[j].result.value, Once(Storage(a, x));
    assert FinalOk(b, s, j) && ReadsOk(b, s, j);
    assert ReadOk(b, s, j, Vouched(s.cells[j]), q);
    hide Inv, FinalOk, Merged, Doomed;
    RecordedIsInForce(b, s, j, Storage(a, x));
  }

  /** The word that executing the transactions before `j` one after another leaves in a slot. */
  function SequentialWord(b: BlockSpec, j: TxId, a: Address, x: Slot): Word
    requires j <= |b.txs|
  {
    SlotOf(View(b, SequentialOverlay(b, j), StorageReset(a)), View(b, SequentialOverlay(b, j), Storage(a, x)))
  }

  /** The versions a final transaction recorded for a slot and its reset amount to the sequential word. */
  lemma RecordedWordIsSequential(b: BlockSpec, s: State, j: TxId, a: Address, x: Slot)
    requires Reaches(b, s) && Wellformed(b, s) && j < s.finality && SequentialBelow(b, s.cells, j)
    requires s.cells[j].result.Some?
    requires
      var versions := s.cells[j].result.value.versions;
      StorageReset(a) in versions && Storage(a, x) in versions
    ensures
      var versions := s.cells[j].result.value.versions;
      SlotOf(ValueOf(b, s, StorageReset(a), versions[StorageReset(a)]),
             ValueOf(b, s, Storage(a, x), versions[Storage(a, x)])) == SequentialWord(b, j, a, x)
  {
    ReachesInv(b, s);
    RecordedIsInForce(b, s, j, StorageReset(a));
    RecordedIsInForce(b, s, j, Storage(a, x));
    hide Reaches, Inv, Merged, SequentialOverlay, SequentialBelow, View, ValueOf, SlotOf;
  }

  /**
   * A final transaction loaded the sequential word of a slot if and only if the reset it found then and
   * the reset it recorded in the end give the same word: both mask the slot, or neither does, or it is
   * zero anyway.
   */
  lemma LoadedWordIsSequential(b: BlockSpec, s: State, j: TxId, a: Address, x: Slot)
    requires Reaches(b, s) && Wellformed(b, s) && j < s.finality && SequentialBelow(b, s.cells, j)
    requires s.cells[j].result.Some? && LoadsSlot(s.cells[j].result.value, a, x)
    requires !Doomed(s, j, s.cells[j].result.value.seen)
    ensures
      var r := s.cells[j].result.value;
      SlotIn(r.obs, a, x) == SequentialWord(b, j, a, x) <==> MaskedAlike(b, s, r, a, x)
    ensures
      var r := s.cells[j].result.value;
      var reset, slot := r.obs[ResetFor(a, x)], r.obs[Once(Storage(a, x))];
      var recorded := ValueOf(b, s, StorageReset(a), r.versions[StorageReset(a)]);
      reset.ResetValue? && slot.SlotValue? && recorded.ResetValue? ==>
        (MaskedAlike(b, s, r, a, x) <==> slot.word == 0 || (Masks(reset, slot) <==> Masks(recorded, slot)))
  {
    var r := s.cells[j].result.value;
    ReachesInv(b, s);
    SlotIsInForce(b, s, j, a, x);
    RecordedIsInForce(b, s, j, StorageReset(a));
    hide Reaches, Inv, Merged, SequentialOverlay, Doomed, View, ValueOf, SlotOf, Masks;
    var reset, slot := r.obs[ResetFor(a, x)], r.obs[Once(Storage(a, x))];
    var recorded := ValueOf(b, s, StorageReset(a), r.versions[StorageReset(a)]);
    if reset.ResetValue? && slot.SlotValue? && recorded.ResetValue? {
      SameWord(reset, recorded, slot);
    }
  }
}
