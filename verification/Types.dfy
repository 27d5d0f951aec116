/** Values shared by every part of the model. */
module Types {

  type TxId = nat
  type Address = nat
  type Slot = nat
  type Hash = nat
  type Bytecode = nat

  /** The largest 256-bit word and the largest 64-bit nonce. */
  const U256_MAX: nat := 0x1_0000_0000_0000_0000_0000_0000_0000_0000_0000_0000_0000_0000_0000_0000_0000_0000 - 1
  const U64_MAX: nat := 0xFFFF_FFFF_FFFF_FFFF

  type Word = w: nat | w <= U256_MAX
  type Nonce = m: nat | m <= U64_MAX

  datatype Option<+T> = None | Some(value: T)

  /** The hash that stands for "no code". */
  const EMPTY_CODE: Hash := 0

  /** An account without its storage; the code itself is resolved separately. */
  datatype Info = Info(balance: Word, nonce: Nonce, codeHash: Hash)

  const EMPTY_INFO: Info := Info(0, 0, EMPTY_CODE)

  /** What one transaction does to the beneficiary account. */
  datatype Effect =
    | Unchanged
    | Reward(amount: Word)
    | Snapshot(account: Option<Info>)

  /**
   * The keys of multi-version memory, plus one history entry per transaction for the beneficiary.
   */
  datatype Location =
    | Basic(address: Address)
    | Code(address: Address)
    | Storage(address: Address, slot: Slot)
    | StorageReset(address: Address)
    | History(txid: TxId)

  /**
   * The values those keys hold. Slot and reset values carry the index of the transaction that wrote
   * them, which is what a reader compares to decide whether a reset masks a slot.
   */
  datatype Value =
    | AccountValue(info: Option<Info>)
    | CodeValue(code: Option<Bytecode>)
    | SlotValue(slotWriter: Option<TxId>, word: Word)
    | ResetValue(resetWriter: Option<TxId>)
    | EffectValue(effect: Effect)

  datatype EvmError = InvalidTransaction(reason: nat) | FatalError(reason: nat)

  type Receipt = nat

  function Max(a: nat, b: nat): nat {
    if a < b then b else a
  }

  /** Where a transaction stands between speculation and finality. */
  datatype Status = Initial | Executing | Executed | Validating | Unconfirmed | Conflict | Finality
}
