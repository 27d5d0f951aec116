/** What one transaction leaves of one account, and what that does to the account. */
module Accounts {
  import opened Types

  datatype Change = Change(original: Word, present: Word)

  /** A finalized journal account. */
  datatype Account = Account(
    info: Info, code: Option<Bytecode>, touched: bool, selfdestructed: bool, created: bool,
    storage: map<Slot, Change>)

  datatype Lifecycle = Untouched | Deleted | Created | Updated

  /** Empty in the sense of EIP-161. */
  predicate IsEmpty(info: Info) {
    info.balance == 0 && info.nonce == 0 && info.codeHash == EMPTY_CODE
  }

  function Classify(account: Account): Lifecycle {
    if !account.touched then Untouched
    else if account.selfdestructed then Deleted
    else if account.created then Created
    else if IsEmpty(account.info) then Deleted
    else Updated
  }

  /** The account once the transaction is applied. */
  function InfoAfter(account: Account, before: Option<Info>): Option<Info> {
    match Classify(account)
    case Untouched => before
    case Deleted => None
    case Created => Some(account.info)
    case Updated => Some(account.info)
  }

  /** One of its slots once the transaction is applied: deletion and creation start from zero. */
  function SlotAfter(account: Account, slot: Slot, before: Word): Word {
    match Classify(account)
    case Untouched => before
    case Deleted => 0
    case Created => if slot in account.storage then account.storage[slot].present else 0
    case Updated => if slot in account.storage then account.storage[slot].present else before
  }
}
