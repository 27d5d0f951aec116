/** Applying one finalized result to the committed state, through its cache, after checking its nonce. */
module OrderedCommit {
  import opened Types
  import opened Beneficiary
  import opened Publication
  import opened Reward
  import opened StateCache
  import opened WorldBlock

  /** The part of a transaction the committer looks at. */
  datatype TxEnv = TxEnv(caller: Address, nonce: Nonce)

  datatype CommitOutcome = Committed(end: nat) | NeedsSequentialFallback | DatabaseFailed

  /**
   * The nonce fits the committed account, and incrementing it does not saturate: a present account
   * is at exactly this nonce, an absent one has sent nothing yet.
   */
  predicate Fits(tx: TxEnv, account: Option<Info>) {
    && tx.nonce != U64_MAX
    && match account
       case Some(info) => tx.nonce == info.nonce
       case None => tx.nonce == 0
  }

  class OrderedCommitter {
    const beneficiary: Address
    const disableNonceCheck: bool
    const state: ParallelState
    var outcomes: seq<TxOutcome>

    constructor (beneficiary: Address, disableNonceCheck: bool, state: ParallelState)
      ensures this.beneficiary == beneficiary && this.disableNonceCheck == disableNonceCheck
      ensures this.state == state && outcomes == []
    {
      this.beneficiary, this.disableNonceCheck, this.state := beneficiary, disableNonceCheck, state;
      outcomes := [];
    }

    /**
     * Commit the next result, or leave world and outcomes as they are: a nonce that does not match,
     * and the last nonce even when it matches, are left to sequential replay. `failing` are the
     * addresses the database cannot load. The changed accounts must have been loaded, as the cache
     * expects.
     */
    method Commit(tx: TxEnv, o: Outcome, receipt: Receipt, failing: set<Address>) returns (r: CommitOutcome)
      requires state.Valid() && o.changes.Keys <= state.accounts.Keys
      requires o.reward.Some? ==> o.reward.value > 0 && beneficiary !in o.changes
      requires forall a <- o.changes :: HonestSlots(o.changes[a], state.world, a)
      modifies this, state
      ensures state.Valid() && old(state.accounts).Keys <= state.accounts.Keys
      ensures r.DatabaseFailed? <==>
        || (!disableNonceCheck && tx.caller in failing)
        || (&& o.reward.Some? && beneficiary in failing
            && (disableNonceCheck || Fits(tx, old(state.world).accounts(tx.caller))))
      ensures !r.DatabaseFailed? ==>
        (r.Committed? <==> disableNonceCheck || Fits(tx, old(state.world).accounts(tx.caller)))
      ensures r.Committed? ==>
        && SameWorld(state.world, After(old(state.world), o, beneficiary))
        && outcomes == old(outcomes) + [Ran(receipt)] && r.end == |outcomes|
      ensures !r.Committed? ==> state.world == old(state.world) && outcomes == old(outcomes)
    {
      if !disableNonceCheck {
        if tx.caller in failing {
          return DatabaseFailed;
        }
        var caller := state.Basic(tx.caller);
        var expected := NonceOf(caller);
        if tx.nonce == U64_MAX && expected == U64_MAX {
          return NeedsSequentialFallback;
        }
        if tx.nonce > expected {
          return NeedsSequentialFallback;
        }
        if tx.nonce < expected {
          return NeedsSequentialFallback;
        }
      }
      var changes := o.changes;
      if o.reward.Some? {
        if beneficiary in failing {
          return DatabaseFailed;
        }
        var account := state.Basic(beneficiary);
        changes := changes[beneficiary := Touched(Credit(account, o.reward.value))];
        CreditIsNotEmpty(account, o.reward.value);
      }
      FoldingIsCrediting(state.world, o, beneficiary);
      ghost var w := state.world;
      state.Commit(changes);
      BeneficiaryIsIdle(w, changes, 0, beneficiary);
      outcomes := outcomes + [Ran(receipt)];
      r := Committed(|outcomes|);
    }
  }

  /** Without a reward it does not matter who the beneficiary is. */
  lemma BeneficiaryIsIdle(w: World, changes: Changes, a: Address, b: Address)
    ensures SameWorld(After(w, Outcome(changes, None), a), After(w, Outcome(changes, None), b))
  {
    forall x ensures After(w, Outcome(changes, None), a).accounts(x)
      == After(w, Outcome(changes, None), b).accounts(x) {
      assert AccountAfter(Outcome(changes, None), a, x, w.accounts(x))
          == AccountAfter(Outcome(changes, None), b, x, w.accounts(x));
    }
  }
}
