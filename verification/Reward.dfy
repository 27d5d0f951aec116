/** Crediting the beneficiary: the amount, the account it leaves, and when it may be deferred. */
module Reward {
  import opened Types
  import opened Accounts
  import opened Beneficiary
  import opened Publication

  /** Two worlds with the same accounts and the same slots. */
  ghost predicate SameWorld(v: World, w: World) {
    && (forall a :: v.accounts(a) == w.accounts(a))
    && (forall a, s :: v.slots(a, s) == w.slots(a, s))
  }

  /** A touched account that holds nothing but `info`. */
  function Touched(info: Info): Account {
    Account(info, None, true, false, false, map[])
  }

  /** The changes with the deferred reward folded in. */
  function Folded(w: World, o: Outcome, beneficiary: Address): Changes {
    if o.reward.Some? then o.changes[beneficiary := Touched(Credit(w.accounts(beneficiary), o.reward.value))]
    else o.changes
  }

  /** A credit that is not zero never leaves an empty account, even when it overflows. */
  lemma CreditIsNotEmpty(account: Option<Info>, amount: Word)
    requires amount > 0
    ensures !IsEmpty(Credit(account, amount))
  {
  }

  /**
   * Folding a reward into the changes is crediting it, if and only if the credited account is not
   * empty: an empty one would be classified as deleted.
   */
  lemma FoldingIsCrediting(w: World, o: Outcome, beneficiary: Address)
    requires o.reward.Some? ==> beneficiary !in o.changes
    ensures
      SameWorld(After(w, Outcome(Folded(w, o, beneficiary), None), beneficiary), After(w, o, beneficiary))
      <==> (o.reward.Some? ==> !IsEmpty(Credit(w.accounts(beneficiary), o.reward.value)))
  {
    var changes := Folded(w, o, beneficiary);
    var folded, credited := After(w, Outcome(changes, None), beneficiary), After(w, o, beneficiary);
    assert forall a :: a != beneficiary && a in changes ==> a in o.changes && changes[a] == o.changes[a];
    forall a | a != beneficiary ensures folded.accounts(a) == credited.accounts(a) {
      assert AccountAfter(Outcome(changes, None), beneficiary, a, w.accounts(a))
          == AccountAfter(o, beneficiary, a, w.accounts(a));
    }
    var kept := o.reward.Some? ==> !IsEmpty(Credit(w.accounts(beneficiary), o.reward.value));
    forall a, s | a != beneficiary || kept ensures folded.slots(a, s) == credited.slots(a, s) {
      assert WordAfter(Outcome(changes, None), a, s, w.slots(a, s)) == WordAfter(o, a, s, w.slots(a, s));
    }
    assert folded.accounts(beneficiary) == credited.accounts(beneficiary) <==> kept;
  }

  // ----- several rewards at once -----

  function Total(rewards: seq<Word>): nat {
    if rewards == [] then 0 else rewards[0] + Total(rewards[1..])
  }

  function InfoOrEmpty(account: Option<Info>): Info {
    if account.Some? then account.value else EMPTY_INFO
  }

  /** The reward moves nothing: it is zero or overflows this balance. */
  predicate Idle(balance: Word, reward: Word) {
    reward == 0 || balance + reward > U256_MAX
  }

  /** In order, rewards only raise the balance; they raise it not at all exactly if each alone is idle. */
  lemma {:induction false} CreditsRaise(base: Option<Info>, rewards: seq<Word>)
    ensures
      var start, end := InfoOrEmpty(base), InfoOrEmpty(Credits(base, rewards));
      && end == Info(end.balance, start.nonce, start.codeHash) && end.balance >= start.balance
      && (start.balance + Total(rewards) <= U256_MAX ==> end.balance == start.balance + Total(rewards))
      && (end.balance == start.balance <==> forall r <- rewards :: Idle(start.balance, r))
  {
    if rewards != [] {
      var newest, older := rewards[0], rewards[1..];
      CreditsRaise(base, older);
      assert rewards == [newest] + older;
      var balance := InfoOrEmpty(base).balance;
      assert (forall r <- rewards :: Idle(balance, r)) <==>
        Idle(balance, newest) && forall r <- older :: Idle(balance, r);
    }
  }

  /**
   * Rewards may be added up before they are credited if and only if the balance takes all of them,
   * or none of them: that is when each alone is idle.
   */
  lemma CombiningRewards(base: Option<Info>, rewards: seq<Word>)
    requires rewards != [] && Total(rewards) <= U256_MAX
    ensures
      var balance := InfoOrEmpty(base).balance;
      Credits(base, rewards) == Some(Credit(base, Total(rewards)))
      <==> balance + Total(rewards) <= U256_MAX || forall r <- rewards :: Idle(balance, r)
  {
    CreditsRaise(base, rewards);
  }
}
