/** Replaying one transaction against the cached state, the way sequential recovery runs it. */
module Replay {
  import opened Types
  import opened Publication
  import opened Reward
  import opened Evm
  import opened Settlement
  import opened StateCache
  import opened WorldBlock
  import opened OrderedCommit

  /** The journal holds only accounts it has loaded, with honest slots. */
  ghost predicate HonestJournal(core: Core, w: World, codeOf: Hash -> Bytecode) {
    var end := Execute(core, w, codeOf, map[]);
    end.move.Done? ==>
      && OnlyLoaded(end.move.outcome.changes, end.answers)
      && forall a <- end.move.outcome.changes :: HonestSlots(end.move.outcome.changes[a], w, a)
  }

  /** Every account that was asked for is in the cache. */
  ghost predicate AskedAreCached(answers: Answers, accounts: AccountMap) {
    forall q <- answers :: q.AskAccount? ==> q.address in accounts
  }

  /** An immediate outcome changes only what the execution loaded, and defers nothing. */
  lemma ImmediateIsLoaded(beneficiary: Address, core: Core, w: World, codeOf: Hash -> Bytecode)
    requires HonestJournal(core, w, codeOf)
    ensures
      var end := Execute(Settled(Immediate, beneficiary, core), w, codeOf, map[]);
      end.move.Done? ==>
        && end.move.outcome.reward.None? && OnlyLoaded(end.move.outcome.changes, end.answers)
        && forall a <- end.move.outcome.changes :: HonestSlots(end.move.outcome.changes[a], w, a)
  {
    SettledExecutes(Immediate, beneficiary, core, w, codeOf);
    SettledIsLoaded(Immediate, beneficiary, core, w, codeOf);
    hide Execute, Settled;
  }

  /** Answer one query from the cached state. */
  method Answer(q: Query, state: ParallelState, codeOf: Hash -> Bytecode) returns (answer: Evm.Answer)
    requires state.Valid()
    modifies state`accounts, state`storage
    ensures state.Valid() && answer == Reply(state.world, codeOf, q)
    ensures q.AskAccount? ==> q.address in state.accounts
    ensures forall a <- old(state.accounts) :: a in state.accounts
  {
    match q
    case AskAccount(a) =>
      var info := state.Basic(a);
      answer := AccountAnswer(info, codeOf);
    case AskSlot(a, s) =>
      var word := state.Storage(a, s);
      answer := WordIs(word);
  }

  /** Run a transaction to its end, loading what it asks for. */
  method RunLoaded(tx: EvmTx<Outcome>, state: ParallelState, codeOf: Hash -> Bytecode)
    returns (m: Move<Outcome>, ghost answers: Answers)
    requires state.Valid()
    modifies state`accounts, state`storage
    ensures state.Valid() && Ending(m, answers) == Execute(tx, state.world, codeOf, map[])
    ensures AskedAreCached(answers, state.accounts)
  {
    var known: Answers := map[];
    m := NextMove(tx, known);
    while m.Ask?
      invariant state.Valid() && m == NextMove(tx, known)
      invariant Execute(tx, state.world, codeOf, known) == Execute(tx, state.world, codeOf, map[])
      invariant AskedAreCached(known, state.accounts)
      decreases tx.limit - |known|
    {
      var answer := Answer(m.query, state, codeOf);
      known := known[m.query := answer];
      m := NextMove(tx, known);
    }
    answers := known;
  }

  /**
   * Replay one transaction on the cached state and commit what it leaves. Every account it changes
   * has been loaded before, so the cache holds it.
   */
  method ReplayOne(e: EvmBlock, j: TxId, state: ParallelState) returns (m: Move<Outcome>)
    requires state.Valid() && j < |e.txs| && HonestJournal(e.txs[j].strict, state.world, e.codeOf)
    modifies state
    ensures state.Valid() && m == ReplayMove(e, j, old(state.world))
    ensures m.Done? ==> SameWorld(state.world, After(old(state.world), m.outcome, e.beneficiary))
    ensures !m.Done? ==> state.world == old(state.world)
  {
    var tx := e.txs[j];
    if e.checkNonces && tx.nonce == U64_MAX {
      var sender := state.Basic(tx.sender);
      if NonceOf(sender) == U64_MAX {
        return Abort(InvalidTransaction(NONCE_OVERFLOW));
      }
    }
    ghost var answers;
    m, answers := RunLoaded(Settled(Immediate, e.beneficiary, tx.strict), state, e.codeOf);
    ImmediateIsLoaded(e.beneficiary, tx.strict, state.world, e.codeOf);
    if m.Done? {
      var changes := m.outcome.changes;
      BeneficiaryIsIdle(state.world, changes, 0, e.beneficiary);
      assert Outcome(changes, None) == m.outcome;
      state.Commit(changes);
    }
  }
}
