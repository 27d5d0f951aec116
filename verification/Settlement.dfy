/**
 * How an execution settles its fee with the beneficiary. Workers defer a reward when that is safe,
 * sequential replay always pays at once; the world afterwards is the same.
 */
module Settlement {
  import opened Types
  import opened Accounts
  import opened Beneficiary
  import opened Publication
  import opened Reward
  import opened Evm

  datatype Mode = Deferred | Immediate

  /** What the interpreter leaves: the journal's accounts and the fee, if fees are charged at all. */
  datatype Draft = Draft(changes: Changes, fee: Option<Word>)

  /** A transaction up to, and without, the settlement of its fee. */
  type Core = EvmTx<Draft>

  /** The beneficiary is in the journal: the execution loaded or changed it. */
  predicate InJournal(beneficiary: Address, answers: Answers, changes: Changes) {
    AskAccount(beneficiary) in answers || beneficiary in changes
  }

  /** A non-zero fee for a beneficiary outside the journal may wait for ordered commit. */
  predicate Defers(mode: Mode, beneficiary: Address, answers: Answers, draft: Draft) {
    && mode.Deferred? && draft.fee.Some? && draft.fee.value > 0
    && !InJournal(beneficiary, answers, draft.changes)
  }

  /** The journal account after a credit, which touches it. */
  function Credited(account: Account, fee: Word): Account {
    account.(info := Credit(Some(account.info), fee), touched := true)
  }

  /** The changes once the fee is paid; `loaded` is the beneficiary if the journal had no changes for it. */
  function Paid(beneficiary: Address, changes: Changes, fee: Word, loaded: Option<Info>): Changes {
    changes[beneficiary :=
      if beneficiary in changes then Credited(changes[beneficiary], fee) else Touched(Credit(loaded, fee))]
  }

  // ----- the settled transaction -----

  /** How far `tx` gets with these answers alone. */
  function Progress<T>(tx: EvmTx<T>, answers: Answers, known: Answers): Ending<T>
    decreases tx.limit - |known|
  {
    match NextMove(tx, known)
    case Ask(q) =>
      if q in answers then Progress(tx, answers, known[q := answers[q]]) else Ending(Ask(q), known)
    case m => Ending(m, known)
  }

  function InfoOf(answer: Answer): Option<Info> {
    if answer.AccountIs? then answer.info else None
  }

  /** Run the core; then defer the fee, or load the beneficiary if need be and pay. */
  function SettledStep(mode: Mode, beneficiary: Address, core: Core, answers: Answers): Move<Outcome> {
    var reached := Progress(core, answers, map[]);
    match reached.move
    case Ask(q) => Ask(q)
    case Abort(error) => Abort(error)
    case Done(draft, receipt) =>
      if draft.fee.None? then Done(Outcome(draft.changes, None), receipt)
      else if Defers(mode, beneficiary, reached.answers, draft) then
        Done(Outcome(draft.changes, draft.fee), receipt)
      else if beneficiary in draft.changes then
        Done(Outcome(Paid(beneficiary, draft.changes, draft.fee.value, None), None), receipt)
      else if AskAccount(beneficiary) in answers then
        var loaded := InfoOf(answers[AskAccount(beneficiary)]);
        Done(Outcome(Paid(beneficiary, draft.changes, draft.fee.value, loaded), None), receipt)
      else Ask(AskAccount(beneficiary))
  }

  function Settled(mode: Mode, beneficiary: Address, core: Core): EvmTx<Outcome> {
    EvmTx(core.limit + 1, answers => SettledStep(mode, beneficiary, core, answers))
  }

  // ----- what it computes -----

  /** The outcome of a core that ended with `draft` in the world `w`. */
  function OutcomeOf(mode: Mode, beneficiary: Address, answers: Answers, draft: Draft, w: World): Outcome {
    if draft.fee.None? then Outcome(draft.changes, None)
    else if Defers(mode, beneficiary, answers, draft) then Outcome(draft.changes, draft.fee)
    else Outcome(Paid(beneficiary, draft.changes, draft.fee.value, w.accounts(beneficiary)), None)
  }

  function SettledMove(mode: Mode, beneficiary: Address, end: Ending<Draft>, w: World): Move<Outcome>
    requires !end.move.Ask?
  {
    match end.move
    case Done(draft, receipt) => Done(OutcomeOf(mode, beneficiary, end.answers, draft, w), receipt)
    case Abort(error) => Abort(error)
  }

  /** Every answer is what the world `w` replies. */
  ghost predicate Truthful(answers: Answers, w: World, codeOf: Hash -> Bytecode) {
    forall q <- answers :: answers[q] == Reply(w, codeOf, q)
  }

  lemma {:induction false} ExecuteIsTruthful<T>(
    tx: EvmTx<T>, w: World, codeOf: Hash -> Bytecode, answers: Answers)
    requires Truthful(answers, w, codeOf)
    ensures Truthful(Execute(tx, w, codeOf, answers).answers, w, codeOf)
    decreases tx.limit - |answers|
  {
    var move := NextMove(tx, answers);
    if move.Ask? {
      ExecuteIsTruthful(tx, w, codeOf, answers[move.query := Reply(w, codeOf, move.query)]);
    }
  }

  /** Progress stops at the end, or at a question that has no answer yet. */
  lemma {:induction false} ProgressStops<T>(tx: EvmTx<T>, answers: Answers, known: Answers)
    ensures
      var reached := Progress(tx, answers, known);
      && reached.move == NextMove(tx, reached.answers)
      && (reached.move.Ask? ==> reached.move.query !in answers)
    decreases tx.limit - |known|
  {
    var move := NextMove(tx, known);
    if move.Ask? && move.query in answers {
      ProgressStops(tx, answers, known[move.query := answers[move.query]]);
    }
  }

  /** With true answers, progress is a part of the execution. */
  lemma {:induction false} ProgressExecutes<T>(
    tx: EvmTx<T>, w: World, codeOf: Hash -> Bytecode, answers: Answers, known: Answers)
    requires Truthful(answers, w, codeOf)
    ensures Execute(tx, w, codeOf, known) == Execute(tx, w, codeOf, Progress(tx, answers, known).answers)
    decreases tx.limit - |known|
  {
    var move := NextMove(tx, known);
    if move.Ask? && move.query in answers {
      ProgressExecutes(tx, w, codeOf, answers, known[move.query := answers[move.query]]);
    }
  }

  /** Everything progress used is among the answers. */
  lemma {:induction false} ProgressKnows<T>(tx: EvmTx<T>, answers: Answers, known: Answers)
    requires forall q <- known :: q in answers && answers[q] == known[q]
    ensures forall q <- Progress(tx, answers, known).answers ::
      q in answers && answers[q] == Progress(tx, answers, known).answers[q]
    decreases tx.limit - |known|
  {
    var move := NextMove(tx, known);
    if move.Ask? && move.query in answers {
      ProgressKnows(tx, answers, known[move.query := answers[move.query]]);
    }
  }

  /** More answers carry progress on from where it stopped. */
  lemma {:induction false} ProgressExtends<T>(tx: EvmTx<T>, answers: Answers, more: Answers, known: Answers)
    requires forall q <- answers :: q in more && more[q] == answers[q]
    ensures Progress(tx, more, known) == Progress(tx, more, Progress(tx, answers, known).answers)
    decreases tx.limit - |known|
  {
    var move := NextMove(tx, known);
    if move.Ask? && move.query in answers {
      ProgressExtends(tx, answers, more, known[move.query := answers[move.query]]);
    }
  }

  /** The core is done and its fee is paid at once. */
  predicate Pays(mode: Mode, beneficiary: Address, end: Ending<Draft>) {
    end.move.Done? && end.move.outcome.fee.Some? && !Defers(mode, beneficiary, end.answers, end.move.outcome)
  }

  /** Where a settled execution stands: inside its core, or with the beneficiary loaded on top. */
  ghost predicate Stands(mode: Mode, beneficiary: Address, core: Core, answers: Answers) {
    var reached := Progress(core, answers, map[]);
    || answers == reached.answers
    || (&& Pays(mode, beneficiary, reached) && beneficiary !in reached.move.outcome.changes
        && AskAccount(beneficiary) in answers
        && answers == reached.answers[AskAccount(beneficiary) := answers[AskAccount(beneficiary)]])
  }

  lemma {:induction false} ProgressIsBounded<T>(tx: EvmTx<T>, answers: Answers, known: Answers)
    requires |known| <= tx.limit
    ensures |Progress(tx, answers, known).answers| <= tx.limit
    decreases tx.limit - |known|
  {
    var move := NextMove(tx, known);
    if move.Ask? && move.query in answers {
      ProgressIsBounded(tx, answers, known[move.query := answers[move.query]]);
    }
  }

  /** Answering the core's question keeps the execution inside its core. */
  lemma AnsweredCore(mode: Mode, beneficiary: Address, core: Core, answers: Answers, reply: Answer)
    requires Stands(mode, beneficiary, core, answers) && Progress(core, answers, map[]).move.Ask?
    ensures
      var q := Progress(core, answers, map[]).move.query;
      Stands(mode, beneficiary, core, answers[q := reply])
  {
    var reached := Progress(core, answers, map[]);
    ProgressStops(core, answers, map[]);
    var more := answers[reached.move.query := reply];
    ProgressExtends(core, answers, more, map[]);
    assert Progress(core, more, reached.answers) == Progress(core, more, more);
    var move := NextMove(core, more);
    assert Progress(core, more, more) == Ending(move, more);
  }

  /** Loading the beneficiary does not move a core that is done. */
  lemma LoadedBeneficiary(mode: Mode, beneficiary: Address, core: Core, answers: Answers, reply: Answer)
    requires Pays(mode, beneficiary, Progress(core, answers, map[])) && AskAccount(beneficiary) !in answers
    requires beneficiary !in Progress(core, answers, map[]).move.outcome.changes
    requires answers == Progress(core, answers, map[]).answers
    ensures
      var more := answers[AskAccount(beneficiary) := reply];
      && Progress(core, more, map[]) == Progress(core, answers, map[])
      && Stands(mode, beneficiary, core, more)
  {
    var more := answers[AskAccount(beneficiary) := reply];
    ProgressExtends(core, answers, more, map[]);
    ProgressStops(core, answers, map[]);
  }

  /** The answers of the core, and the beneficiary if it was loaded to be paid. */
  ghost predicate LoadedOnTop(answers: Answers, core: Answers, beneficiary: Address, w: World,
    codeOf: Hash -> Bytecode) {
    var q := AskAccount(beneficiary);
    answers == core || answers == core[q := Reply(w, codeOf, q)]
  }

  /** A beneficiary that is paid at once had changes or is loaded; otherwise nothing more is loaded. */
  ghost predicate LoadsToPay(mode: Mode, beneficiary: Address, end: Ending<Draft>, answers: Answers) {
    if Pays(mode, beneficiary, end) && beneficiary !in end.move.outcome.changes
    then AskAccount(beneficiary) in answers
    else answers == end.answers
  }

  /** Once the core is done and the fee needs no further load, the execution ends settled. */
  lemma SettlesNow(
    mode: Mode, beneficiary: Address, core: Core, w: World, codeOf: Hash -> Bytecode, answers: Answers)
    requires Truthful(answers, w, codeOf) && Stands(mode, beneficiary, core, answers)
    requires !SettledStep(mode, beneficiary, core, answers).Ask?
    ensures
      var end := Execute(core, w, codeOf, map[]);
      && SettledStep(mode, beneficiary, core, answers) == SettledMove(mode, beneficiary, end, w)
      && LoadedOnTop(answers, end.answers, beneficiary, w, codeOf)
      && LoadsToPay(mode, beneficiary, end, answers)
  {
    ProgressExecutes(core, w, codeOf, answers, map[]);
    ProgressStops(core, answers, map[]);
  }

  /** What a settled execution asks next has not been asked, and there is room to ask it. */
  lemma SettledAsks(mode: Mode, beneficiary: Address, core: Core, answers: Answers)
    requires Stands(mode, beneficiary, core, answers)
    ensures
      NextMove(Settled(mode, beneficiary, core), answers) == SettledStep(mode, beneficiary, core, answers)
  {
    ProgressStops(core, answers, map[]);
    ProgressIsBounded(core, answers, map[]);
  }

  lemma SettledAnswer(mode: Mode, beneficiary: Address, core: Core, answers: Answers, reply: Answer)
    requires Stands(mode, beneficiary, core, answers) && SettledStep(mode, beneficiary, core, answers).Ask?
    ensures Stands(mode, beneficiary, core, answers[SettledStep(mode, beneficiary, core, answers).query := reply])
  {
    if Progress(core, answers, map[]).move.Ask? {
      AnsweredCore(mode, beneficiary, core, answers, reply);
    } else {
      LoadedBeneficiary(mode, beneficiary, core, answers, reply);
    }
  }

  lemma {:induction false} SettlesFrom(
    mode: Mode, beneficiary: Address, core: Core, w: World, codeOf: Hash -> Bytecode, answers: Answers)
    requires Truthful(answers, w, codeOf) && Stands(mode, beneficiary, core, answers)
    ensures
      var end := Execute(core, w, codeOf, map[]);
      var settled := Execute(Settled(mode, beneficiary, core), w, codeOf, answers);
      && settled.move == SettledMove(mode, beneficiary, end, w)
      && LoadedOnTop(settled.answers, end.answers, beneficiary, w, codeOf)
      && LoadsToPay(mode, beneficiary, end, settled.answers)
    decreases core.limit + 1 - |answers|
  {
    hide Stands, SettledStep, SettledMove, LoadedOnTop, LoadsToPay, NextMove, Reply;
    var tx := Settled(mode, beneficiary, core);
    var step := SettledStep(mode, beneficiary, core, answers);
    SettledAsks(mode, beneficiary, core, answers);
    if step.Ask? {
      SettledAnswer(mode, beneficiary, core, answers, Reply(w, codeOf, step.query));
      SettlesFrom(mode, beneficiary, core, w, codeOf, answers[step.query := Reply(w, codeOf, step.query)]);
    } else {
      SettlesNow(mode, beneficiary, core, w, codeOf, answers);
    }
  }

  /** A settled execution does what its core does in the same world, and then settles the fee. */
  lemma SettledExecutes(mode: Mode, beneficiary: Address, core: Core, w: World, codeOf: Hash -> Bytecode)
    ensures
      var end, settled := Execute(core, w, codeOf, map[]), Execute(Settled(mode, beneficiary, core), w, codeOf, map[]);
      && settled.move == SettledMove(mode, beneficiary, end, w)
      && LoadedOnTop(settled.answers, end.answers, beneficiary, w, codeOf)
      && LoadsToPay(mode, beneficiary, end, settled.answers)
  {
    ProgressKnows(core, map[], map[]);
    SettlesFrom(mode, beneficiary, core, w, codeOf, map[]);
  }

  // ----- the two modes agree -----

  /** The same error, or the same receipt and the same world afterwards. */
  ghost predicate EndAlike(w: World, beneficiary: Address, m: Move<Outcome>, m': Move<Outcome>) {
    || (m.Abort? && m' == m)
    || (&& m.Done? && m'.Done? && m.receipt == m'.receipt
        && SameWorld(After(w, m.outcome, beneficiary), After(w, m'.outcome, beneficiary)))
  }

  /** Paying at once and deferring to ordered commit end alike, whatever the journal holds. */
  lemma ModesAgree(beneficiary: Address, core: Core, w: World, codeOf: Hash -> Bytecode)
    ensures EndAlike(w, beneficiary,
      Execute(Settled(Immediate, beneficiary, core), w, codeOf, map[]).move,
      Execute(Settled(Deferred, beneficiary, core), w, codeOf, map[]).move)
  {
    SettledExecutes(Immediate, beneficiary, core, w, codeOf);
    SettledExecutes(Deferred, beneficiary, core, w, codeOf);
    var end := Execute(core, w, codeOf, map[]);
    hide Execute, Settled;
    if end.move.Done? && Defers(Deferred, beneficiary, end.answers, end.move.outcome) {
      var draft := end.move.outcome;
      FoldingIsCrediting(w, Outcome(draft.changes, draft.fee), beneficiary);
      CreditIsNotEmpty(w.accounts(beneficiary), draft.fee.value);
    }
  }

  /**
   * What deferring saves. A worker defers exactly a non-zero fee for a beneficiary outside the journal,
   * and then does not load it; otherwise, and always in replay, nothing is left for ordered commit.
   */
  lemma DeferredIsNotLoaded(mode: Mode, beneficiary: Address, core: Core, w: World, codeOf: Hash -> Bytecode)
    requires
      var move := Execute(core, w, codeOf, map[]).move;
      move.Done? && move.outcome.fee.Some?
    ensures
      var end, settled := Execute(core, w, codeOf, map[]), Execute(Settled(mode, beneficiary, core), w, codeOf, map[]);
      var fee := end.move.outcome.fee.value;
      var outside := AskAccount(beneficiary) !in end.answers && beneficiary !in end.move.outcome.changes;
      && settled.move.Done?
      && settled.move.outcome.reward == (if mode.Deferred? && fee > 0 && outside then Some(fee) else None)
      && (mode.Deferred? && fee > 0 && outside ==> AskAccount(beneficiary) !in settled.answers)
      && (beneficiary in end.move.outcome.changes ==> settled.answers == end.answers)
  {
    SettledExecutes(mode, beneficiary, core, w, codeOf);
    hide Execute, Settled;
  }

  // ----- what the beneficiary is left with -----

  /** The account with the fee on top, or as it was if its balance cannot take the fee. */
  ghost predicate Receives(after: Option<Info>, before: Info, fee: Word) {
    && after.Some? && after.value.nonce == before.nonce && after.value.codeHash == before.codeHash
    && after.value.balance ==
       if before.balance + fee <= U256_MAX then before.balance + fee else before.balance
  }

  /** Nothing but the beneficiary differs between the two worlds. */
  ghost predicate SameButFor(v: World, w: World, beneficiary: Address) {
    && (forall a :: a != beneficiary ==> v.accounts(a) == w.accounts(a))
    && (forall a, s :: a != beneficiary ==> v.slots(a, s) == w.slots(a, s))
  }

  /** The beneficiary's slots as its journal account leaves them. */
  ghost predicate SlotsOf(account: Account, before: World, after: World, a: Address) {
    forall s :: after.slots(a, s) ==
      if s in account.storage then account.storage[s].present
      else if account.created then 0 else before.slots(a, s)
  }

  lemma WorldAfter(w: World, o: Outcome, beneficiary: Address)
    ensures
      var after := After(w, o, beneficiary);
      && after.accounts(beneficiary) == AccountAfter(o, beneficiary, beneficiary, w.accounts(beneficiary))
      && forall s :: after.slots(beneficiary, s) == WordAfter(o, beneficiary, s, w.slots(beneficiary, s))
  {
  }

  /** Outcomes that differ only in the beneficiary leave worlds that do. */
  lemma OthersAreKept(w: World, o: Outcome, o': Outcome, beneficiary: Address)
    requires forall a :: a != beneficiary ==> (a in o.changes <==> a in o'.changes)
    requires forall a <- o.changes :: a != beneficiary ==> o'.changes[a] == o.changes[a]
    ensures SameButFor(After(w, o', beneficiary), After(w, o, beneficiary), beneficiary)
  {
    var after, after' := After(w, o, beneficiary), After(w, o', beneficiary);
    forall a | a != beneficiary ensures after'.accounts(a) == after.accounts(a) {
      assert AccountAfter(o', beneficiary, a, w.accounts(a)) == AccountAfter(o, beneficiary, a, w.accounts(a));
    }
    forall a, s | a != beneficiary ensures after'.slots(a, s) == after.slots(a, s) {
      assert WordAfter(o', a, s, w.slots(a, s)) == WordAfter(o, a, s, w.slots(a, s));
    }
  }

  /**
   * A beneficiary with changes of its own, in either mode: it keeps its journaled nonce, code and
   * slots, and gets the fee. Only selfdestruction, or a zero fee on an empty account, removes it.
   */
  lemma JournaledBeneficiaryIsPaid(mode: Mode, beneficiary: Address, core: Core, w: World, codeOf: Hash -> Bytecode)
    requires
      var move := Execute(core, w, codeOf, map[]).move;
      move.Done? && move.outcome.fee.Some? && beneficiary in move.outcome.changes
    ensures
      var draft := Execute(core, w, codeOf, map[]).move.outcome;
      var account, fee := draft.changes[beneficiary], draft.fee.value;
      var settled := Execute(Settled(mode, beneficiary, core), w, codeOf, map[]).move;
      && settled.Done? && settled.receipt == Execute(core, w, codeOf, map[]).move.receipt
      && var before := After(w, Outcome(draft.changes, None), beneficiary);
      var after := After(w, settled.outcome, beneficiary);
      && SameButFor(after, before, beneficiary)
      && (if account.selfdestructed || (!account.created && IsEmpty(account.info) && fee == 0)
          then after.accounts(beneficiary) == None && forall s :: after.slots(beneficiary, s) == 0
          else Receives(after.accounts(beneficiary), account.info, fee) && SlotsOf(account, w, after, beneficiary))
      && (account.touched && (account.created || !IsEmpty(account.info)) ==>
            forall s :: after.slots(beneficiary, s) == before.slots(beneficiary, s))
  {
    SettledExecutes(mode, beneficiary, core, w, codeOf);
    var draft := Execute(core, w, codeOf, map[]).move.outcome;
    var settled := Execute(Settled(mode, beneficiary, core), w, codeOf, map[]).move.outcome;
    hide Execute, Settled, SameButFor, After;
    OthersAreKept(w, Outcome(draft.changes, None), settled, beneficiary);
    WorldAfter(w, Outcome(draft.changes, None), beneficiary);
    WorldAfter(w, settled, beneficiary);
  }

  /** A beneficiary without changes gets the fee on top of what the world holds, in either mode. */
  lemma OutsideBeneficiaryIsPaid(mode: Mode, beneficiary: Address, core: Core, w: World, codeOf: Hash -> Bytecode)
    requires
      var move := Execute(core, w, codeOf, map[]).move;
      move.Done? && beneficiary !in move.outcome.changes
    ensures
      var draft := Execute(core, w, codeOf, map[]).move.outcome;
      var info := InfoOrEmpty(w.accounts(beneficiary));
      var settled := Execute(Settled(mode, beneficiary, core), w, codeOf, map[]).move;
      && settled.Done? && settled.receipt == Execute(core, w, codeOf, map[]).move.receipt
      && var before := After(w, Outcome(draft.changes, None), beneficiary);
      var after := After(w, settled.outcome, beneficiary);
      && SameButFor(after, before, beneficiary)
      && (if draft.fee.None? then after == before
          else if IsEmpty(info) && draft.fee.value == 0
          then after.accounts(beneficiary) == None && forall s :: after.slots(beneficiary, s) == 0
          else
            && Receives(after.accounts(beneficiary), info, draft.fee.value)
            && forall s :: after.slots(beneficiary, s) == w.slots(beneficiary, s))
  {
    SettledExecutes(mode, beneficiary, core, w, codeOf);
    var draft := Execute(core, w, codeOf, map[]).move.outcome;
    var settled := Execute(Settled(mode, beneficiary, core), w, codeOf, map[]).move.outcome;
    hide Execute, Settled, SameButFor, After;
    OthersAreKept(w, Outcome(draft.changes, None), settled, beneficiary);
    WorldAfter(w, Outcome(draft.changes, None), beneficiary);
    WorldAfter(w, settled, beneficiary);
  }

  // ----- honest journals -----

  /** A journal holds only accounts it has loaded. */
  ghost predicate OnlyLoaded(changes: Changes, answers: Answers) {
    forall a <- changes :: AskAccount(a) in answers
  }

  /**
   * What the EVM guarantees about the journal it leaves: slots and code start from what could be
   * read, and an account whose code is cleared has moved its nonce or balance.
   */
  ghost predicate HonestDraft(
    w: World, beneficiary: Address, snapshots: Snapshots, changes: Changes, codeOf: Hash -> Bytecode)
  {
    forall a <- changes ::
      && HonestSlots(changes[a], w, a) && HonestCode(changes[a], w, a, codeOf)
      && (a != beneficiary ==> !LosesCode(changes[a], snapshots, a))
  }

  lemma SnapshotsAreTrue(answers: Answers, w: World, codeOf: Hash -> Bytecode)
    requires Truthful(answers, w, codeOf)
    ensures forall a <- SnapshotsOf(answers) :: w.accounts(a) == Some(SnapshotsOf(answers)[a])
  {
  }

  lemma PaidIsHonest(
    w: World, beneficiary: Address, snapshots: Snapshots, changes: Changes, fee: Word, codeOf: Hash -> Bytecode)
    requires HonestDraft(w, beneficiary, snapshots, changes, codeOf)
    ensures
      HonestDraft(w, beneficiary, snapshots, Paid(beneficiary, changes, fee, w.accounts(beneficiary)), codeOf)
  {
    var paid := Paid(beneficiary, changes, fee, w.accounts(beneficiary));
    forall a <- paid
      ensures HonestSlots(paid[a], w, a) && HonestCode(paid[a], w, a, codeOf)
      ensures a != beneficiary ==> !LosesCode(paid[a], snapshots, a)
    {
      if a in changes {
        assert HonestSlots(changes[a], w, a) && HonestCode(changes[a], w, a, codeOf);
      }
    }
  }

  /** Away from the beneficiary, loading it changes no snapshot. */
  lemma SnapshotsOnTop(answers: Answers, core: Answers, beneficiary: Address, w: World, codeOf: Hash -> Bytecode)
    requires LoadedOnTop(answers, core, beneficiary, w, codeOf)
    ensures forall a :: a != beneficiary ==> (a in SnapshotsOf(answers) <==> a in SnapshotsOf(core))
    ensures forall a :: a != beneficiary && a in SnapshotsOf(core) ==> SnapshotsOf(answers)[a] == SnapshotsOf(core)[a]
  {
    forall a | a != beneficiary
      ensures a in SnapshotsOf(answers) <==> a in SnapshotsOf(core)
      ensures a in SnapshotsOf(core) ==> SnapshotsOf(answers)[a] == SnapshotsOf(core)[a]
    {
      assert a in Addresses(answers) <==> AskAccount(a) in answers;
      assert a in Addresses(core) <==> AskAccount(a) in core;
      assert AskAccount(a) != AskAccount(beneficiary);
    }
  }

  /** Settling an honest journal leaves an honest outcome. */
  lemma SettledIsHonest(mode: Mode, beneficiary: Address, core: Core, w: World, codeOf: Hash -> Bytecode)
    requires
      var end := Execute(core, w, codeOf, map[]);
      end.move.Done? ==> HonestDraft(w, beneficiary, SnapshotsOf(end.answers), end.move.outcome.changes, codeOf)
    ensures
      var settled := Execute(Settled(mode, beneficiary, core), w, codeOf, map[]);
      settled.move.Done? ==>
        && Honest(w, beneficiary, SnapshotsOf(settled.answers), settled.move.outcome, codeOf)
        && KeepsCode(settled.move.outcome, beneficiary, SnapshotsOf(settled.answers))
  {
    var end, settled := Execute(core, w, codeOf, map[]), Execute(Settled(mode, beneficiary, core), w, codeOf, map[]);
    SettledExecutes(mode, beneficiary, core, w, codeOf);
    ExecuteIsTruthful(Settled(mode, beneficiary, core), w, codeOf, map[]);
    SnapshotsAreTrue(settled.answers, w, codeOf);
    hide Execute, Settled, SnapshotsOf, HonestSlots, HonestCode, Paid, Truthful;
    if end.move.Done? {
      SnapshotsOnTop(settled.answers, end.answers, beneficiary, w, codeOf);
      var draft := end.move.outcome;
      if draft.fee.Some? {
        PaidIsHonest(w, beneficiary, SnapshotsOf(end.answers), draft.changes, draft.fee.value, codeOf);
      }
    }
  }

  /** Settling loads the account it pays, so the outcome too changes only loaded accounts. */
  lemma SettledIsLoaded(mode: Mode, beneficiary: Address, core: Core, w: World, codeOf: Hash -> Bytecode)
    requires
      var end := Execute(core, w, codeOf, map[]);
      end.move.Done? ==> OnlyLoaded(end.move.outcome.changes, end.answers)
    ensures
      var settled := Execute(Settled(mode, beneficiary, core), w, codeOf, map[]);
      settled.move.Done? ==> OnlyLoaded(settled.move.outcome.changes, settled.answers)
  {
    SettledExecutes(mode, beneficiary, core, w, codeOf);
    hide Execute, Settled;
  }
}
