/** A lowered transaction computes, over locations, exactly what the transaction computes over the world. */
module Lowering {
  import opened Types
  import opened Beneficiary
  import opened Publication
  import opened Evm

  // ----- how much a set of queries can read -----

  function Entries(j: nat): set<Block.Probe> {
    set i: nat | i < j :: Once(History(i))
  }

  function Foot(site: Site, q: Query): set<Block.Probe> {
    match q
    case AskSlot(a, s) => {ResetFor(a, s), Once(Storage(a, s))}
    case AskAccount(a) => {Once(Basic(a)), Once(Code(a))} + if a == site.beneficiary then Entries(site.txid) else {}
  }

  function FootAll(site: Site, queries: set<Query>): set<Block.Probe> {
    set q <- queries, l <- Foot(site, q) :: l
  }

  lemma {:induction false} EntriesCount(j: nat)
    ensures |Entries(j)| == j
  {
    if j > 0 {
      EntriesCount(j - 1);
      assert Entries(j) == Entries(j - 1) + {Once(History(j - 1))};
    }
  }

  lemma SubsetCount<T>(a: set<T>, b: set<T>)
    requires a <= b
    ensures |a| <= |b|
  {
    assert b == a + (b - a);
  }

  lemma FootCount(site: Site, q: Query)
    ensures |Foot(site, q)| <= site.txid + 2
  {
    EntriesCount(site.txid);
    if q.AskSlot? {
      SubsetCount(Foot(site, q), {ResetFor(q.address, q.slot)} + {Once(Storage(q.address, q.slot))});
    } else {
      var pair := {Once(Basic(q.address))} + {Once(Code(q.address))};
      SubsetCount(Foot(site, q), pair + Entries(site.txid));
      assert |pair + Entries(site.txid)| <= |pair| + |Entries(site.txid)|;
    }
  }

  lemma FootAllSplit(site: Site, queries: set<Query>, q: Query)
    requires q in queries
    ensures FootAll(site, queries) == FootAll(site, queries - {q}) + Foot(site, q)
  {
    hide Foot;
  }

  lemma BudgetStep(n: nat, j: TxId)
    ensures Budget(n + 1, j) == Budget(n, j) + j + 2
  {
  }

  lemma {:induction false} FootAllCount(site: Site, queries: set<Query>)
    ensures |FootAll(site, queries)| <= Budget(|queries|, site.txid)
    decreases |queries|
  {
    if queries != {} {
      hide *;
      var q :| q in queries;
      var rest := queries - {q};
      assert queries == rest + {q} && |queries| == |rest| + 1;
      FootAllCount(site, rest);
      FootCount(site, q);
      FootAllSplit(site, queries, q);
      BudgetStep(|rest|, site.txid);
      assert |FootAll(site, rest) + Foot(site, q)| <= |FootAll(site, rest)| + |Foot(site, q)|;
    }
  }

  // ----- one more lookup -----

  lemma {:induction false} HistoryKept(
    obs: Block.Observations, l: Block.Probe, v: Value, anchor: Option<Info>, k: nat)
    requires l !in obs && !l.location.History?
    ensures HistoryIn(obs[l := v], anchor, k) == HistoryIn(obs, anchor, k)
  {
    if k > 0 {
      HistoryKept(obs, l, v, anchor, k - 1);
    }
  }

  lemma MissingInFoot(site: Site, obs: Block.Observations, q: Query)
    requires Answered(site, obs, q).None?
    ensures Missing(site, obs, q) in Foot(site, q)
  {
  }

  /** A lookup for `q` answers no other query and changes no answer. */
  lemma OthersUnmoved(site: Site, obs: Block.Observations, q: Query, v: Value, other: Query)
    requires Answered(site, obs, q).None? && other != q
    ensures Answered(site, obs[Missing(site, obs, q) := v], other) == Answered(site, obs, other)
  {
    var l := Missing(site, obs, q);
    if other.AskAccount? && Once(Basic(other.address)) in obs && other.address == site.beneficiary {
      HistoryKept(obs, l, v, StoredIn(obs, other.address), site.txid);
    }
  }

  lemma AnswersGrow(site: Site, obs: Block.Observations, q: Query, v: Value)
    requires Answered(site, obs, q).None?
    ensures
      var obs' := obs[Missing(site, obs, q) := v];
      AnswersIn(site, obs') ==
         if Answered(site, obs', q).None? then AnswersIn(site, obs)
         else AnswersIn(site, obs)[q := Answered(site, obs', q).value]
  {
    var obs' := obs[Missing(site, obs, q) := v];
    forall other ensures AnsweredIn(site, obs, other) && AnsweredIn(site, obs', other) {
      AnswersAre(site, obs, other);
      AnswersAre(site, obs', other);
    }
    forall other | other != q ensures Answered(site, obs', other) == Answered(site, obs, other) {
      OthersUnmoved(site, obs, q, v, other);
    }
  }

  ghost predicate AnsweredIn(site: Site, obs: Block.Observations, q: Query) {
    Answered(site, obs, q) == if q in AnswersIn(site, obs) then Some(AnswersIn(site, obs)[q]) else None
  }

  lemma AnswersAre(site: Site, obs: Block.Observations, q: Query)
    ensures AnsweredIn(site, obs, q)
  {
  }

  /** Every location but a reset is looked up at most once. */
  predicate OnceOnly(q: Block.Probe) {
    q.turn == 0 || q.location.StorageReset?
  }

  lemma AsksOnce(site: Site, tx: EvmTx<Outcome>, q: Block.Probe)
    requires Block.Asks(Lowered(site, tx), q)
    ensures OnceOnly(q)
  {
    var obs: Block.Observations :| Block.Next(Lowered(site, tx), obs) == Block.Read(q);
    hide AnswersIn, NextMove, Answered;
    assert LoweredStep(site, tx, obs) == Block.Read(q);
  }

  // ----- answers are true -----

  /** What each single lookup finds. */
  type Finding = Block.Probe -> Value

  ghost predicate Sees(f: Finding, obs: Block.Observations) {
    forall l <- obs :: obs[l] == f(l)
  }

  /** Whatever a transaction has looked up, the answers it puts together are those of the world. */
  ghost predicate TrueFinding(site: Site, f: Finding, w: World, codeOf: Hash -> Bytecode) {
    forall obs: Block.Observations, q: Query :: Sees(f, obs) && Answered(site, obs, q).Some? ==>
      Answered(site, obs, q).value == Reply(w, codeOf, q)
  }

  /** A finding agrees with a view on the locations that are looked up once. */
  ghost predicate AgreesOnce(f: Finding, view: View) {
    forall l: Location :: !l.StorageReset? ==> f(Once(l)) == view(l)
  }

  lemma {:induction false} HistoryTrue(
    f: Finding, view: View, obs: Block.Observations, anchor: Option<Info>, j: TxId, k: nat)
    requires Typed(view) && AgreesOnce(f, view) && Sees(f, obs) && k <= j
    ensures HistoryIn(obs, anchor, k).Some? ==> HistoryIn(obs, anchor, k).value == Fold(anchor, Effects(view, j), k)
  {
    if k > 0 {
      HistoryTrue(f, view, obs, anchor, j, k - 1);
    }
  }

  /** The two lookups for each slot amount to the slot of the world. */
  ghost predicate TrueSlots(f: Finding, w: World) {
    forall a, x :: SlotOf(f(ResetFor(a, x)), f(Once(Storage(a, x)))) == w.slots(a, x)
  }

  lemma AnswerTrue(
    site: Site, f: Finding, view: View, obs: Block.Observations, w: World, codeOf: Hash -> Bytecode, q: Query)
    requires Represents(view, site.beneficiary, site.txid, w) && CodeOk(view, w, codeOf, site.database)
    requires AgreesOnce(f, view) && TrueSlots(f, w) && Sees(f, obs) && Answered(site, obs, q).Some?
    ensures Answered(site, obs, q).value == Reply(w, codeOf, q)
  {
    match q
    case AskAccount(a) =>
      assert ResolveAccount(view, site.beneficiary, site.txid, a) == w.accounts(a);
      if a == site.beneficiary {
        HistoryTrue(f, view, obs, view(Basic(a)).info, site.txid, site.txid);
      }
    case AskSlot(a, s) =>
      assert SlotOf(f(ResetFor(a, s)), f(Once(Storage(a, s)))) == w.slots(a, s);
  }

  lemma AnswersTrue(site: Site, f: Finding, view: View, w: World, codeOf: Hash -> Bytecode)
    requires Represents(view, site.beneficiary, site.txid, w) && CodeOk(view, w, codeOf, site.database)
    requires AgreesOnce(f, view) && TrueSlots(f, w)
    ensures TrueFinding(site, f, w, codeOf)
  {
    forall obs: Block.Observations, q: Query | Sees(f, obs) && Answered(site, obs, q).Some?
      ensures Answered(site, obs, q).value == Reply(w, codeOf, q)
    {
      hide Represents, CodeOk, AgreesOnce, TrueSlots, Sees, Answered, Reply;
      AnswerTrue(site, f, view, obs, w, codeOf, q);
    }
  }

  // ----- simulation -----

  function ViewOf(b: Block.BlockSpec, overlay: Block.Overlay): View {
    (l: Location) => Block.View(b, overlay, l)
  }

  /** Everything read so far was read for an answered query or for the one being asked. */
  ghost predicate Accounted(site: Site, tx: EvmTx<Outcome>, obs: Block.Observations) {
    var answers := AnswersIn(site, obs);
    var move := NextMove(tx, answers);
    obs.Keys <= FootAll(site, answers.Keys + if move.Ask? then {move.query} else {})
  }

  lemma FootHas(site: Site, queries: set<Query>, q: Query, l: Block.Probe)
    requires q in queries && l in Foot(site, q)
    ensures l in FootAll(site, queries)
  {
  }

  lemma BudgetMonotonic(a: nat, b: nat, j: TxId)
    requires a <= b
    ensures Budget(a, j) <= Budget(b, j)
  {
  }

  lemma RoomFor(site: Site, limit: nat, keys: set<Block.Probe>, queries: set<Query>, l: Block.Probe)
    requires keys <= FootAll(site, queries) && l in FootAll(site, queries) && l !in keys && |queries| <= limit
    ensures |keys| < Budget(limit, site.txid)
  {
    hide *;
    FootAllCount(site, queries);
    BudgetMonotonic(|queries|, limit, site.txid);
    SubsetCount(keys + {l}, FootAll(site, queries));
    assert |keys + {l}| == |keys| + 1;
  }

  lemma RoomToRead(site: Site, tx: EvmTx<Outcome>, obs: Block.Observations, q: Query, l: Block.Probe)
    requires Accounted(site, tx, obs) && NextMove(tx, AnswersIn(site, obs)) == Ask(q)
    requires l in Foot(site, q) && l !in obs
    ensures |obs| < Budget(tx.limit, site.txid)
  {
    hide *;
    var answers := AnswersIn(site, obs);
    AccountedKeys(site, tx, obs, q);
    assert |answers| < tx.limit && q !in answers;
    FootHas(site, answers.Keys + {q}, q, l);
    assert |answers.Keys + {q}| == |answers.Keys| + 1;
    RoomFor(site, tx.limit, obs.Keys, answers.Keys + {q}, l);
    assert |obs| == |obs.Keys|;
  }

  lemma StillAccounted(site: Site, tx: EvmTx<Outcome>, obs: Block.Observations, q: Query, v: Value)
    requires Answered(site, obs, q).None?
    requires Accounted(site, tx, obs) && NextMove(tx, AnswersIn(site, obs)) == Ask(q)
    ensures Accounted(site, tx, obs[Missing(site, obs, q) := v])
  {
    hide *;
    var answers, l := AnswersIn(site, obs), Missing(site, obs, q);
    var obs' := obs[l := v];
    var queries := answers.Keys + {q};
    AccountedKeys(site, tx, obs, q);
    AnswersGrow(site, obs, q, v);
    MissingInFoot(site, obs, q);
    FootHas(site, queries, q, l);
    assert obs'.Keys == obs.Keys + {l};
    AccountedFor(site, tx, obs', queries, answers, q);
  }

  lemma AccountedKeys(site: Site, tx: EvmTx<Outcome>, obs: Block.Observations, q: Query)
    requires Accounted(site, tx, obs) && NextMove(tx, AnswersIn(site, obs)) == Ask(q)
    ensures obs.Keys <= FootAll(site, AnswersIn(site, obs).Keys + {q})
  {
    hide FootAll, AnswersIn, NextMove;
  }

  lemma AccountedFor(
    site: Site, tx: EvmTx<Outcome>, obs: Block.Observations, queries: set<Query>, answers: Answers, q: Query)
    requires obs.Keys <= FootAll(site, queries) && queries == answers.Keys + {q}
    requires
      || (AnswersIn(site, obs) == answers && NextMove(tx, answers) == Ask(q))
      || AnswersIn(site, obs).Keys == queries
    ensures Accounted(site, tx, obs)
  {
    hide FootAll, AnswersIn, NextMove;
    if AnswersIn(site, obs).Keys == queries {
      FootMonotonic(site, queries, NextMove(tx, AnswersIn(site, obs)));
    }
  }

  lemma FootMonotonic(site: Site, queries: set<Query>, move: Move<Outcome>)
    ensures FootAll(site, queries) <= FootAll(site, queries + if move.Ask? then {move.query} else {})
  {
  }

  ghost predicate Ready(site: Site, tx: EvmTx<Outcome>, f: Finding, obs: Block.Observations, w: World,
    codeOf: Hash -> Bytecode) {
    TrueFinding(site, f, w, codeOf) && Sees(f, obs) && Accounted(site, tx, obs)
  }

  lemma NextIsLowered(site: Site, tx: EvmTx<Outcome>, obs: Block.Observations)
    requires Accounted(site, tx, obs)
    ensures
      var move := NextMove(tx, AnswersIn(site, obs));
      if move.Ask?
      then && Answered(site, obs, move.query).None?
           && Block.Next(Lowered(site, tx), obs) == Block.Read(Missing(site, obs, move.query))
      else Block.Next(Lowered(site, tx), obs) == LoweredEnding(site, Ending(move, AnswersIn(site, obs)))
  {
    hide Budget, Accounted;
    var answers := AnswersIn(site, obs);
    var move := NextMove(tx, answers);
    match move
    case Ask(q) =>
      AnswersAre(site, obs, q);
      MissingInFoot(site, obs, q);
      RoomToRead(site, tx, obs, q, Missing(site, obs, q));
    case Done(o, r) =>
      WritesPublish(site.txid, site.beneficiary, SnapshotsOf(answers), o.changes);
    case Abort(_) =>
  }

  /** One lookup: the query is still open, or it has been answered truthfully. */
  lemma ReadIsLowered(
    site: Site, tx: EvmTx<Outcome>, f: Finding, obs: Block.Observations, w: World, codeOf: Hash -> Bytecode, q: Query)
    requires Ready(site, tx, f, obs, w, codeOf)
    requires NextMove(tx, AnswersIn(site, obs)) == Ask(q) && Answered(site, obs, q).None?
    ensures
      var l := Missing(site, obs, q);
      && Ready(site, tx, f, obs[l := f(l)], w, codeOf)
      && Execute(tx, w, codeOf, AnswersIn(site, obs[l := f(l)]))
         == Execute(tx, w, codeOf, AnswersIn(site, obs))
  {
    hide Accounted, AnswersIn, NextMove, Answered, Missing, Execute, Reply;
    var l := Missing(site, obs, q);
    var obs' := obs[l := f(l)];
    AnswersGrow(site, obs, q, f(l));
    StillAccounted(site, tx, obs, q, f(l));
    assert Sees(f, obs');
    if Answered(site, obs', q).Some? {
      ExecuteAsks(tx, w, codeOf, AnswersIn(site, obs), q);
    }
  }

  lemma ExecuteAsks(tx: EvmTx<Outcome>, w: World, codeOf: Hash -> Bytecode, answers: Answers, q: Query)
    requires NextMove(tx, answers) == Ask(q)
    ensures Execute(tx, w, codeOf, answers) == Execute(tx, w, codeOf, answers[q := Reply(w, codeOf, q)])
  {
  }

  lemma {:induction false} SimulatesFrom(
    site: Site, tx: EvmTx<Outcome>, f: Finding, obs: Block.Observations, w: World, codeOf: Hash -> Bytecode)
    requires Ready(site, tx, f, obs, w, codeOf)
    ensures
      Block.Follow(Lowered(site, tx), f, obs)
      == LoweredEnding(site, Execute(tx, w, codeOf, AnswersIn(site, obs)))
    decreases Lowered(site, tx).limit - |obs|
  {
    NextIsLowered(site, tx, obs);
    var move := NextMove(tx, AnswersIn(site, obs));
    if move.Ask? {
      var l := Missing(site, obs, move.query);
      ReadIsLowered(site, tx, f, obs, w, codeOf, move.query);
      SimulatesFrom(site, tx, f, obs[l := f(l)], w, codeOf);
    }
  }

  /** Running a transaction on lookups that amount to true answers is running it in the world. */
  lemma FindingIsFaithful(site: Site, tx: EvmTx<Outcome>, f: Finding, w: World, codeOf: Hash -> Bytecode)
    requires TrueFinding(site, f, w, codeOf)
    ensures Block.Follow(Lowered(site, tx), f, map[]) == LoweredEnding(site, Execute(tx, w, codeOf, map[]))
  {
    assert AnswersIn(site, map[]) == map[];
    SimulatesFrom(site, tx, f, map[], w, codeOf);
  }

  /** What one fixed state holds is true of the world it represents. */
  lemma FixedIsTrue(
    b: Block.BlockSpec, site: Site, overlay: Block.Overlay, w: World, codeOf: Hash -> Bytecode)
    requires Represents(ViewOf(b, overlay), site.beneficiary, site.txid, w)
    requires CodeOk(ViewOf(b, overlay), w, codeOf, site.database)
    ensures TrueFinding(site, Block.Fixed(b, overlay), w, codeOf)
  {
    var f, view := Block.Fixed(b, overlay), ViewOf(b, overlay);
    forall a, x ensures SlotOf(f(ResetFor(a, x)), f(Once(Storage(a, x)))) == w.slots(a, x) {
      assert ResolveSlot(view, a, x) == w.slots(a, x);
    }
    assert AgreesOnce(f, view);
    hide Represents, CodeOk, TrueFinding;
    AnswersTrue(site, f, view, w, codeOf);
  }

  /** Running a transaction through multi-version memory is running it in the world it resolves to. */
  lemma LoweringIsFaithful(
    b: Block.BlockSpec, site: Site, tx: EvmTx<Outcome>, overlay: Block.Overlay, w: World, codeOf: Hash -> Bytecode)
    requires Represents(ViewOf(b, overlay), site.beneficiary, site.txid, w)
    requires CodeOk(ViewOf(b, overlay), w, codeOf, site.database)
    ensures Block.Run(b, Lowered(site, tx), overlay) == LoweredEnding(site, Execute(tx, w, codeOf, map[]))
  {
    hide Represents, CodeOk, TrueFinding, Execute, Lowered;
    FixedIsTrue(b, site, overlay, w, codeOf);
    FindingIsFaithful(site, tx, Block.Fixed(b, overlay), w, codeOf);
    Block.FollowsFixed(b, Lowered(site, tx), overlay, map[]);
  }
}
