/**
 * The dependency graph that decides when a transaction is retried. The functions are the critical
 * sections of the graph, one per lock acquisition; the class runs them in place.
 */
module DependencyGraph {
  import opened Types

  /** `onboard`: the transaction may be claimed, once `blocker` is clear. */
  datatype Dependent = Dependent(onboard: bool, blocker: Option<TxId>)

  /** `affects[d]` are the reverse edges of `d`; some of them may be stale. */
  datatype Graph = Graph(dependents: seq<Dependent>, affects: seq<set<TxId>>, index: nat)

  function Min(a: nat, b: nat): nat {
    if a < b then a else b
  }

  predicate Sized(g: Graph, n: nat) {
    |g.dependents| == |g.affects| == n
  }

  function Init(n: nat): Graph {
    Graph(seq(n, _ => Dependent(true, None)), seq(n, _ => {}), 0)
  }

  function Set(g: Graph, t: TxId, d: Dependent): Graph
    requires t < |g.dependents|
  {
    g.(dependents := g.dependents[t := d])
  }

  predicate Claimable(g: Graph, t: TxId)
    requires t < |g.dependents|
  {
    g.dependents[t].onboard && g.dependents[t].blocker.None?
  }

  /** The locked half of a claim: the cursor has already been moved past `t`. */
  function Claim(g: Graph, t: TxId): Graph
    requires t < |g.dependents|
  {
    if Claimable(g, t) then Set(g, t, Dependent(false, None)) else g
  }

  /** Make `t` wait for `d`, and make `d` claimable again so that somebody releases `t`. */
  function Link(g: Graph, t: TxId, d: TxId): Graph
    requires d < t < |g.dependents| == |g.affects|
  {
    var g1 := Set(g, t, Dependent(true, Some(d)));
    var g2 := Set(g1, d, Dependent(true, g.dependents[d].blocker));
    g2.(affects := g.affects[d := g.affects[d] + {t}],
        index := if g.dependents[d].blocker.None? then Min(g.index, d) else g.index)
  }

  /** Make `t` claimable at once, unless it already waits in the graph. */
  function Offer(g: Graph, t: TxId): Graph
    requires t < |g.dependents|
  {
    if g.dependents[t].onboard then g
    else Set(g, t, Dependent(true, None)).(index := Min(g.index, t))
  }

  function Added(g: Graph, t: TxId, d: Option<TxId>): Graph
    requires t < |g.dependents| == |g.affects|
    requires d.Some? ==> d.value < t
  {
    if d.Some? then Link(g, t, d.value) else Offer(g, t)
  }

  /** Hold `t` behind its own commit boundary, if that boundary is still ahead. */
  function Bar(g: Graph, t: TxId, committed: nat): Graph
    requires t < |g.dependents|
  {
    var blocker := if committed < t then Some(t) else g.dependents[t].blocker;
    Set(g, t, Dependent(true, blocker)).(index := if blocker.None? then Min(g.index, t) else g.index)
  }

  /** The commit of `t - 1`: whatever `t` waits for, it may now be claimed. */
  function Release(g: Graph, t: TxId): Graph
    requires t < |g.dependents|
  {
    if g.dependents[t].onboard then Set(g, t, Dependent(true, None)).(index := Min(g.index, t)) else g
  }

  /** The immediate successor goes straight to the same worker once the cursor has passed it. */
  predicate HandsOff(g: Graph, d: TxId, t: TxId, pop: bool)
    requires t < |g.dependents|
  {
    && g.dependents[t].blocker == Some(d) && g.dependents[t].onboard
    && pop && t == d + 1 && g.index > t
  }

  /** One iteration of `remove`: examine the reverse edge from `d` to `t`. */
  function Examine(g: Graph, d: TxId, t: TxId, pop: bool): Graph
    requires t < |g.dependents|
  {
    if g.dependents[t].blocker != Some(d) then g
    else if HandsOff(g, d, t, pop) then Set(g, t, Dependent(false, None))
    else if g.dependents[t].onboard then Set(g, t, Dependent(true, None)).(index := Min(g.index, t))
    else Set(g, t, Dependent(false, None))
  }

  function Cleared(g: Graph, d: TxId): Graph
    requires d < |g.affects|
  {
    g.(affects := g.affects[d := {}])
  }

  // ----- laws of the graph -----

  /** Whoever waits has an edge from an earlier blocker, or waits for its own commit boundary. */
  ghost predicate Ordered(g: Graph) {
    && |g.dependents| == |g.affects|
    && (forall d, t :: 0 <= d < |g.affects| && t in g.affects[d] ==> d < t < |g.affects|)
    && (forall t :: 0 <= t < |g.dependents| && g.dependents[t].blocker.Some? ==>
          && g.dependents[t].onboard
          && var d := g.dependents[t].blocker.value;
             d <= t && (d < t ==> t in g.affects[d]))
  }

  /**
   * A commit and the installation of a barrier at its successor lead to the same graph in either
   * order, and that graph offers the successor to the cursor.
   */
  lemma BarrierAndCommitCommute(g: Graph, t: TxId, before: nat, after: nat)
    requires Ordered(g) && t < |g.dependents| && before < t <= after
    ensures Release(Bar(g, t, before), t) == Bar(Release(g, t), t, after)
    ensures Claimable(Release(Bar(g, t, before), t), t)
    ensures Release(Bar(g, t, before), t).index <= t
  {
  }

  /**
   * At the commit head no barrier is installed, but an older blocker is kept: the cursor comes back
   * to `t` if and only if `t` had no blocker.
   */
  lemma BarAtHead(g: Graph, t: TxId, committed: nat)
    requires Ordered(g) && t < |g.dependents| && t <= committed
    ensures Ordered(Bar(g, t, committed))
    ensures Claimable(Bar(g, t, committed), t) <==> g.dependents[t].blocker.None?
    ensures g.dependents[t].blocker.None? ==> Bar(g, t, committed).index <= t
    ensures g.dependents[t].blocker.Some? ==> Bar(g, t, committed) == g
  {
  }

  /**
   * Ahead of the commit head `t` waits for its own commit: it cannot be claimed, the cursor stays
   * where it is, and neither an examined edge nor another transaction's release, nor a dependent
   * linked behind `t`, changes that. Its own release does.
   */
  lemma BarredWaits(g: Graph, t: TxId, committed: nat)
    requires Ordered(g) && t < |g.dependents| && committed < t
    ensures
      var h := Bar(g, t, committed);
      && Ordered(h) && !Claimable(h, t) && h.index == g.index && h.affects == g.affects
      && h.dependents == g.dependents[t := h.dependents[t]]
      && (forall d, u, pop :: d != t && 0 <= u < |h.dependents| ==>
            Examine(h, d, u, pop).dependents[t] == h.dependents[t])
      && (forall u :: 0 <= u < |h.dependents| && u != t ==> Release(h, u).dependents[t] == h.dependents[t])
      && (forall u :: t < u < |h.dependents| ==> Link(h, u, t).dependents[t] == h.dependents[t])
      && Claimable(Release(h, t), t) && Release(h, t).index <= t
  {
  }

  /** A transaction linked behind another can be claimed only after an examination of that edge. */
  lemma LinkedWaits(g: Graph, t: TxId, d: TxId, other: TxId, pop: bool)
    requires Ordered(g) && d < t < |g.dependents| && other != d
    ensures Ordered(Link(g, t, d)) && !Claimable(Link(g, t, d), t)
    ensures Examine(Link(g, t, d), other, t, pop) == Link(g, t, d)
    ensures
      var g' := Examine(Link(g, t, d), d, t, pop);
      if HandsOff(Link(g, t, d), d, t, pop) then g'.dependents[t] == Dependent(false, None)
      else Claimable(g', t) && g'.index <= t
  {
  }

  /** What `remove` leaves of the dependent `t`. */
  function Removed(g: Graph, d: TxId, t: TxId, pop: bool): Dependent
    requires d < |g.affects| && t < |g.dependents|
  {
    if t in g.affects[d] && g.dependents[t].blocker == Some(d) then
      Dependent(g.dependents[t].onboard && !HandsOff(g, d, t, pop), None)
    else g.dependents[t]
  }

  /** `t` is offered to the cursor by `remove`. */
  predicate Offered(g: Graph, d: TxId, t: TxId, pop: bool) {
    && d < |g.affects| && t < |g.dependents| && t in g.affects[d]
    && g.dependents[t] == Dependent(true, Some(d)) && !HandsOff(g, d, t, pop)
  }

  /** The index after `remove`: lowered to the least transaction that was offered. */
  ghost predicate LoweredTo(g: Graph, d: TxId, pop: bool, done: set<TxId>, index: nat) {
    && index <= g.index
    && (forall t <- done :: Offered(g, d, t, pop) ==> index <= t)
    && (index == g.index || exists t :: t in done && Offered(g, d, t, pop) && index == t)
  }

  /** `h` is `g` once the edges `done` of `d` have been examined, in whatever order. */
  ghost predicate Examined(g: Graph, d: TxId, pop: bool, done: set<TxId>, h: Graph, next: Option<TxId>)
    requires d < |g.affects| && |g.dependents| == |g.affects|
  {
    && h.affects == g.affects && |h.dependents| == |g.dependents|
    && (forall t :: 0 <= t < |g.dependents| ==>
          h.dependents[t] == if t in done then Removed(g, d, t, pop) else g.dependents[t])
    && LoweredTo(g, d, pop, done, h.index)
    && (pop && g.index > d + 1 ==> h.index > d + 1)
    && next == (if d + 1 in done && d + 1 < |g.dependents| && HandsOff(g, d, d + 1, pop) then Some(d + 1) else None)
  }

  lemma ExaminedNone(g: Graph, d: TxId, pop: bool)
    requires Ordered(g) && d < |g.affects|
    ensures |g.dependents| == |g.affects| && Examined(g, d, pop, {}, g, None)
  {
  }

  lemma LowerOne(g: Graph, d: TxId, pop: bool, done: set<TxId>, index: nat, t: TxId)
    requires d < |g.affects| && |g.dependents| == |g.affects| && LoweredTo(g, d, pop, done, index)
    ensures LoweredTo(g, d, pop, done + {t}, if Offered(g, d, t, pop) then Min(index, t) else index)
  {
  }

  lemma ExamineOne(g: Graph, d: TxId, pop: bool, done: set<TxId>, h: Graph, next: Option<TxId>, t: TxId)
    requires Ordered(g) && d < |g.affects| && Examined(g, d, pop, done, h, next)
    requires t in g.affects[d] && t !in done
    ensures d < t < |h.dependents|
    ensures Examined(g, d, pop, done + {t}, Examine(h, d, t, pop), if HandsOff(h, d, t, pop) then Some(t) else next)
  {
    assert h.dependents[t] == g.dependents[t];
    assert HandsOff(h, d, t, pop) == HandsOff(g, d, t, pop);
    LowerOne(g, d, pop, done, h.index, t);
    hide LoweredTo;
  }

  lemma ExaminedAll(g: Graph, d: TxId, pop: bool, h: Graph, next: Option<TxId>)
    requires Ordered(g) && d < |g.affects| && Examined(g, d, pop, g.affects[d], h, next)
    ensures |h.affects| == |g.affects| && Ordered(Cleared(h, d))
    ensures h.affects == g.affects && |h.dependents| == |g.dependents|
    ensures forall t :: 0 <= t < |h.dependents| ==> h.dependents[t] == Removed(g, d, t, pop)
    ensures LoweredTo(g, d, pop, g.affects[d], h.index)
    ensures next.Some? <==> d + 1 in g.affects[d] && HandsOff(g, d, d + 1, pop)
    ensures next.Some? ==> next.value == d + 1 && !h.dependents[d + 1].onboard
    ensures next.Some? ==> pop && g.index > d + 1
    ensures forall t <- g.affects[d] ::
      && t < |h.dependents|
      && (g.dependents[t] == Dependent(true, Some(d)) && next != Some(t) ==> Claimable(h, t) && h.index <= t)
    ensures forall t :: 0 <= t < |h.dependents| && g.dependents[t].blocker != Some(d) ==>
      h.dependents[t] == g.dependents[t]
  {
    forall t <- g.affects[d] | g.dependents[t] == Dependent(true, Some(d)) && next != Some(t)
      ensures Claimable(h, t) && h.index <= t
    {
      assert HandsOff(g, d, t, pop) ==> next == Some(t);
      assert Offered(g, d, t, pop);
    }
  }

  class TxDependency {
    var dependents: seq<Dependent>
    var affects: seq<set<TxId>>
    var index: nat

    function Contents(): Graph
      reads this
    {
      Graph(dependents, affects, index)
    }

    ghost predicate Valid()
      reads this
    {
      Ordered(Contents())
    }

    constructor (n: nat)
      ensures Valid() && Contents() == Init(n)
    {
      dependents := seq(n, _ => Dependent(true, None));
      affects := seq(n, _ => {});
      index := 0;
    }

    /** Move the cursor and claim what it passed, if that may be claimed. */
    method Next() returns (claimed: Option<TxId>)
      requires Valid()
      modifies this
      ensures Valid()
      ensures old(index) >= |old(dependents)| ==> claimed.None? && Contents() == old(Contents())
      ensures old(index) < |old(dependents)| ==>
        && Contents() == Claim(old(Contents()), old(index)).(index := old(index) + 1)
        && claimed == (if Claimable(old(Contents()), old(index)) then Some(old(index)) else None)
    {
      if index >= |dependents| {
        return None;
      }
      var i := index;
      index := index + 1;
      if dependents[i].onboard && dependents[i].blocker.None? {
        dependents := dependents[i := Dependent(false, None)];
        return Some(i);
      }
      return None;
    }

    /**
     * Release everything that waits for `txid`, examining its reverse edges in any order. A stale
     * edge releases nothing, and the immediate successor is handed out at most once.
     */
    method Remove(txid: TxId, pop: bool) returns (next: Option<TxId>)
      requires Valid() && txid < |affects|
      modifies this
      ensures Valid()
      ensures |dependents| == |old(dependents)| && affects == old(affects)[txid := {}]
      ensures forall t :: 0 <= t < |dependents| ==> dependents[t] == Removed(old(Contents()), txid, t, pop)
      ensures LoweredTo(old(Contents()), txid, pop, old(affects)[txid], index)
      ensures next.Some? <==>
        txid + 1 in old(affects)[txid] && HandsOff(old(Contents()), txid, txid + 1, pop)
      ensures next.Some? ==> next.value == txid + 1 && !dependents[txid + 1].onboard
      ensures next.Some? ==> pop && old(index) > txid + 1
      ensures forall t <- old(affects)[txid] ::
        && t < |dependents|
        && (old(dependents)[t] == Dependent(true, Some(txid)) && next != Some(t) ==>
              Claimable(Contents(), t) && index <= t)
      ensures forall t :: 0 <= t < |dependents| && old(dependents)[t].blocker != Some(txid) ==>
        dependents[t] == old(dependents)[t]
    {
      ghost var g := Contents();
      next := ExamineAll(txid, pop);
      ghost var h := Contents();
      ExaminedAll(g, txid, pop, h, next);
      hide Ordered, Examined, LoweredTo, Removed, HandsOff;
      affects := affects[txid := {}];
      assert Contents() == Cleared(h, txid);
    }

    /** Examine the reverse edges of `txid`, in any order. */
    method ExamineAll(txid: TxId, pop: bool) returns (next: Option<TxId>)
      requires Valid() && txid < |affects|
      modifies this`dependents, this`index
      ensures Examined(old(Contents()), txid, pop, old(affects)[txid], Contents(), next)
    {
      hide Ordered, Examined, Examine, HandsOff;
      ghost var g := Contents();
      ExaminedNone(g, txid, pop);
      next := None;
      var todo := affects[txid];
      ghost var done: set<TxId> := {};
      while todo != {}
        invariant todo !! done && todo + done == g.affects[txid]
        invariant Examined(g, txid, pop, done, Contents(), next)
        decreases |todo|
      {
        var t :| t in todo;
        ExamineOne(g, txid, pop, done, Contents(), next, t);
        var handed := ExamineEdge(txid, t, pop);
        next := if handed then Some(t) else next;
        todo := todo - {t};
        done := done + {t};
      }
      assert done == g.affects[txid];
    }

    /** One reverse edge, under the lock of the dependent. */
    method ExamineEdge(txid: TxId, t: TxId, pop: bool) returns (handed: bool)
      requires t < |dependents|
      modifies this`dependents, this`index
      ensures Contents() == Examine(old(Contents()), txid, t, pop)
      ensures handed == HandsOff(old(Contents()), txid, t, pop)
    {
      handed := false;
      var d := dependents[t];
      if d.blocker == Some(txid) {
        dependents := dependents[t := Dependent(d.onboard, None)];
        if d.onboard {
          if pop && t == txid + 1 && index > t {
            dependents := dependents[t := Dependent(false, None)];
            handed := true;
          } else {
            index := Min(index, t);
          }
        }
      }
    }

    /** Clear the immediate successor's blocker after publishing the commit of `txid`. */
    method Commit(txid: TxId)
      requires Valid()
      modifies this
      ensures Valid()
      ensures Contents() ==
        if txid + 1 < |old(dependents)| then Release(old(Contents()), txid + 1) else old(Contents())
    {
      var next := txid + 1;
      if next < |dependents| && dependents[next].onboard {
        dependents := dependents[next := Dependent(true, None)];
        index := Min(index, next);
      }
    }

    /** Hold `txid` behind its own commit boundary. */
    method KeyTx(txid: TxId, committed: nat)
      requires Valid() && txid < |dependents|
      modifies this
      ensures Valid() && Contents() == Bar(old(Contents()), txid, committed)
      ensures txid > committed ==> !Claimable(Contents(), txid) && index == old(index)
      ensures txid <= committed && old(dependents)[txid].blocker.None? ==> Claimable(Contents(), txid) && index <= txid
    {
      var d := dependents[txid];
      if txid > committed {
        d := Dependent(d.onboard, Some(txid));
      }
      if !d.onboard {
        d := Dependent(true, d.blocker);
      }
      dependents := dependents[txid := d];
      if d.blocker.None? {
        index := Min(index, txid);
      }
    }

    /** Wait for `dep`, or become claimable at once. */
    method Add(txid: TxId, dep: Option<TxId>)
      requires Valid() && txid < |dependents|
      requires dep.Some? ==> dep.value < txid
      modifies this
      ensures Valid() && Contents() == Added(old(Contents()), txid, dep)
      ensures dep.None? ==>
        if old(dependents)[txid].onboard then Contents() == old(Contents())
        else Claimable(Contents(), txid) && index <= txid
      ensures dep.Some? ==>
        && dependents[txid] == Dependent(true, dep) && txid in affects[dep.value]
        && dependents[dep.value] == Dependent(true, old(dependents)[dep.value].blocker)
        && (Claimable(Contents(), dep.value) ==> index <= dep.value)
    {
      if dep.Some? {
        var d := dep.value;
        dependents := dependents[txid := Dependent(true, Some(d))];
        affects := affects[d := affects[d] + {txid}];
        dependents := dependents[d := Dependent(true, dependents[d].blocker)];
        if dependents[d].blocker.None? {
          index := Min(index, d);
        }
      } else if !dependents[txid].onboard {
        dependents := dependents[txid := Dependent(true, None)];
        index := Min(index, txid);
      }
    }
  }
}
