/**
 * The rewindable validation cursor: a compare-and-swap loop racing with `fetch_min`. Every load and
 * every compare-and-swap, spurious failures included, is one step of one of arbitrarily many threads.
 */
module Cursor {
  import opened Types

  datatype Pc = Idle | Loading(limit: nat) | Swapping(limit: nat, current: nat)

  datatype State = State(cursor: nat, threads: seq<Pc>)

  datatype Step =
    | Begin(thread: nat, limit: nat)
    | Load(thread: nat)
    | Swap(thread: nat, spurious: bool)
    | Rewind(to: nat)

  predicate Enabled(s: State, step: Step) {
    match step
    case Begin(t, _) => t < |s.threads| && s.threads[t].Idle?
    case Load(t) => t < |s.threads| && s.threads[t].Loading?
    case Swap(t, _) => t < |s.threads| && s.threads[t].Swapping?
    case Rewind(_) => true
  }

  /** The index a step hands out: the value a successful compare-and-swap replaced. */
  function Claimed(s: State, step: Step): Option<nat>
    requires Enabled(s, step)
  {
    if step.Swap? && !step.spurious && s.threads[step.thread].current == s.cursor then Some(s.cursor) else None
  }

  function Apply(s: State, step: Step): State
    requires Enabled(s, step)
  {
    match step
    case Begin(t, limit) => s.(threads := s.threads[t := Loading(limit)])
    case Load(t) =>
      var limit := s.threads[t].limit;
      s.(threads := s.threads[t := if s.cursor >= limit then Idle else Swapping(limit, s.cursor)])
    case Swap(t, _) =>
      if Claimed(s, step).Some? then State(s.cursor + 1, s.threads[t := Idle])
      else s.(threads := s.threads[t := Loading(s.threads[t].limit)])
    case Rewind(to) => s.(cursor := if to < s.cursor then to else s.cursor)
  }

  /** `states[i + 1]` is `states[i]` after `steps[i]`. */
  ghost predicate IsRun(states: seq<State>, steps: seq<Step>) {
    && |states| == |steps| + 1
    && (forall t :: 0 <= t < |states[0].threads| ==> states[0].threads[t].Idle?)
    && forall i :: 0 <= i < |steps| ==> Enabled(states[i], steps[i]) && states[i + 1] == Apply(states[i], steps[i])
  }

  predicate ThreadsOk(s: State) {
    forall t :: 0 <= t < |s.threads| && s.threads[t].Swapping? ==> s.threads[t].current < s.threads[t].limit
  }

  lemma {:induction false} RunKeeps(states: seq<State>, steps: seq<Step>, k: nat)
    requires IsRun(states, steps) && k < |states|
    ensures ThreadsOk(states[k])
  {
    if k > 0 {
      RunKeeps(states, steps, k - 1);
      assert Enabled(states[k - 1], steps[k - 1]) && states[k] == Apply(states[k - 1], steps[k - 1]);
    }
  }

  /** No thread is handed an index at or past the limit it asked for. */
  lemma ClaimsStayBelowTheLimit(states: seq<State>, steps: seq<Step>, i: nat)
    requires IsRun(states, steps) && i < |steps| && Claimed(states[i], steps[i]).Some?
    ensures Claimed(states[i], steps[i]).value < states[i].threads[steps[i].thread].limit
  {
    RunKeeps(states, steps, i);
  }

  predicate IsStepOf(step: Step, t: nat) {
    !step.Rewind? && step.thread == t
  }

  lemma {:induction false} ThreadIsLeft(states: seq<State>, steps: seq<Step>, p: nat, q: nat, t: nat)
    requires IsRun(states, steps) && p <= q < |states| && t < |states[p].threads|
    requires forall i :: p <= i < q ==> !IsStepOf(steps[i], t)
    ensures t < |states[q].threads| && states[q].threads[t] == states[p].threads[t]
    decreases q
  {
    if p < q {
      ThreadIsLeft(states, steps, p, q - 1, t);
      assert Enabled(states[q - 1], steps[q - 1]) && states[q] == Apply(states[q - 1], steps[q - 1]);
    }
  }

  /**
   * What a thread that loads the cursor at `p` gets: below its limit, its next swap hands out the
   * loaded index exactly if the cursor is at that index then and the swap is not spurious; at or
   * past its limit, it is done with nothing.
   */
  lemma LoadThenSwap(states: seq<State>, steps: seq<Step>, p: nat, q: nat, t: nat)
    requires IsRun(states, steps) && p < q < |states| && steps[p] == Load(t)
    requires forall i :: p < i < q ==> !IsStepOf(steps[i], t)
    ensures t < |states[p].threads| && states[p].threads[t].Loading?
    ensures
      var limit, loaded := states[p].threads[t].limit, states[p].cursor;
      if loaded >= limit then t < |states[q].threads| && states[q].threads[t].Idle?
      else
        forall spurious :: Enabled(states[q], Swap(t, spurious)) &&
          Claimed(states[q], Swap(t, spurious)) ==
            if !spurious && states[q].cursor == loaded then Some(loaded) else None
  {
    assert Enabled(states[p], steps[p]) && states[p + 1] == Apply(states[p], steps[p]);
    ThreadIsLeft(states, steps, p + 1, q, t);
  }

  /** The cursor gets from at or below `v` to beyond it only by handing `v` out. */
  lemma {:induction false} PassingIsClaiming(states: seq<State>, steps: seq<Step>, p: nat, q: nat, v: nat)
    requires IsRun(states, steps) && p <= q < |states|
    requires states[p].cursor <= v < states[q].cursor
    ensures exists i :: p <= i < q && Claimed(states[i], steps[i]) == Some(v)
    decreases q
  {
    assert Enabled(states[q - 1], steps[q - 1]) && states[q] == Apply(states[q - 1], steps[q - 1]);
    if states[q - 1].cursor > v {
      PassingIsClaiming(states, steps, p, q - 1, v);
    } else {
      assert Claimed(states[q - 1], steps[q - 1]) == Some(v);
    }
  }

  /** After a rewind to `to`, every index from there up is handed out again before it is passed. */
  lemma RewoundIndicesAreReissued(states: seq<State>, steps: seq<Step>, p: nat, q: nat, to: nat, v: nat)
    requires IsRun(states, steps) && p < q < |states| && steps[p] == Rewind(to) && to <= v < states[q].cursor
    ensures exists i :: p < i < q && Claimed(states[i], steps[i]) == Some(v)
  {
    assert Enabled(states[p], steps[p]) && states[p + 1] == Apply(states[p], steps[p]);
    PassingIsClaiming(states, steps, p + 1, q, v);
  }

  lemma {:induction false} StaysPassed(states: seq<State>, steps: seq<Step>, p: nat, q: nat, v: nat)
    requires IsRun(states, steps) && p <= q < |states| && states[p].cursor > v
    requires forall i :: p <= i < q && steps[i].Rewind? ==> steps[i].to > v
    ensures states[q].cursor > v
    decreases q
  {
    if p < q {
      StaysPassed(states, steps, p, q - 1, v);
      assert Enabled(states[q - 1], steps[q - 1]) && states[q] == Apply(states[q - 1], steps[q - 1]);
    }
  }

  /** The same index is handed out twice only if a rewind to it or below it came in between. */
  lemma NoDoubleClaim(states: seq<State>, steps: seq<Step>, p: nat, q: nat, v: nat)
    requires IsRun(states, steps) && p < q < |steps|
    requires Claimed(states[p], steps[p]) == Some(v) == Claimed(states[q], steps[q])
    ensures exists i :: p < i < q && steps[i].Rewind? && steps[i].to <= v
  {
    assert Enabled(states[p], steps[p]) && states[p + 1] == Apply(states[p], steps[p]);
    if forall i :: p < i < q && steps[i].Rewind? ==> steps[i].to > v {
      StaysPassed(states, steps, p + 1, q, v);
    }
  }
}
