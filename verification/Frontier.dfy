/**
 * The lock-free execution frontier: publishers and helping readers advance one shared index over the
 * contiguous run of executed transactions. Every atomic load, store and fetch-max is one step of one
 * of arbitrarily many threads.
 */
module Frontier {
  import opened Types

  /** Where a thread is: inside `publish`, inside `current`, or inside `advance` on behalf of either. */
  datatype Pc =
    | Idle
    | Publishing(index: nat)
    | Storing(index: nat)
    | Reloading(index: nat)
    | Comparing(index: nat, loaded: nat)
    | Helping(loaded: nat)
    | Scanning(start: nat, end: nat)
    | Raising(start: nat, end: nat)

  datatype State = State(executed: seq<bool>, frontier: nat, threads: seq<Pc>)

  datatype Step = Publish(index: nat) | Current | Continue

  function Init(n: nat, threads: nat): State {
    State(seq(n, _ => false), 0, seq(threads, _ => Idle))
  }

  predicate Enabled(s: State, t: nat, step: Step) {
    && t < |s.threads|
    && match step
       case Publish(index) => s.threads[t].Idle? && index < |s.executed|
       case Current => s.threads[t].Idle?
       case Continue => !s.threads[t].Idle? && IndexOk(s, s.threads[t])
  }

  predicate IndexOk(s: State, pc: Pc) {
    match pc
    case Storing(index) => index < |s.executed|
    case _ => true
  }

  function At(s: State, t: nat, pc: Pc): State
    requires t < |s.threads|
  {
    s.(threads := s.threads[t := pc])
  }

  /** One atomic access of thread `t`. */
  function Apply(s: State, t: nat, step: Step): State
    requires Enabled(s, t, step)
  {
    match step
    case Publish(index) => At(s, t, Publishing(index))
    case Current => At(s, t, Helping(s.frontier))
    case Continue =>
      match s.threads[t]
      case Publishing(index) => At(s, t, if index < s.frontier then Idle else Storing(index))
      case Storing(index) => At(s.(executed := s.executed[index := true]), t, Reloading(index))
      case Reloading(index) => At(s, t, Comparing(index, s.frontier))
      case Comparing(index, loaded) => At(s, t, if index == loaded then Scanning(loaded, loaded) else Idle)
      case Helping(loaded) =>
        At(s, t, if loaded < |s.executed| && s.executed[loaded] then Scanning(loaded, loaded) else Idle)
      case Scanning(start, end) =>
        At(s, t,
           if end < |s.executed| && s.executed[end] then Scanning(start, end + 1)
           else if end == start then Idle
           else Raising(start, end))
      case Raising(start, end) =>
        var start' := Max(s.frontier, end);
        At(s.(frontier := start'), t, Scanning(start', start'))
  }

  ghost predicate IsRun(trace: seq<State>, n: nat, threads: nat) {
    && |trace| > 0 && trace[0] == Init(n, threads)
    && forall k :: 0 <= k < |trace| - 1 ==>
         exists t, step :: Enabled(trace[k], t, step) && trace[k + 1] == Apply(trace[k], t, step)
  }

  /** Everything below `k` has executed. */
  predicate ExecutedBelow(s: State, k: nat) {
    k <= |s.executed| && forall i :: 0 <= i < k ==> s.executed[i]
  }

  predicate ThreadOk(s: State, pc: Pc) {
    match pc
    case Publishing(index) => index < |s.executed|
    case Storing(index) => index < |s.executed|
    case Reloading(index) => index < |s.executed| && s.executed[index]
    case Comparing(index, loaded) => index < |s.executed| && s.executed[index] && loaded <= s.frontier
    case Helping(loaded) => loaded <= s.frontier
    case Scanning(start, end) => start <= s.frontier && start <= end && ExecutedBelow(s, end)
    case Raising(start, end) => start < end && ExecutedBelow(s, end)
    case Idle => true
  }

  /** This thread is going to look at the frontier's own index again. */
  predicate Watches(s: State, pc: Pc) {
    match pc
    case Scanning(_, _) => true
    case Raising(_, _) => true
    case Reloading(index) => index == s.frontier
    case Comparing(index, loaded) => index == loaded == s.frontier
    case _ => false
  }

  ghost predicate Watched(s: State) {
    exists t :: 0 <= t < |s.threads| && Watches(s, s.threads[t])
  }

  ghost predicate Inv(s: State) {
    && ExecutedBelow(s, s.frontier)
    && (forall t :: 0 <= t < |s.threads| ==> ThreadOk(s, s.threads[t]))
    && (s.frontier < |s.executed| && s.executed[s.frontier] ==> Watched(s))
  }

  /** What a thread relies on only improves as others move. */
  lemma ThreadKept(s: State, s': State, pc: Pc)
    requires ThreadOk(s, pc) && s.frontier <= s'.frontier && |s'.executed| == |s.executed|
    requires forall i :: 0 <= i < |s.executed| && s.executed[i] ==> s'.executed[i]
    ensures ThreadOk(s', pc)
  {
  }

  lemma ThreadsKeep(s: State, t: nat, step: Step)
    requires Inv(s) && Enabled(s, t, step)
    ensures
      var s' := Apply(s, t, step);
      && ExecutedBelow(s', s'.frontier)
      && forall u :: 0 <= u < |s'.threads| ==> ThreadOk(s', s'.threads[u])
  {
    var s' := Apply(s, t, step);
    assert ThreadOk(s, s.threads[t]);
    forall u | 0 <= u < |s'.threads| ensures ThreadOk(s', s'.threads[u]) {
      if u != t {
        ThreadKept(s, s', s.threads[u]);
      }
    }
  }

  /** The frontier's own index is never left executed with nobody about to look at it. */
  lemma WatchKeeps(s: State, t: nat, step: Step)
    requires Inv(s) && Enabled(s, t, step)
    ensures
      var s' := Apply(s, t, step);
      s'.frontier < |s'.executed| && s'.executed[s'.frontier] ==> Watched(s')
  {
    var s' := Apply(s, t, step);
    assert ThreadOk(s, s.threads[t]);
    if s'.frontier < |s'.executed| && s'.executed[s'.frontier] && !Watches(s', s'.threads[t]) {
      assert s'.frontier == s.frontier && s.executed[s.frontier];
      var u :| 0 <= u < |s.threads| && Watches(s, s.threads[u]);
      assert u != t;
      assert Watches(s', s'.threads[u]);
    }
  }

  lemma StepKeeps(s: State, t: nat, step: Step)
    requires Inv(s) && Enabled(s, t, step)
    ensures
      var s' := Apply(s, t, step);
      && Inv(s') && s.frontier <= s'.frontier && |s'.executed| == |s.executed|
      && forall i :: 0 <= i < |s.executed| && s.executed[i] ==> s'.executed[i]
  {
    ThreadsKeep(s, t, step);
    WatchKeeps(s, t, step);
  }

  lemma {:induction false} RunKeeps(trace: seq<State>, n: nat, threads: nat, k: nat)
    requires IsRun(trace, n, threads) && k < |trace|
    ensures Inv(trace[k]) && |trace[k].executed| == n
  {
    if k > 0 {
      RunKeeps(trace, n, threads, k - 1);
      var t, step :| Enabled(trace[k - 1], t, step) && trace[k] == Apply(trace[k - 1], t, step);
      StepKeeps(trace[k - 1], t, step);
    }
  }

  /** The frontier never passes an index that has not executed. */
  lemma FrontierIsSafe(trace: seq<State>, n: nat, threads: nat, k: nat)
    requires IsRun(trace, n, threads) && k < |trace|
    ensures trace[k].frontier <= n == |trace[k].executed|
    ensures forall i :: 0 <= i < trace[k].frontier ==> trace[k].executed[i]
  {
    RunKeeps(trace, n, threads, k);
  }

  /** The frontier never moves backwards. */
  lemma {:induction false} FrontierIsMonotonic(trace: seq<State>, n: nat, threads: nat, k: nat, k': nat)
    requires IsRun(trace, n, threads) && k <= k' < |trace|
    ensures trace[k].frontier <= trace[k'].frontier
    decreases k'
  {
    if k < k' {
      FrontierIsMonotonic(trace, n, threads, k, k' - 1);
      RunKeeps(trace, n, threads, k' - 1);
      var t, step :| Enabled(trace[k' - 1], t, step) && trace[k'] == Apply(trace[k' - 1], t, step);
      StepKeeps(trace[k' - 1], t, step);
    }
  }

  /** Once every call has returned, the frontier is exactly the first index not yet executed. */
  lemma QuietFrontierIsExact(trace: seq<State>, n: nat, threads: nat, k: nat)
    requires IsRun(trace, n, threads) && k < |trace|
    requires forall t :: 0 <= t < |trace[k].threads| ==> trace[k].threads[t].Idle?
    ensures trace[k].frontier <= n == |trace[k].executed|
    ensures forall i :: 0 <= i < trace[k].frontier ==> trace[k].executed[i]
    ensures trace[k].frontier < n ==> !trace[k].executed[trace[k].frontier]
  {
    RunKeeps(trace, n, threads, k);
  }

  // ----- what a call has done when it returns -----

  ghost predicate Moves(s: State, t: nat, step: Step, s': State) {
    Enabled(s, t, step) && s' == Apply(s, t, step)
  }

  /** The call of `publish` for `index` has yet to store. */
  predicate Owes(s: State, t: nat, index: nat) {
    t < |s.threads| && (s.threads[t] == Publishing(index) || s.threads[t] == Storing(index))
  }

  lemma StepAt(trace: seq<State>, n: nat, threads: nat, k: nat) returns (t: nat, step: Step)
    requires IsRun(trace, n, threads) && k + 1 < |trace|
    ensures Inv(trace[k]) && Moves(trace[k], t, step, trace[k + 1])
  {
    RunKeeps(trace, n, threads, k);
    hide Inv, Enabled, Apply;
    t, step :| Enabled(trace[k], t, step) && trace[k + 1] == Apply(trace[k], t, step);
  }

  predicate Executed(s: State, index: nat) {
    index < |s.executed| && s.executed[index]
  }

  lemma PublisherStarts(s: State, t: nat, index: nat, s': State)
    requires Moves(s, t, Publish(index), s')
    ensures Owes(s', t, index)
  {
  }

  lemma PublisherGoesOn(s: State, u: nat, step: Step, s': State, t: nat, index: nat)
    requires Inv(s) && Moves(s, u, step, s') && (Executed(s, index) || Owes(s, t, index))
    ensures Executed(s', index) || Owes(s', t, index)
  {
    StepKeeps(s, u, step);
    assert t < |s.threads| ==> ThreadOk(s, s.threads[t]);
  }

  /** A published index is executed by the time `publish` returns, whichever way it returns. */
  lemma {:induction false} PublishedIsExecuted(
    trace: seq<State>, n: nat, threads: nat, p: nat, q: nat, t: nat, index: nat)
    requires IsRun(trace, n, threads) && p < q < |trace| && Moves(trace[p], t, Publish(index), trace[p + 1])
    ensures Executed(trace[q], index) || Owes(trace[q], t, index)
    decreases q
  {
    hide *;
    if p + 1 < q {
      PublishedIsExecuted(trace, n, threads, p, q - 1, t, index);
      var u, step := StepAt(trace, n, threads, q - 1);
      PublisherGoesOn(trace[q - 1], u, step, trace[q], t, index);
    } else {
      PublisherStarts(trace[p], t, index, trace[q]);
    }
  }

  /** The call of `current` that loaded the frontier at `f` is still at work on it. */
  predicate Helps(s: State, t: nat, f: nat) {
    && t < |s.threads|
    && match s.threads[t]
       case Helping(loaded) => loaded == f
       case Scanning(start, _) => start == f
       case Raising(start, end) => start == f < end
       case _ => false
  }

  lemma HelperStarts(s: State, t: nat, s': State)
    requires Moves(s, t, Current, s') && Executed(s, s.frontier)
    ensures Helps(s', t, s.frontier) && Executed(s', s.frontier)
  {
  }

  lemma HelperGoesOn(s: State, u: nat, step: Step, s': State, t: nat, f: nat)
    requires Inv(s) && Moves(s, u, step, s') && Executed(s, f) && (f < s.frontier || Helps(s, t, f))
    ensures Executed(s', f) && (f < s'.frontier || Helps(s', t, f))
  {
    StepKeeps(s, u, step);
    assert t < |s.threads| ==> ThreadOk(s, s.threads[t]);
  }

  /** A reader that finds the frontier at an executed index does not return before it has moved on. */
  lemma {:induction false} CurrentMovesOn(trace: seq<State>, n: nat, threads: nat, p: nat, q: nat, t: nat)
    requires IsRun(trace, n, threads) && p < q < |trace| && Moves(trace[p], t, Current, trace[p + 1])
    requires Executed(trace[p], trace[p].frontier)
    ensures Executed(trace[q], trace[p].frontier)
    ensures trace[p].frontier < trace[q].frontier || Helps(trace[q], t, trace[p].frontier)
    decreases q
  {
    hide *;
    if p + 1 < q {
      CurrentMovesOn(trace, n, threads, p, q - 1, t);
      var u, step := StepAt(trace, n, threads, q - 1);
      HelperGoesOn(trace[q - 1], u, step, trace[q], t, trace[p].frontier);
    } else {
      HelperStarts(trace[p], t, trace[q]);
    }
  }
}
