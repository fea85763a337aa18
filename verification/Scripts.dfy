/**
Runs of steps: scripts of durable effects that a crash may cut short, and interleavings
of steps that are taken only when they are enabled.
*/
module Scripts {
  function RunAll<S, E>(step: (S, E) -> S, s: S, es: seq<E>): S
    decreases |es|
  {
    if es == [] then s else RunAll(step, step(s, es[0]), es[1..])
  }

  /** `p` holds before, between and after these effects: at every point where a crash can leave the state. */
  ghost predicate Always<S, E>(step: (S, E) -> S, p: S -> bool, s: S, es: seq<E>)
    decreases |es|
  {
    p(s) && (es != [] ==> Always(step, p, step(s, es[0]), es[1..]))
  }

  lemma RunOne<S, E>(step: (S, E) -> S, s: S, e: E)
    ensures RunAll(step, s, []) == s
    ensures RunAll(step, s, [e]) == step(s, e)
  {
    assert [e][1..] == [];
  }

  lemma AlwaysOne<S, E>(step: (S, E) -> S, p: S -> bool, s: S, e: E)
    requires p(s)
    ensures Always(step, p, s, [])
    ensures p(step(s, e)) ==> Always(step, p, s, [e])
  {
    assert [e][1..] == [];
  }

  lemma {:induction false} RunAppend<S, E>(step: (S, E) -> S, s: S, a: seq<E>, b: seq<E>)
    ensures RunAll(step, s, a + b) == RunAll(step, RunAll(step, s, a), b)
    decreases |a|
  {
    if a == [] {
      assert a + b == b;
    } else {
      assert (a + b)[1..] == a[1..] + b;
      RunAppend(step, step(s, a[0]), a[1..], b);
    }
  }

  /** Two scripts in a row: the second starts where the first ends. */
  lemma {:induction false} Sequence<S, E>(step: (S, E) -> S, p: S -> bool, s: S, a: seq<E>, b: seq<E>)
    requires Always(step, p, s, a) && Always(step, p, RunAll(step, s, a), b)
    ensures Always(step, p, s, a + b) && RunAll(step, s, a + b) == RunAll(step, RunAll(step, s, a), b)
    decreases |a|
  {
    if a == [] {
      assert a + b == b;
    } else {
      assert (a + b)[1..] == a[1..] + b;
      Sequence(step, p, step(s, a[0]), a[1..], b);
    }
  }

  lemma {:induction false} AtEveryCrash<S, E>(step: (S, E) -> S, p: S -> bool, s: S, es: seq<E>, k: nat)
    requires Always(step, p, s, es) && k <= |es|
    ensures p(RunAll(step, s, es[..k]))
    decreases k
  {
    if k > 0 {
      assert es[..k][1..] == es[1..][..k - 1];
      AtEveryCrash(step, p, step(s, es[0]), es[1..], k - 1);
    }
  }

  // ----- Interleaved steps -----

  /** Every step is enabled when it is its turn. */
  predicate Possible<S, E>(enabled: (S, E) -> bool, step: (S, E) -> S, s: S, es: seq<E>)
    decreases |es|
  {
    es == [] || (enabled(s, es[0]) && Possible(enabled, step, step(s, es[0]), es[1..]))
  }

  /** What every enabled step keeps holds at the end of every run. */
  lemma {:induction false} RunKeeps<S(!new), E(!new)>(enabled: (S, E) -> bool, step: (S, E) -> S, p: S -> bool, s: S, es: seq<E>)
    requires p(s) && Possible(enabled, step, s, es)
    requires forall x, e | p(x) && enabled(x, e) :: p(step(x, e))
    ensures p(RunAll(step, s, es))
    decreases |es|
  {
    if es != [] { RunKeeps(enabled, step, p, step(s, es[0]), es[1..]); }
  }

  lemma PossibleOne<S, E>(enabled: (S, E) -> bool, step: (S, E) -> S, s: S, e: E, rest: seq<E>)
    requires enabled(s, e) && Possible(enabled, step, step(s, e), rest)
    ensures Possible(enabled, step, s, [e] + rest) && RunAll(step, s, [e] + rest) == RunAll(step, step(s, e), rest)
  {
    assert ([e] + rest)[1..] == rest;
  }

  lemma {:induction false} PossibleAppend<S, E>(enabled: (S, E) -> bool, step: (S, E) -> S, s: S, a: seq<E>, b: seq<E>)
    requires Possible(enabled, step, s, a) && Possible(enabled, step, RunAll(step, s, a), b)
    ensures Possible(enabled, step, s, a + b) && RunAll(step, s, a + b) == RunAll(step, RunAll(step, s, a), b)
    decreases |a|
  {
    if a == [] {
      assert a + b == b;
    } else {
      PossibleAppend(enabled, step, step(s, a[0]), a[1..], b);
      assert (a + b)[1..] == a[1..] + b;
    }
  }

  // ----- A machine that stops after a number of effects -----

  /** What survives of `es` when `budget` more effects happen. */
  function Survives<E>(budget: nat, es: seq<E>): seq<E> {
    if budget < |es| then es[..budget] else es
  }

  /** From `s`, exactly the surviving part of `es` has led to `v`; the machine still runs if that was all of it. */
  ghost predicate Ran<S(!new), E(!new)>(
    step: (S, E) -> S, s: S, budget: nat, es: seq<E>, v: S, left: nat, alive: bool)
  {
    && v == RunAll(step, s, Survives(budget, es))
    && alive == (budget >= |es|)
    && (alive ==> left == budget - |es|)
  }

  lemma RanThen<S(!new), E(!new)>(
    step: (S, E) -> S, s: S, budget: nat, a: seq<E>, v: S, left: nat, b: seq<E>, w: S, rest: nat, alive: bool)
    requires Ran(step, s, budget, a, v, left, true) && Ran(step, v, left, b, w, rest, alive)
    ensures Ran(step, s, budget, a + b, w, rest, alive)
  {
    assert Survives(budget, a + b) == a + Survives(left, b);
    RunAppend(step, s, a, Survives(left, b));
  }

  lemma RanDead<S(!new), E(!new)>(step: (S, E) -> S, s: S, budget: nat, a: seq<E>, v: S, left: nat, b: seq<E>)
    requires Ran(step, s, budget, a, v, left, false)
    ensures Ran(step, s, budget, a + b, v, left, false)
  {
    assert (a + b)[..budget] == a[..budget];
  }
}
