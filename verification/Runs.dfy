/**
 Runs of an arbitrary deterministic transition system: what holds at every moment of a run, and
 sums along it. Nondeterminism (which message arrives, which sender gives up) is in the events.
 */
module Runs {

  function Run<S, E>(step: (S, E) -> S, s: S, es: seq<E>): S
    decreases |es|
  {
    if es == [] then s else Run(step, step(s, es[0]), es[1..])
  }

  /** The sum of `gain` over the steps of the run. */
  function Sum<S, E>(step: (S, E) -> S, gain: (S, E) -> int, s: S, es: seq<E>): int
    decreases |es|
  {
    if es == [] then 0 else gain(s, es[0]) + Sum(step, gain, step(s, es[0]), es[1..])
  }

  /** `ok` holds before, between and after the steps. */
  predicate Always<S, E>(step: (S, E) -> S, ok: S -> bool, s: S, es: seq<E>)
    decreases |es|
  {
    ok(s) && (es != [] ==> Always(step, ok, step(s, es[0]), es[1..]))
  }

  /** `ok` holds of every step taken. */
  predicate EachStep<S, E>(step: (S, E) -> S, ok: (S, E) -> bool, s: S, es: seq<E>)
    decreases |es|
  {
    es != [] ==> ok(s, es[0]) && EachStep(step, ok, step(s, es[0]), es[1..])
  }

  lemma {:induction false} Invariant<S(!new), E(!new)>(step: (S, E) -> S, inv: S -> bool, s: S, es: seq<E>)
    requires forall t: S, e: E :: inv(t) ==> inv(step(t, e))
    requires inv(s)
    ensures inv(Run(step, s, es))
    decreases |es|
  {
    if es != [] {
      Invariant(step, inv, step(s, es[0]), es[1..]);
    }
  }

  /** A level that changes by `rate * up - down` in every step changes by the sums over the run. */
  lemma {:induction false} Balance<S(!new), E(!new)>(
    step: (S, E) -> S, inv: S -> bool, ok: S -> bool,
    level: S -> int, rate: int, up: (S, E) -> int, down: (S, E) -> int, s: S, es: seq<E>)
    requires forall t: S, e: E :: inv(t) ==> inv(step(t, e))
    requires forall t: S, e: E :: inv(t) && ok(t) && ok(step(t, e)) ==>
               down(t, e) + level(step(t, e)) == level(t) + rate * up(t, e)
    requires inv(s) && Always(step, ok, s, es)
    ensures Sum(step, down, s, es) + level(Run(step, s, es)) == level(s) + rate * Sum(step, up, s, es)
    decreases |es|
  {
    if es != [] {
      var t := step(s, es[0]);
      Balance(step, inv, ok, level, rate, up, down, t, es[1..]);
      var x, y := up(s, es[0]), Sum(step, up, t, es[1..]);
      assert rate * (x + y) == rate * x + rate * y;
    }
  }

  /** A potential that pays for `cost` in every step pays for the whole run. */
  lemma {:induction false} Potential<S(!new), E(!new)>(
    step: (S, E) -> S, inv: S -> bool, ok: S -> bool, allowed: (S, E) -> bool,
    potential: S -> int, cost: (S, E) -> int, s: S, es: seq<E>)
    requires forall t: S, e: E :: inv(t) ==> inv(step(t, e))
    requires forall t: S, e: E :: inv(t) && ok(t) && ok(step(t, e)) && allowed(t, e) ==>
               cost(t, e) + potential(step(t, e)) <= potential(t)
    requires inv(s) && Always(step, ok, s, es) && EachStep(step, allowed, s, es)
    ensures Sum(step, cost, s, es) + potential(Run(step, s, es)) <= potential(s)
    decreases |es|
  {
    if es != [] {
      Potential(step, inv, ok, allowed, potential, cost, step(s, es[0]), es[1..]);
    }
  }

  lemma {:induction false} AlwaysLast<S, E>(step: (S, E) -> S, ok: S -> bool, s: S, es: seq<E>)
    requires Always(step, ok, s, es)
    ensures ok(s) && ok(Run(step, s, es))
    decreases |es|
  {
    if es != [] {
      AlwaysLast(step, ok, step(s, es[0]), es[1..]);
    }
  }

  lemma {:induction false} RunSnoc<S, E>(step: (S, E) -> S, s: S, es: seq<E>, e: E)
    ensures Run(step, s, es + [e]) == step(Run(step, s, es), e)
    decreases |es|
  {
    if es == [] {
      assert [e][1..] == [];
      assert es + [e] == [e];
    } else {
      RunSnoc(step, step(s, es[0]), es[1..], e);
      assert (es + [e])[1..] == es[1..] + [e];
    }
  }

  lemma {:induction false} RunAppend<S, E>(step: (S, E) -> S, s: S, a: seq<E>, b: seq<E>)
    ensures Run(step, s, a + b) == Run(step, Run(step, s, a), b)
    decreases |a|
  {
    if a == [] {
      assert a + b == b;
    } else {
      RunAppend(step, step(s, a[0]), a[1..], b);
      assert (a + b)[1..] == a[1..] + b;
    }
  }

  lemma RunCons<S, E>(step: (S, E) -> S, s: S, e: E, es: seq<E>)
    ensures Run(step, s, [e] + es) == Run(step, step(s, e), es)
  {
    assert ([e] + es)[1..] == es;
  }

  /** The same for runs whose steps are restricted. */
  lemma {:induction false} InvariantWhere<S(!new), E(!new)>(
    step: (S, E) -> S, inv: S -> bool, allowed: (S, E) -> bool, s: S, es: seq<E>)
    requires forall t: S, e: E :: inv(t) && allowed(t, e) ==> inv(step(t, e))
    requires inv(s) && EachStep(step, allowed, s, es)
    ensures inv(Run(step, s, es))
    decreases |es|
  {
    if es != [] {
      InvariantWhere(step, inv, allowed, step(s, es[0]), es[1..]);
    }
  }
}
