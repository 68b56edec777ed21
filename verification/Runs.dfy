/** Runs of a step function, and the induction principle for what every step keeps. */
module Runs {

  function Run<S, E>(step: (S, E) -> S, s: S, es: seq<E>): S
    decreases |es|
  {
    if es == [] then s else Run(step, step(s, es[0]), es[1..])
  }

  lemma {:induction false} RunInParts<S, E>(step: (S, E) -> S, s: S, first: seq<E>, rest: seq<E>)
    ensures Run(step, s, first + rest) == Run(step, Run(step, s, first), rest)
    decreases |first|
  {
    if first == [] {
      assert first + rest == rest;
    } else {
      assert (first + rest)[0] == first[0] && (first + rest)[1..] == first[1..] + rest;
      RunInParts(step, step(s, first[0]), first[1..], rest);
    }
  }

  lemma RunOfOne<S, E>(step: (S, E) -> S, s: S, a: E)
    ensures Run(step, s, [a]) == step(s, a)
  {
    assert Run(step, step(s, a), [a][1..]) == step(s, a);
  }

  lemma RunOfThree<S, E>(step: (S, E) -> S, s: S, a: E, b: E, c: E)
    ensures Run(step, s, [a, b, c]) == step(step(step(s, a), b), c)
  {
    RunOfOne(step, step(step(s, a), b), c);
    RunInParts(step, step(s, a), [b], [c]);
    RunOfOne(step, step(s, a), b);
    RunInParts(step, s, [a], [b, c]);
    RunOfOne(step, s, a);
    assert [a] + [b, c] == [a, b, c] && [b] + [c] == [b, c];
  }

  lemma RunOfFive<S, E>(step: (S, E) -> S, s: S, a: E, b: E, c: E, d: E, e: E)
    ensures Run(step, s, [a, b, c, d, e]) == step(step(step(step(step(s, a), b), c), d), e)
  {
    RunOfThree(step, s, a, b, c);
    RunInParts(step, s, [a, b, c], [d, e]);
    RunInParts(step, Run(step, s, [a, b, c]), [d], [e]);
    RunOfOne(step, Run(step, s, [a, b, c]), d);
    RunOfOne(step, step(Run(step, s, [a, b, c]), d), e);
    assert [a, b, c] + [d, e] == [a, b, c, d, e] && [d] + [e] == [d, e];
  }

  /** Every event is allowed in the state in which it happens. */
  predicate Allowed<S, E>(step: (S, E) -> S, allowed: (S, E) -> bool, s: S, es: seq<E>)
    decreases |es|
  {
    es == [] || (allowed(s, es[0]) && Allowed(step, allowed, step(s, es[0]), es[1..]))
  }

  ghost predicate Preserves<S(!new), E(!new)>(step: (S, E) -> S, allowed: (S, E) -> bool, inv: S -> bool) {
    forall s, e :: inv(s) && allowed(s, e) ==> inv(step(s, e))
  }

  lemma {:induction false} InvariantOfRun<S(!new), E(!new)>(step: (S, E) -> S, allowed: (S, E) -> bool, inv: S -> bool,
      s: S, es: seq<E>)
    requires Preserves(step, allowed, inv) && inv(s) && Allowed(step, allowed, s, es)
    ensures inv(Run(step, s, es))
    decreases |es|
  {
    if es != [] {
      InvariantOfRun(step, allowed, inv, step(s, es[0]), es[1..]);
    }
  }
}
