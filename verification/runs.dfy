/** Runs of a step machine, whatever its states and steps. */
module Runs {

  function Run<S, T>(next: (S, T) -> S, s: S, steps: seq<T>): S
    decreases |steps|
  {
    if steps == [] then s else Run(next, next(s, steps[0]), steps[1..])
  }

  /** Every step of the run obeys the rule in the state it is taken in. */
  ghost predicate Obeys<S, T>(next: (S, T) -> S, s: S, steps: seq<T>, rule: (S, T) -> bool)
    decreases |steps|
  {
    steps == [] || (rule(s, steps[0]) && Obeys(next, next(s, steps[0]), steps[1..], rule))
  }

  lemma {:induction false} RunThen<S, T>(next: (S, T) -> S, s: S, steps: seq<T>, step: T)
    ensures Run(next, s, steps + [step]) == next(Run(next, s, steps), step)
    decreases |steps|
  {
    if steps == [] {
      assert [step][1..] == [];
    } else {
      assert (steps + [step])[1..] == steps[1..] + [step];
      RunThen(next, next(s, steps[0]), steps[1..], step);
    }
  }

  /** One more step of a scripted run. */
  lemma Go<S, T>(next: (S, T) -> S, start: S, steps: seq<T>, s: S, step: T) returns (more: seq<T>, s': S)
    requires Run(next, start, steps) == s
    ensures Run(next, start, more) == s' == next(s, step)
  {
    RunThen(next, start, steps, step);
    more, s' := steps + [step], next(s, step);
  }

  lemma {:induction false} ObeysThen<S, T>(next: (S, T) -> S, s: S, steps: seq<T>, step: T, rule: (S, T) -> bool)
    requires Obeys(next, s, steps, rule) && rule(Run(next, s, steps), step)
    ensures Obeys(next, s, steps + [step], rule)
    decreases |steps|
  {
    if steps == [] {
      assert [step][1..] == [];
    } else {
      assert (steps + [step])[1..] == steps[1..] + [step];
      ObeysThen(next, next(s, steps[0]), steps[1..], step, rule);
    }
  }

  /** Some run that obeys the rule leads from s to t. */
  ghost predicate Reaches<S, T(!new)>(next: (S, T) -> S, s: S, t: S, rule: (S, T) -> bool) {
    exists steps: seq<T> :: Obeys(next, s, steps, rule) && Run(next, s, steps) == t
  }

  lemma ReachesSelf<S, T(!new)>(next: (S, T) -> S, s: S, rule: (S, T) -> bool)
    ensures Reaches(next, s, s, rule)
  {
    var none: seq<T> := [];
    assert Obeys(next, s, none, rule) && Run(next, s, none) == s;
  }

  lemma ReachesThen<S, T(!new)>(next: (S, T) -> S, s: S, t: S, rule: (S, T) -> bool, step: T)
    requires Reaches(next, s, t, rule) && rule(t, step)
    ensures Reaches(next, s, next(t, step), rule)
  {
    var steps: seq<T> :| Obeys(next, s, steps, rule) && Run(next, s, steps) == t;
    ObeysThen(next, s, steps, step, rule);
    RunThen(next, s, steps, step);
  }

  lemma {:induction false} RunsJoin<S, T>(next: (S, T) -> S, s: S, a: seq<T>, b: seq<T>, rule: (S, T) -> bool)
    requires Obeys(next, s, a, rule) && Obeys(next, Run(next, s, a), b, rule)
    ensures Obeys(next, s, a + b, rule) && Run(next, s, a + b) == Run(next, Run(next, s, a), b)
    decreases |a|
  {
    if a == [] {
      assert a + b == b;
    } else {
      assert (a + b)[1..] == a[1..] + b;
      RunsJoin(next, next(s, a[0]), a[1..], b, rule);
    }
  }
}
