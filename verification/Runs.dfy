/** Runs of a step system: finite sequences of enabled actions. */
module Runs {
  import opened Wrappers

  type StepSystem<!S, !A> = (S, A) -> Option<S>

  /** The state after a run, or None when some action of it is not enabled. */
  function RunFrom<S, A>(step: StepSystem<S, A>, s: S, run: seq<A>): Option<S>
    decreases |run|
  {
    if run == [] then Some(s)
    else match step(s, run[0])
      case None => None
      case Some(t) => RunFrom(step, t, run[1..])
  }

  ghost predicate Reaches<S, A(!new)>(step: StepSystem<S, A>, s: S, t: S) {
    exists run :: RunFrom(step, s, run) == Some(t)
  }

  lemma Stays<S, A(!new)>(step: StepSystem<S, A>, s: S)
    ensures Reaches(step, s, s)
  {
    var run: seq<A> := [];
    assert RunFrom(step, s, run) == Some(s);
  }

  lemma {:induction false} RunsConcat<S, A>(step: StepSystem<S, A>, s: S, a: seq<A>, b: seq<A>)
    requires RunFrom(step, s, a).Some?
    ensures RunFrom(step, s, a + b) == RunFrom(step, RunFrom(step, s, a).value, b)
    decreases |a|
  {
    if a == [] {
      assert a + b == b;
    } else {
      assert (a + b)[1..] == a[1..] + b;
      RunsConcat(step, step(s, a[0]).value, a[1..], b);
    }
  }

  /** One more enabled action. */
  lemma ReachNext<S, A(!new)>(step: StepSystem<S, A>, s: S, t: S, a: A, u: S)
    requires Reaches(step, s, t) && step(t, a) == Some(u)
    ensures Reaches(step, s, u)
  {
    var run :| RunFrom(step, s, run) == Some(t);
    RunsConcat(step, s, run, [a]);
    assert [a][1..] == [] && RunFrom(step, t, [a]) == Some(u);
  }

  lemma RunsJoin<S, A(!new)>(step: StepSystem<S, A>, s: S, t: S, u: S)
    requires Reaches(step, s, t) && Reaches(step, t, u)
    ensures Reaches(step, s, u)
  {
    var a :| RunFrom(step, s, a) == Some(t);
    var b :| RunFrom(step, t, b) == Some(u);
    RunsConcat(step, s, a, b);
  }
}
