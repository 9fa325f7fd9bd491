/**
 The control flow of an `async` body that awaits opaque calls one after
 another inside a single `try`: each awaited call either completes or throws,
 and a throw skips every later statement of the block.
 */
module Exec {

  /** One awaited call: the action it performs, and whether it throws. */
  datatype Step<A> = Step(action: A, throws: bool)

  /** The effect of running a block: the actions it performed, in order, and
      whether an exception is propagating out of it. */
  datatype Effect<A> = Effect(trace: seq<A>, threw: bool)

  /** Statements that cannot throw. */
  function Done<A>(trace: seq<A>): Effect<A>
  {
    Effect(trace, false)
  }

  /** `throw new Error(...)`: no action, an exception. */
  function Throw<A>(): Effect<A>
  {
    Effect([], true)
  }

  /** `await call()`: the call is made, and it may throw. */
  function Await<A>(step: Step<A>): Effect<A>
  {
    Effect([step.action], step.throws)
  }

  /** `first; rest`: `rest` runs only when `first` completed. */
  function Then<A>(first: Effect<A>, rest: Effect<A>): Effect<A>
  {
    if first.threw then first else Effect(first.trace + rest.trace, rest.threw)
  }

  /** `try { body } catch { handler }`: the handler runs only after a throw. */
  function Catch<A>(body: Effect<A>, handler: Effect<A>): Effect<A>
  {
    if body.threw then Effect(body.trace + handler.trace, handler.threw) else body
  }

  /** The actions of a list of steps, in order. */
  function Actions<A>(steps: seq<Step<A>>): seq<A>
  {
    seq(|steps|, i requires 0 <= i < |steps| => steps[i].action)
  }

  /** No step of the list throws. */
  predicate NoThrow<A>(steps: seq<Step<A>>)
  {
    forall i :: 0 <= i < |steps| ==> !steps[i].throws
  }

  /** Step `k` is the first step of the list that throws. */
  predicate FirstThrow<A>(steps: seq<Step<A>>, k: int)
  {
    0 <= k < |steps| && steps[k].throws && NoThrow(steps[..k])
  }

  /**
   A straight-line block written out in advance: the awaited calls it makes
   if none of them throws, and whether it throws by itself after the last one.
   */
  datatype Plan<A> = Plan(steps: seq<Step<A>>, throwsAfter: bool)

  /** Await each step in turn. */
  function Sequence<A>(steps: seq<Step<A>>): Effect<A>
  {
    if |steps| == 0 then Done([]) else Then(Await(steps[0]), Sequence(steps[1..]))
  }

  /** Run a planned block. */
  function Perform<A>(plan: Plan<A>): Effect<A>
  {
    Then(Sequence(plan.steps), if plan.throwsAfter then Throw() else Done([]))
  }

  /** Sequencing is associative. */
  lemma ThenAssociative<A>(a: Effect<A>, b: Effect<A>, c: Effect<A>)
    ensures Then(Then(a, b), c) == Then(a, Then(b, c))
  {

  }

  /** Sequencing with an empty block that completes changes nothing. */
  lemma ThenDone<A>(a: Effect<A>)
    ensures Then(a, Done([])) == a
  {

  }

  /** Running a list is awaiting its first step, then running the rest. */
  lemma SequenceCons<A>(s: Step<A>, steps: seq<Step<A>>)
    ensures Sequence([s] + steps) == Then(Await(s), Sequence(steps))
  {

  }

  /** Running two lists one after the other is running their concatenation. */
  lemma {:induction false} SequenceAppend<A>(p: seq<Step<A>>, q: seq<Step<A>>)
    ensures Sequence(p + q) == Then(Sequence(p), Sequence(q))
  {
    if |p| == 0 {
      assert p + q == q;
    } else {
      assert (p + q)[0] == p[0];
      assert (p + q)[1..] == p[1..] + q;
      SequenceAppend(p[1..], q);
      ThenAssociative(Await(p[0]), Sequence(p[1..]), Sequence(q));
    }
  }

  /**
   A list of awaited calls performs exactly its steps up to and including the
   first one that throws, and throws exactly when one of them does.
   */
  lemma {:induction false} SequenceStopsAtFirstThrow<A>(steps: seq<Step<A>>)
    ensures NoThrow(steps) ==> Sequence(steps) == Done(Actions(steps))
    ensures !NoThrow(steps) ==>
      var n := |Sequence(steps).trace|;
      && Sequence(steps).threw
      && FirstThrow(steps, n - 1)
      && Sequence(steps).trace == Actions(steps[..n])
  {
    if |steps| > 0 {
      var rest := steps[1..];
      SequenceStopsAtFirstThrow(rest);
      if steps[0].throws {
        assert steps[..0] == [];
        assert Actions(steps[..1]) == [steps[0].action];
      } else {
        var r := Sequence(rest);
        assert NoThrow(steps) <==> NoThrow(rest) by {
          forall i | 0 <= i < |rest| ensures rest[i] == steps[i + 1] { }
        }
        if NoThrow(rest) {
          assert [steps[0].action] + Actions(rest) == Actions(steps);
        } else {
          var m := |r.trace|;
          assert steps[..m + 1] == [steps[0]] + rest[..m];
          assert [steps[0].action] + Actions(rest[..m]) == Actions(steps[..m + 1]);
          assert steps[..m] == [steps[0]] + rest[..m - 1];
          assert NoThrow(steps[..m]) by {
            assert NoThrow(rest[..m - 1]);
          }
        }
      }
    }
  }

  /**
   A planned block performs its steps up to the first one that throws; it
   throws when a step does or when it throws after completing them all; and
   what it performs is always a prefix of the plan.
   */
  lemma PerformStopsAtFirstThrow<A>(plan: Plan<A>)
    ensures Perform(plan).threw <==> !NoThrow(plan.steps) || plan.throwsAfter
    ensures NoThrow(plan.steps) ==> Perform(plan).trace == Actions(plan.steps)
    ensures !NoThrow(plan.steps) ==>
      var n := |Perform(plan).trace|;
      FirstThrow(plan.steps, n - 1) && Perform(plan).trace == Actions(plan.steps[..n])
    ensures Perform(plan).trace <= Actions(plan.steps)
  {
    SequenceStopsAtFirstThrow(plan.steps);
    if !NoThrow(plan.steps) {
      var n := |Perform(plan).trace|;
      assert Actions(plan.steps[..n]) <= Actions(plan.steps);
    }
  }
}
