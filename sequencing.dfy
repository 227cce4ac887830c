/** The firmware's start, stop and init routines call a fixed list of fallible operations and
    stop at the first one that fails (`if (err) { return err; }`). This module gives that
    pattern one definition, which the worker methods are proved against. */
module Sequencing {

  /** One call of a sequence: the effect it has and the code it returns (0 is success). */
  datatype Step<E> = Step(effect: E, err: int)

  /** What running a sequence did: the effects of the calls made, in order, and the code
      the routine returns. */
  datatype Run<E> = Run(done: seq<E>, err: int)

  /** Runs `steps` in order, returning the first non-zero code and skipping every later
      step. The contract determines the run completely: every call made before the last one
      succeeded, the last one made is the one whose code is returned, and a zero result means
      that all calls were made and all succeeded. */
  function RunSteps<E>(steps: seq<Step<E>>): (r: Run<E>)
    ensures |r.done| <= |steps|
    ensures forall j :: 0 <= j < |r.done| ==> r.done[j] == steps[j].effect
    ensures forall j :: 0 <= j < |r.done| - 1 ==> steps[j].err == 0
    ensures r.err == 0 ==> |r.done| == |steps| && forall j :: 0 <= j < |steps| ==> steps[j].err == 0
    ensures r.err != 0 ==> 0 < |r.done| && steps[|r.done| - 1].err == r.err
  {
    if steps == [] then Run([], 0)
    else if steps[0].err != 0 then Run([steps[0].effect], steps[0].err)
    else
      var rest := RunSteps(steps[1..]);
      Run([steps[0].effect] + rest.done, rest.err)
  }

  /** The effects of all the steps, as if every call succeeded. */
  function Effects<E>(steps: seq<Step<E>>): (es: seq<E>)
    ensures |es| == |steps|
    ensures forall j :: 0 <= j < |steps| ==> es[j] == steps[j].effect
  {
    if steps == [] then [] else [steps[0].effect] + Effects(steps[1..])
  }

  /** A run makes a prefix of the calls, and it is the whole list exactly when it succeeds. */
  lemma {:induction false} RunIsPrefix<E>(steps: seq<Step<E>>)
    ensures RunSteps(steps).done == Effects(steps)[..|RunSteps(steps).done|]
    ensures RunSteps(steps).err == 0 ==> RunSteps(steps).done == Effects(steps)
  {
    var r := RunSteps(steps);
    var es := Effects(steps);
    assert |r.done| <= |es|;
    assert forall j :: 0 <= j < |r.done| ==> r.done[j] == es[..|r.done|][j];
  }

  /** Step `k` is performed if and only if every step before it succeeded. */
  lemma StepReachedIffEarlierSucceeded<E>(steps: seq<Step<E>>, k: nat)
    requires k < |steps|
    ensures k < |RunSteps(steps).done| <==> forall j :: 0 <= j < k ==> steps[j].err == 0
  {
  }

  /** When step `k` is the first to fail, the run makes exactly the first `k + 1` calls and
      returns that step's code. */
  lemma {:induction false} RunStopsAtFirstFailure<E>(steps: seq<Step<E>>, k: nat)
    requires k < |steps| && steps[k].err != 0
    requires forall j :: 0 <= j < k ==> steps[j].err == 0
    ensures RunSteps(steps) == Run(Effects(steps[..k + 1]), steps[k].err)
  {
    if k > 0 {
      assert steps[1..][..k] == steps[1..k + 1];
      RunStopsAtFirstFailure(steps[1..], k - 1);
      assert Effects(steps[..k + 1]) == [steps[0].effect] + Effects(steps[1..][..k]);
    }
  }

  /** When every step succeeds, the run makes every call and returns 0. */
  lemma {:induction false} RunAllSucceed<E>(steps: seq<Step<E>>)
    requires forall j :: 0 <= j < |steps| ==> steps[j].err == 0
    ensures RunSteps(steps) == Run(Effects(steps), 0)
  {
    if steps != [] {
      RunAllSucceed(steps[1..]);
      assert Effects(steps) == [steps[0].effect] + Effects(steps[1..]);
    }
  }

  /** The number of effects among `es` that satisfy `p`. */
  function Occurrences<E>(es: seq<E>, p: E -> bool): (n: nat)
    ensures n <= |es|
    ensures n == 0 <==> forall j :: 0 <= j < |es| ==> !p(es[j])
  {
    if es == [] then 0 else (if p(es[0]) then 1 else 0) + Occurrences(es[1..], p)
  }
}
