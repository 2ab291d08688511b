/** Option, Result and Outcome for the evaluator's optional state and its one error. */
module Wrappers {

  datatype Option<T> = None | Some(value: T)

  /** The only error of the core: a keyframe lookup on an empty keyframe list. */
  datatype Error = IllegalState(message: string)

  datatype Result<T> = Ok(value: T) | Err(error: Error)

  /** The outcome of a call that returns nothing but may fail. */
  datatype Outcome = Pass | Fail(error: Error)
}

/** The keyframe segments an animation is built from. */
module Keyframes {
  import opened Wrappers

  /**
   * One segment of an animation curve, immutable once built. Its values are
   * of the keyframe type K; `isStatic` marks a segment with nothing to
   * interpolate across; `interpolator` identifies the segment's easing
   * curve, so that two segments with different curves stay distinct.
   */
  datatype Keyframe<K> = Keyframe(
    startValue: K,
    endValue: Option<K>,
    startProgress: real,
    endProgress: real,
    isStatic: bool,
    interpolator: InterpolatorId)

  /** A handle for a keyframe's interpolator, whose behaviour is a parameter of the evaluator. */
  type InterpolatorId = nat

  /**
   * Keyframe.containsProgress: whether a segment claims a progress value.
   * Its definition is not part of this model, so it is a parameter.
   */
  type Contains<!K> = (Keyframe<K>, real) -> bool

  /**
   * What a well-built containment test satisfies: a segment of the list
   * only claims progress inside its half-open range [startProgress, endProgress).
   */
  ghost predicate ContainsWithinRange<K>(kfs: seq<Keyframe<K>>, contains: Contains<K>)
  {
    forall i, p: real :: 0 <= i < |kfs| && contains(kfs[i], p) ==>
      kfs[i].startProgress <= p < kfs[i].endProgress
  }

  /** Segments are ranges with start <= end, in order, adjacent or disjoint. */
  ghost predicate Ordered<K>(kfs: seq<Keyframe<K>>)
  {
    (forall i :: 0 <= i < |kfs| ==> kfs[i].startProgress <= kfs[i].endProgress) &&
    (forall i :: 0 <= i < |kfs| - 1 ==> kfs[i].endProgress <= kfs[i + 1].startProgress)
  }

  ghost predicate WellFormed<K>(kfs: seq<Keyframe<K>>, contains: Contains<K>)
  {
    Ordered(kfs) && ContainsWithinRange(kfs, contains)
  }

  /** In an ordered list every earlier segment ends before every later one starts. */
  lemma {:induction false} EndBeforeStart<K>(kfs: seq<Keyframe<K>>, j: nat, k: nat)
    requires Ordered(kfs)
    requires j < k < |kfs|
    ensures kfs[j].endProgress <= kfs[k].startProgress
  {
    if j < k - 1 {
      EndBeforeStart(kfs, j, k - 1);
      assert kfs[k - 1].startProgress <= kfs[k - 1].endProgress;
    }
  }

  /** No progress value is claimed by two segments of a well-formed list. */
  lemma AtMostOneContains<K>(kfs: seq<Keyframe<K>>, contains: Contains<K>, j: nat, k: nat, p: real)
    requires WellFormed(kfs, contains)
    requires j < k < |kfs|
    requires contains(kfs[j], p)
    ensures !contains(kfs[k], p)
  {
    EndBeforeStart(kfs, j, k);
  }

  /** Every progress value claimed by a segment lies at or after the first segment's start. */
  lemma ContainedAfterStart<K>(kfs: seq<Keyframe<K>>, contains: Contains<K>, k: nat, p: real)
    requires WellFormed(kfs, contains)
    requires k < |kfs|
    requires contains(kfs[k], p)
    ensures kfs[0].startProgress <= p
  {
    if k > 0 {
      EndBeforeStart(kfs, 0, k);
    }
  }
}
