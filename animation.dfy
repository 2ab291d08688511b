/**
 * BaseKeyframeAnimation: a stateful evaluator over an immutable keyframe
 * list. It clamps and stores the progress, looks up the current keyframe
 * through a one-entry cache, memoises the resolved value and notifies its
 * listeners in registration order.
 */
module Animation {
  import opened Wrappers
  import opened Keyframes
  import opened KeyframeLookup

  /** A registered listener, identified by a handle. */
  type ListenerId = nat

  /**
   * The clamp of setProgress: below the start becomes 0 (not the start
   * itself), above the end becomes 1, anything else is kept.
   */
  function Clamp(p: real, start: real, end: real): (r: real)
    ensures p < start ==> r == 0.0
    ensures start <= p && p > end ==> r == 1.0
    ensures start <= p <= end ==> r == p
  {
    if p < start then 0.0
    else if p > end then 1.0
    else p
  }

  /**
   * Once the range lies within [0, 1], clamping a clamped value changes
   * nothing, so setProgress(getProgress()) right after a change is a no-op.
   */
  lemma ClampIdempotent(p: real, start: real, end: real)
    requires 0.0 <= end && start <= 1.0
    ensures Clamp(Clamp(p, start, end), start, end) == Clamp(p, start, end)
  {
  }

  class KeyframeAnimation<K, A> {
    /** The keyframe list, never changed after construction. */
    const keyframes: seq<Keyframe<K>>
    /** Keyframe.containsProgress. */
    const containsProgress: Contains<K>
    /**
     * The keyframe's interpolator applied to the progress into the
     * keyframe divided by its duration.
     */
    const interpolation: (Keyframe<K>, real) -> real
    /** The abstract getValue(keyframe, keyframeProgress) of a concrete animation. */
    const resolve: (Keyframe<K>, real) -> A
    const startDelayProgress: real
    const endProgress: real
    const firstFrame: Option<Keyframe<K>>
    const frameSize: nat

    var listeners: seq<ListenerId>
    var isDiscrete: bool
    var progress: real
    /** Index of the cached keyframe, if any. */
    var cachedKeyframe: Option<nat>
    /** The memoised value; None when it must be recomputed. */
    var currentValue: Option<A>
    /** Every listener notification so far, in order. */
    ghost var notified: seq<ListenerId>

    ghost predicate Valid()
      reads this
    {
      frameSize == |keyframes| &&
      startDelayProgress == (if |keyframes| == 0 then 0.0 else keyframes[0].startProgress) &&
      endProgress == (if |keyframes| == 0 then 1.0 else keyframes[|keyframes| - 1].endProgress) &&
      firstFrame == (if |keyframes| == 0 then None else Some(keyframes[0])) &&
      CacheIn(keyframes, cachedKeyframe)
    }

    constructor (keyframes: seq<Keyframe<K>>, containsProgress: Contains<K>,
                 interpolation: (Keyframe<K>, real) -> real, resolve: (Keyframe<K>, real) -> A)
      ensures Valid()
      ensures this.keyframes == keyframes && this.containsProgress == containsProgress
      ensures this.interpolation == interpolation && this.resolve == resolve
      ensures startDelayProgress == (if |keyframes| == 0 then 0.0 else keyframes[0].startProgress)
      ensures endProgress == (if |keyframes| == 0 then 1.0 else keyframes[|keyframes| - 1].endProgress)
      ensures frameSize == |keyframes|
      ensures listeners == [] && !isDiscrete && progress == 0.0
      ensures cachedKeyframe == None && currentValue == None && notified == []
    {
      this.keyframes := keyframes;
      this.containsProgress := containsProgress;
      this.interpolation := interpolation;
      this.resolve := resolve;
      startDelayProgress := if |keyframes| == 0 then 0.0 else keyframes[0].startProgress;
      firstFrame := if |keyframes| == 0 then None else Some(keyframes[0]);
      endProgress := if |keyframes| == 0 then 1.0 else keyframes[|keyframes| - 1].endProgress;
      frameSize := |keyframes|;
      listeners := [];
      isDiscrete := false;
      progress := 0.0;
      cachedKeyframe := None;
      currentValue := None;
      notified := [];
    }

    method SetIsDiscrete()
      requires Valid()
      modifies this`isDiscrete
      ensures Valid()
      ensures isDiscrete
    {
      isDiscrete := true;
    }

    method AddUpdateListener(listener: ListenerId)
      requires Valid()
      modifies this`listeners
      ensures Valid()
      ensures listeners == old(listeners) + [listener]
    {
      listeners := listeners + [listener];
    }

    function GetProgress(): (r: real)
      reads this
      ensures r == progress
    {
      progress
    }

    /**
     * getCurrentKeyframeProgress: the local factor within a keyframe at the
     * stored progress. It is exactly 0 in discrete mode or for a static
     * keyframe, otherwise what the keyframe's interpolator gives.
     */
    function CurrentKeyframeProgress(kf: Keyframe<K>): (r: real)
      reads this
      ensures isDiscrete || kf.isStatic ==> r == 0.0
      ensures !isDiscrete && !kf.isStatic ==> r == interpolation(kf, progress)
    {
      if isDiscrete then 0.0
      else if kf.isStatic then 0.0
      else interpolation(kf, progress)
    }

    /** The value getValue() computes for the keyframe at index i. */
    function ValueOf(i: nat): A
      reads this
      requires i < |keyframes|
    {
      resolve(keyframes[i], CurrentKeyframeProgress(keyframes[i]))
    }

    /**
     * Memo freshness: when present, the memo is the value a fresh
     * computation from the current progress and cache would give.
     * GetValue and a changing SetProgress establish it; SetIsDiscrete,
     * like the source, does not clear the memo and can break it.
     */
    ghost predicate MemoFresh()
      reads this
      requires Valid()
    {
      currentValue.Some? ==>
        |keyframes| > 0 &&
        currentValue.value == ValueOf(Lookup(keyframes, containsProgress, cachedKeyframe, progress).value.index)
    }

    /**
     * For a well-formed keyframe list a fresh memo is the value at the
     * active keyframe (the first one before the first start), whatever
     * keyframe the cache holds.
     */
    lemma MemoAtActiveKeyframe(k: nat)
      requires Valid() && MemoFresh() && currentValue.Some?
      requires WellFormed(keyframes, containsProgress)
      requires IsActive(keyframes, containsProgress, progress, k)
      ensures currentValue.value == ValueOf(k)
    {
      LookupIsActive(keyframes, containsProgress, cachedKeyframe, progress);
      ActiveUnique(keyframes, containsProgress, progress, k,
                   Lookup(keyframes, containsProgress, cachedKeyframe, progress).value.index);
    }

    /**
     * getCurrentKeyframe. The ghost `steps` counts the scan loop's
     * iterations: none on the early returns, otherwise the index found,
     * at most frameSize - 1.
     */
    method CurrentKeyframe() returns (r: Result<Keyframe<K>>, ghost steps: nat)
      requires Valid()
      modifies this`cachedKeyframe
      ensures Valid()
      ensures match Lookup(keyframes, containsProgress, old(cachedKeyframe), progress)
        case Err(e) => r == Err(e) && cachedKeyframe == old(cachedKeyframe) && steps == 0
        case Ok(f) =>
          r == Ok(keyframes[f.index]) && cachedKeyframe == f.cache && steps < frameSize &&
          steps == (if Scans(keyframes, containsProgress, old(cachedKeyframe), progress) then f.index else 0)
    {
      steps := 0;
      if |keyframes| == 0 {
        r := Err(NoKeyframes);
        return;
      }
      if cachedKeyframe.Some? && containsProgress(keyframes[cachedKeyframe.value], progress) {
        r := Ok(keyframes[cachedKeyframe.value]);
        return;
      }
      var keyframe := firstFrame.value;
      if progress < startDelayProgress {
        cachedKeyframe := Some(0);
        r := Ok(keyframe);
        return;
      }
      if firstFrame.Some? && containsProgress(firstFrame.value, progress) {
        r := Ok(firstFrame.value);
        return;
      }
      var i := 1;
      while !containsProgress(keyframe, progress) && i < frameSize
        invariant 1 <= i <= frameSize
        invariant keyframe == keyframes[i - 1]
        invariant ScanFrom(keyframes, containsProgress, progress, i) == ScanFrom(keyframes, containsProgress, progress, 1)
        invariant steps == i - 1
        decreases frameSize - i
      {
        keyframe := keyframes[i];
        i := i + 1;
        steps := steps + 1;
      }
      cachedKeyframe := Some(i - 1);
      r := Ok(keyframe);
    }

    /**
     * getValue(): the memo when present, with nothing else touched;
     * otherwise the keyframe lookup, the resolved value for it, stored.
     */
    method GetValue() returns (r: Result<A>)
      requires Valid()
      modifies this`currentValue, this`cachedKeyframe
      ensures Valid()
      ensures old(currentValue).Some? ==>
        r == Ok(old(currentValue).value) && currentValue == old(currentValue) &&
        cachedKeyframe == old(cachedKeyframe)
      ensures old(currentValue).None? ==>
        match Lookup(keyframes, containsProgress, old(cachedKeyframe), progress)
        case Err(e) => r == Err(e) && currentValue == None && cachedKeyframe == old(cachedKeyframe)
        case Ok(f) => r == Ok(ValueOf(f.index)) && currentValue == Some(ValueOf(f.index)) && cachedKeyframe == f.cache
      ensures old(currentValue).None? || old(MemoFresh()) ==> MemoFresh()
    {
      if currentValue.None? {
        ghost var before := cachedKeyframe;
        var currentFrame, _ := CurrentKeyframe();
        if currentFrame.Err? {
          return Err(currentFrame.error);
        }
        currentValue := Some(resolve(currentFrame.value, CurrentKeyframeProgress(currentFrame.value)));
        LookupIdempotent(keyframes, containsProgress, before, progress);
      }
      r := Ok(currentValue.value);
    }

    /**
     * setProgress: clamp; a no-op when the clamped value is the stored
     * progress; otherwise store it, drop the memo, recompute the value and
     * notify every listener once, in registration order. On an empty
     * keyframe list the recomputation fails after the progress is stored
     * and no listener is notified.
     */
    method SetProgress(p: real) returns (r: Outcome)
      requires Valid()
      modifies this`progress, this`currentValue, this`cachedKeyframe, this`notified
      ensures Valid()
      ensures Clamp(p, startDelayProgress, endProgress) == old(progress) ==>
        r == Pass && progress == old(progress) && currentValue == old(currentValue) &&
        cachedKeyframe == old(cachedKeyframe) && notified == old(notified)
      ensures Clamp(p, startDelayProgress, endProgress) != old(progress) ==>
        progress == Clamp(p, startDelayProgress, endProgress) && MemoFresh() &&
        match Lookup(keyframes, containsProgress, old(cachedKeyframe), progress)
        case Err(e) =>
          r == Fail(e) && currentValue == None && cachedKeyframe == old(cachedKeyframe) &&
          notified == old(notified)
        case Ok(f) =>
          r == Pass && currentValue == Some(ValueOf(f.index)) && cachedKeyframe == f.cache &&
          notified == old(notified) + listeners
    {
      var clamped := Clamp(p, startDelayProgress, endProgress);
      if clamped == progress {
        return Pass;
      }
      progress := clamped;
      currentValue := None;
      var value := GetValue();
      if value.Err? {
        return Fail(value.error);
      }
      var i := 0;
      while i < |listeners|
        invariant 0 <= i <= |listeners|
        invariant notified == old(notified) + listeners[..i]
        modifies this`notified
      {
        notified := notified + [listeners[i]];
        i := i + 1;
      }
      r := Pass;
    }
  }
}
