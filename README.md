# Keyframe animation evaluator (lottie-android `BaseKeyframeAnimation`)

This project models and verifies the evaluator that sits under every
animatable property in Lottie for Android. `BaseKeyframeAnimation` has an
immutable list of keyframes and keeps five pieces of mutable state:

- the current progress;
- a one-entry cache of the keyframe that last contained the progress;
- a memoised resolved value;
- a discrete-mode flag;
- an ordered list of listeners.

`setProgress` clamps the incoming progress and ignores a value equal to
the stored one. On a real change it stores the value, recomputes the
resolved value at once and then notifies every listener in registration
order. The value is found in three steps. A lookup picks the keyframe:
the cache, then the first keyframe, then a scan from index 0. Next a local
factor is computed, which is 0 in discrete mode or for a static keyframe.
Finally an abstract per-type resolver turns the keyframe and the factor
into a value.

Files:

- `keyframes.dfy`: module `Wrappers` (`Option`, `Result`, `Outcome`, the
  `IllegalState` error) and module `Keyframes`. The second holds the
  keyframe datatype and the well-formedness of a keyframe list: segments
  are in order, and a segment only claims progress inside its own range.
- `lookup.dfy`: module `KeyframeLookup`. `Lookup` is the keyframe lookup
  as a function of the list, the cache and the progress. `ScanFrom` is
  its scan loop. `IsActive` is an independent reference definition of the
  keyframe that applies. The lemmas relate the three.
- `animation.dfy`: module `Animation`, which holds `Clamp` and the class
  `KeyframeAnimation`. The class has the source's fields, its operations
  as methods proved against `Lookup`, and the memo-freshness predicate
  `MemoFresh`.
- `scenarios.dfy`: module `Scenarios`, the callers. It proves that a
  repeated `setProgress` notifies at most once, and that feeding the
  stored progress back into `setProgress` is a no-op when the keyframes'
  range meets [0, 1]. It also checks, with verified assertions, concrete
  scenarios: two segments with a linear interpolator and a linear
  resolver, an empty keyframe list, a progress before a first keyframe
  that starts after 0, and a progress past a last keyframe that ends
  before 1.

Modelling choices:

- `Keyframe.containsProgress` is not part of this model. It is the
  constructor parameter `containsProgress`. The lemmas that need its usual
  meaning assume `WellFormed`: a segment claims only progress in
  `[startProgress, endProgress)`, and the segments are ordered.
- The interpolated factor for a non-discrete, non-static keyframe is the
  parameter `interpolation(keyframe, progress)`. In the source this is
  `interpolator.getInterpolation((progress - start) / duration)`. Each
  keyframe carries an `interpolator` handle, so keyframes with different
  easing curves can get different factors.
- The abstract `getValue(keyframe, keyframeProgress)` is the parameter
  `resolve`.
- Progress is a `real`.
- `cachedKeyframe` holds the index of the cached keyframe in the list. The
  list never changes, so an index names the same keyframe that the
  source's reference does.
- Listeners are ids. Each notification appends the listener's id to the
  ghost trace `notified`.
- `IllegalStateException` from an empty list is `Err(IllegalState(..))`.
  `setProgress` then returns `Fail`. By then it has already stored the
  progress and cleared the memo, and it has notified no listener, as in
  the source, where the exception escapes before the listener loop.
- The memo is `Option<A>`, so a resolver cannot return a value that reads
  as "no memo".

Observations about the source:

- Progress below the first keyframe's start is stored as 0, not as the
  start. When the first keyframe starts after 0, the interpolator
  therefore gets a point before the keyframe. With a linear interpolator
  the value is extrapolated (`Scenarios.BeforeFirstStart`) rather than
  held at the start value. The mirror case holds at the other end:
  progress above the last keyframe's end is stored as 1, not as the end,
  so when the last keyframe ends before 1 the value overshoots the end
  value (`Scenarios.AfterLastEnd`) rather than being held there.
- `setIsDiscrete` does not clear the memo. After a value has been computed
  with the flag off, `MemoFresh` can stop holding until the next progress
  change. No other operation breaks it: `GetValue` and a changing
  `SetProgress` establish it.
- A lookup whose progress stays in the cached keyframe, or falls in the
  first keyframe, returns without scanning. A lookup that leaves the
  cached keyframe scans again from index 0, and its scan takes as many
  steps as the index it finds (the `steps` ghost of `CurrentKeyframe`, at
  most `frameSize - 1`). A scrub that visits each of N segments once in
  order therefore costs O(N²) scan steps in total, not O(N).

## Model

| member | source | states |
|---|---|---|
| `Animation.KeyframeAnimation.constructor` | lottie/src/main/java/com/airbnb/lottie/BaseKeyframeAnimation.java:33-39 | startDelayProgress is the first keyframe's start or 0 for an empty list, endProgress the last keyframe's end or 1, frameSize the list length; progress 0, no cache, no memo, no listeners, not discrete |
| `Animation.KeyframeAnimation.SetIsDiscrete` | lottie/src/main/java/com/airbnb/lottie/BaseKeyframeAnimation.java:41-43 | sets the discrete flag and changes nothing else |
| `Animation.KeyframeAnimation.AddUpdateListener` | lottie/src/main/java/com/airbnb/lottie/BaseKeyframeAnimation.java:45-47 | appends the listener at the end of the list, keeping duplicates, and changes nothing else |
| `Animation.Clamp` | lottie/src/main/java/com/airbnb/lottie/BaseKeyframeAnimation.java:49-54 | progress below the start becomes 0 (not the start), above the end becomes 1, anything in between is kept |
| `Animation.ClampIdempotent` | lottie/src/main/java/com/airbnb/lottie/BaseKeyframeAnimation.java:49-58 | for a range meeting [0, 1], clamping an already clamped progress gives it back, so setProgress(getProgress()) right after a change meets the equality no-op |
| `Animation.KeyframeAnimation.SetProgress` | lottie/src/main/java/com/airbnb/lottie/BaseKeyframeAnimation.java:49-65 | equal clamped progress changes no field and notifies nobody; otherwise the clamped progress is stored and the memo is the resolver's value at the looked-up keyframe (fresh) with the cache the lookup leaves; every listener is notified once, in list order; on an empty list it fails after storing the progress, with the memo cleared and no notification |
| `KeyframeLookup.ScanFrom` | lottie/src/main/java/com/airbnb/lottie/BaseKeyframeAnimation.java:85-89 | the scan stops at the lowest-indexed keyframe from its start index on that contains the progress, or at the last keyframe; the result is an index of the list |
| `KeyframeLookup.Lookup` | lottie/src/main/java/com/airbnb/lottie/BaseKeyframeAnimation.java:68-91 | fails exactly on an empty list with the "no keyframes" error; a cached keyframe that contains the progress is returned with the cache unchanged; otherwise a progress before the first start returns the first keyframe and makes it the cache; otherwise a first keyframe that contains the progress is returned with the cache untouched; in every case the index is in the list, its keyframe contains the progress unless it is the last one or the progress is before the first start, and the cache left is either untouched or the result |
| `KeyframeLookup.LookupScans` | lottie/src/main/java/com/airbnb/lottie/BaseKeyframeAnimation.java:82-91 | past the early returns, the result is the lowest-indexed containing keyframe or the last one, and it becomes the cache |
| `KeyframeLookup.LookupIdempotent` | lottie/src/main/java/com/airbnb/lottie/BaseKeyframeAnimation.java:73-91 | a lookup from the cache a lookup left, at the same progress, returns the same keyframe and the same cache |
| `KeyframeLookup.LookupIsActive` | lottie/src/main/java/com/airbnb/lottie/BaseKeyframeAnimation.java:68-91 | for well-formed keyframes, whatever the cache holds, the lookup returns the reference active keyframe: the first before the first start, else the lowest containing one or the last |
| `KeyframeLookup.LookupCacheIrrelevant` | lottie/src/main/java/com/airbnb/lottie/BaseKeyframeAnimation.java:73-75 | for well-formed keyframes the cached-keyframe shortcut never changes the keyframe found |
| `Animation.KeyframeAnimation.CurrentKeyframe` | lottie/src/main/java/com/airbnb/lottie/BaseKeyframeAnimation.java:68-92 | the loop computes exactly the lookup's keyframe and new cache (error on an empty list, cache unchanged); the scan loop does not run on the early returns and otherwise runs as many times as the index found, at most frameSize - 1 |
| `Animation.KeyframeAnimation.CurrentKeyframeProgress` | lottie/src/main/java/com/airbnb/lottie/BaseKeyframeAnimation.java:98-109 | the local factor is exactly 0 in discrete mode or for a static keyframe, otherwise the keyframe's interpolated factor |
| `Animation.KeyframeAnimation.GetValue` | lottie/src/main/java/com/airbnb/lottie/BaseKeyframeAnimation.java:121-127 | with a memo present, returns it and touches neither the memo nor the cache; otherwise looks up, resolves, stores and returns the value (error on an empty list); the memo is fresh afterwards |
| `Animation.KeyframeAnimation.MemoAtActiveKeyframe` | lottie/src/main/java/com/airbnb/lottie/BaseKeyframeAnimation.java:121-127 | for well-formed keyframes a fresh memo is the resolver's value at the active keyframe, independent of the cache |
| `Animation.KeyframeAnimation.GetProgress` | lottie/src/main/java/com/airbnb/lottie/BaseKeyframeAnimation.java:129-131 | returns the stored progress and changes nothing |
| `Scenarios.SetProgressTwice` | lottie/src/main/java/com/airbnb/lottie/BaseKeyframeAnimation.java:56-64 | two setProgress calls with the same argument notify the listeners at most once in all |
| `Scenarios.ReapplyProgress` | lottie/src/main/java/com/airbnb/lottie/BaseKeyframeAnimation.java:49-64 | a setProgress followed by setProgress(getProgress()) stores the clamped progress and notifies the listeners at most once in all, when the keyframes' range meets [0, 1] |

## Left out

- Float arithmetic and the interpolator: `(progress - start) / durationProgress` and `interpolator.getInterpolation` are the given function `interpolation`. Float rounding, NaN and the float `==` on the stored progress are not modelled; progress is a real.
- Animation.KeyframeAnimation.CurrentKeyframeProgress: the non-zero factor is stated only as the given `interpolation` of keyframe and progress, because the interpolator and the division live in code that is not part of this model.
- Keyframe internals: `containsProgress`, `isStatic` and `durationProgress` come from the Keyframe class, which is not part of this model. The first is a parameter, the second a field, the third is folded into `interpolation`. The interpolator object is a handle (`interpolator`) on the keyframe; `interpolation` gives its behaviour.
- Concrete resolvers: the per-type `getValue(Keyframe, float)` implementations are not part of this model; the resolver is the given function `resolve`.
- Listener callbacks: their effects are not modelled, only the order of the calls. A listener that calls `setProgress` again or changes the listener list during notification is out of scope.
- `getStartDelayProgress` and `getEndProgress`: private getters of fields that are never reassigned. They are the constants `startDelayProgress` and `endProgress`.
- The `@FloatRange` and `@Nullable` annotations carry no behaviour.
