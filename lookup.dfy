/**
 * The keyframe lookup of BaseKeyframeAnimation.getCurrentKeyframe as a
 * function of the keyframe list, the lookup cache and the progress. The
 * cache is the index of the cached keyframe in the (immutable) list.
 */
module KeyframeLookup {
  import opened Wrappers
  import opened Keyframes

  /** The keyframe found (by index) and the cache left behind. */
  datatype Found = Found(index: nat, cache: Option<nat>)

  const NoKeyframes: Error := IllegalState("There are no keyframes")

  /** A cache either is empty or points into the list. */
  predicate CacheIn<K>(kfs: seq<Keyframe<K>>, cache: Option<nat>)
  {
    cache.Some? ==> cache.value < |kfs|
  }

  /**
   * The scan loop entered with `keyframe == kfs[i - 1]`: it stops at the
   * first keyframe from i - 1 on that contains p, or at the last keyframe.
   */
  function ScanFrom<K>(kfs: seq<Keyframe<K>>, contains: Contains<K>, p: real, i: nat): (r: nat)
    requires 1 <= i <= |kfs|
    ensures i - 1 <= r < |kfs|
    ensures contains(kfs[r], p) || r == |kfs| - 1
    ensures forall j :: i - 1 <= j < r ==> !contains(kfs[j], p)
    decreases |kfs| - i
  {
    if contains(kfs[i - 1], p) || i == |kfs| then i - 1
    else ScanFrom(kfs, contains, p, i + 1)
  }

  /**
   * The lookup: an error on an empty list; the cached keyframe when it
   * contains p; the first keyframe (which becomes the cache) when p is
   * before the first start; the first keyframe (cache untouched) when it
   * contains p; otherwise the scan's result, which becomes the cache.
   */
  function Lookup<K>(kfs: seq<Keyframe<K>>, contains: Contains<K>, cache: Option<nat>, p: real): (r: Result<Found>)
    requires CacheIn(kfs, cache)
    ensures r.Ok? <==> |kfs| > 0
    ensures r.Err? ==> r.error == NoKeyframes
    ensures r.Ok? ==> r.value.index < |kfs| && CacheIn(kfs, r.value.cache)
    ensures r.Ok? ==> r.value.cache == cache || r.value.cache == Some(r.value.index)
    ensures r.Ok? ==>
      contains(kfs[r.value.index], p) || r.value.index == |kfs| - 1 || p < kfs[0].startProgress
    ensures |kfs| > 0 && cache.Some? && contains(kfs[cache.value], p) ==>
      r == Ok(Found(cache.value, cache))
    ensures |kfs| > 0 && !(cache.Some? && contains(kfs[cache.value], p)) && p < kfs[0].startProgress ==>
      r == Ok(Found(0, Some(0)))
    ensures |kfs| > 0 && !(cache.Some? && contains(kfs[cache.value], p)) &&
            kfs[0].startProgress <= p && contains(kfs[0], p) ==>
      r == Ok(Found(0, cache))
  {
    if |kfs| == 0 then Err(NoKeyframes)
    else if cache.Some? && contains(kfs[cache.value], p) then Ok(Found(cache.value, cache))
    else if p < kfs[0].startProgress then Ok(Found(0, Some(0)))
    else if contains(kfs[0], p) then Ok(Found(0, cache))
    else
      var k := ScanFrom(kfs, contains, p, 1);
      Ok(Found(k, Some(k)))
  }

  /** Whether a lookup gets past its early returns and runs the scan loop. */
  predicate Scans<K>(kfs: seq<Keyframe<K>>, contains: Contains<K>, cache: Option<nat>, p: real)
    requires CacheIn(kfs, cache)
  {
    |kfs| > 0 && !(cache.Some? && contains(kfs[cache.value], p)) &&
    kfs[0].startProgress <= p && !contains(kfs[0], p)
  }

  /**
   * Once p is at or after the first start and neither the cache nor the
   * first keyframe claims it, the result is the lowest-indexed keyframe
   * that contains p, or the last keyframe when none does.
   */
  lemma LookupScans<K>(kfs: seq<Keyframe<K>>, contains: Contains<K>, cache: Option<nat>, p: real)
    requires CacheIn(kfs, cache) && Scans(kfs, contains, cache, p)
    ensures var f := Lookup(kfs, contains, cache, p).value;
      f.index >= 1 || |kfs| == 1
    ensures var f := Lookup(kfs, contains, cache, p).value;
      f.cache == Some(f.index) &&
      (contains(kfs[f.index], p) || f.index == |kfs| - 1) &&
      (forall j :: 0 <= j < f.index ==> !contains(kfs[j], p))
  {
  }

  /**
   * Looking up again from the cache a lookup left behind, at the same
   * progress, finds the same keyframe and leaves the same cache.
   */
  lemma LookupIdempotent<K>(kfs: seq<Keyframe<K>>, contains: Contains<K>, cache: Option<nat>, p: real)
    requires CacheIn(kfs, cache) && |kfs| > 0
    ensures var f := Lookup(kfs, contains, cache, p).value;
      Lookup(kfs, contains, f.cache, p) == Ok(f)
  {
  }

  /**
   * The reference definition of the keyframe that applies at p: the first
   * one when p is before the first start, otherwise the lowest-indexed one
   * containing p, or the last one when none does.
   */
  ghost predicate IsActive<K>(kfs: seq<Keyframe<K>>, contains: Contains<K>, p: real, k: nat)
  {
    k < |kfs| &&
    if p < kfs[0].startProgress then k == 0
    else
      (contains(kfs[k], p) || k == |kfs| - 1) &&
      forall j :: 0 <= j < k ==> !contains(kfs[j], p)
  }

  /** At most one index is the active one. */
  lemma ActiveUnique<K>(kfs: seq<Keyframe<K>>, contains: Contains<K>, p: real, k1: nat, k2: nat)
    requires IsActive(kfs, contains, p, k1) && IsActive(kfs, contains, p, k2)
    ensures k1 == k2
  {
  }

  /**
   * For a well-formed keyframe list the lookup finds the active keyframe,
   * whatever the cache holds.
   */
  lemma LookupIsActive<K>(kfs: seq<Keyframe<K>>, contains: Contains<K>, cache: Option<nat>, p: real)
    requires WellFormed(kfs, contains)
    requires CacheIn(kfs, cache) && |kfs| > 0
    ensures IsActive(kfs, contains, p, Lookup(kfs, contains, cache, p).value.index)
  {
    if cache.Some? && contains(kfs[cache.value], p) {
      var c := cache.value;
      ContainedAfterStart(kfs, contains, c, p);
      forall j | 0 <= j < c
        ensures !contains(kfs[j], p)
      {
        if contains(kfs[j], p) {
          AtMostOneContains(kfs, contains, j, c, p);
        }
      }
    } else if p < kfs[0].startProgress {
    } else if contains(kfs[0], p) {
    } else {
      LookupScans(kfs, contains, cache, p);
    }
  }

  /**
   * For a well-formed keyframe list the cache is only a shortcut: any two
   * caches give the same keyframe.
   */
  lemma LookupCacheIrrelevant<K>(kfs: seq<Keyframe<K>>, contains: Contains<K>, c1: Option<nat>, c2: Option<nat>, p: real)
    requires WellFormed(kfs, contains)
    requires CacheIn(kfs, c1) && CacheIn(kfs, c2) && |kfs| > 0
    ensures Lookup(kfs, contains, c1, p).value.index == Lookup(kfs, contains, c2, p).value.index
  {
    LookupIsActive(kfs, contains, c1, p);
    LookupIsActive(kfs, contains, c2, p);
    ActiveUnique(kfs, contains, p, Lookup(kfs, contains, c1, p).value.index, Lookup(kfs, contains, c2, p).value.index);
  }
}
