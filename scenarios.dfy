/** Callers of the evaluator: the guarantees they can rely on. */
module Scenarios {
  import opened Wrappers
  import opened Keyframes
  import opened KeyframeLookup
  import opened Animation

  /**
   * Calling setProgress twice with the same argument notifies the
   * listeners at most once: the second call is a no-op.
   */
  method SetProgressTwice<K, A>(anim: KeyframeAnimation<K, A>, p: real)
    requires anim.Valid()
    modifies anim
    ensures anim.notified == old(anim.notified) || anim.notified == old(anim.notified) + anim.listeners
  {
    var _ := anim.SetProgress(p);
    ghost var afterFirst := anim.notified;
    var _ := anim.SetProgress(p);
    assert anim.notified == afterFirst;
  }

  /**
   * After a setProgress, feeding the stored progress back in is a no-op,
   * provided the keyframes' range meets [0, 1].
   */
  method ReapplyProgress<K, A>(anim: KeyframeAnimation<K, A>, p: real)
    requires anim.Valid()
    requires 0.0 <= anim.endProgress && anim.startDelayProgress <= 1.0
    modifies anim
    ensures anim.progress == Clamp(p, anim.startDelayProgress, anim.endProgress)
    ensures anim.notified == old(anim.notified) || anim.notified == old(anim.notified) + anim.listeners
  {
    var _ := anim.SetProgress(p);
    ghost var afterFirst := anim.notified;
    ClampIdempotent(p, anim.startDelayProgress, anim.endProgress);
    var r := anim.SetProgress(anim.GetProgress());
    assert r == Pass && anim.notified == afterFirst;
  }

  /** The half-open range test [startProgress, endProgress). */
  function HalfOpen(kf: Keyframe<real>, p: real): bool
  {
    kf.startProgress <= p < kf.endProgress
  }

  /** A linear interpolator over the keyframe's range. */
  function Linear(kf: Keyframe<real>, p: real): real
  {
    if kf.endProgress == kf.startProgress then 0.0
    else (p - kf.startProgress) / (kf.endProgress - kf.startProgress)
  }

  /** A scalar resolver: a linear blend from the start value to the end value. */
  function Blend(kf: Keyframe<real>, factor: real): real
  {
    match kf.endValue
    case None => kf.startValue
    case Some(end) => kf.startValue + factor * (end - kf.startValue)
  }

  /** Two linear segments, 0 to 10 over [0, 0.5) and 10 to 20 over [0.5, 1). */
  function Segments(): seq<Keyframe<real>>
  {
    [Keyframe(0.0, Some(10.0), 0.0, 0.5, false, 0), Keyframe(10.0, Some(20.0), 0.5, 1.0, false, 0)]
  }

  /** Inside the first segment the value is the linear blend; listeners run in order. */
  method TwoSegmentsFirst()
  {
    var kfs := Segments();
    var anim := new KeyframeAnimation<real, real>(kfs, HalfOpen, Linear, Blend);
    anim.AddUpdateListener(1);
    anim.AddUpdateListener(2);

    assert Lookup(kfs, HalfOpen, None, 0.25) == Ok(Found(0, None));
    var r := anim.SetProgress(0.25);
    assert r == Pass && anim.notified == [1, 2];
    var v := anim.GetValue();
    assert v == Ok(5.0);
  }

  /** Inside the second segment, reached by the scan, the value is the linear blend. */
  method TwoSegmentsSecond()
  {
    var kfs := Segments();
    var anim := new KeyframeAnimation<real, real>(kfs, HalfOpen, Linear, Blend);
    anim.AddUpdateListener(1);

    assert ScanFrom(kfs, HalfOpen, 0.75, 1) == 1;
    assert Lookup(kfs, HalfOpen, None, 0.75) == Ok(Found(1, Some(1)));
    var r := anim.SetProgress(0.75);
    var v := anim.GetValue();
    assert v == Ok(15.0);
    assert anim.notified == [1];
  }

  /** Out-of-range progress is clamped to 1 and 0; repeating a call notifies nobody. */
  method TwoSegmentsClamped()
  {
    var kfs := Segments();
    var anim := new KeyframeAnimation<real, real>(kfs, HalfOpen, Linear, Blend);
    anim.AddUpdateListener(1);

    assert ScanFrom(kfs, HalfOpen, 1.0, 1) == 1;
    assert Lookup(kfs, HalfOpen, None, 1.0) == Ok(Found(1, Some(1)));
    var r := anim.SetProgress(1.5);
    assert anim.GetProgress() == 1.0;
    var v := anim.GetValue();
    assert v == Ok(20.0);

    assert Lookup(kfs, HalfOpen, Some(1), 0.0) == Ok(Found(0, Some(1)));
    r := anim.SetProgress(-1.0);
    assert anim.GetProgress() == 0.0;
    v := anim.GetValue();
    assert v == Ok(0.0);
    assert anim.notified == [1, 1];

    r := anim.SetProgress(-1.0);
    assert anim.notified == [1, 1];
  }

  /** A lookup on an empty keyframe list fails; setProgress then notifies nobody. */
  method EmptyKeyframes()
  {
    var anim := new KeyframeAnimation<real, real>([], HalfOpen, Linear, Blend);
    anim.AddUpdateListener(7);
    var r := anim.SetProgress(0.5);
    assert r.Fail? && anim.GetProgress() == 0.5 && anim.notified == [];
    var v := anim.GetValue();
    assert v.Err?;
  }

  /**
   * Progress before a first keyframe that starts after 0 is stored as 0,
   * not as the start, so a linear interpolator sees a point before the
   * keyframe and the value is extrapolated below the start value.
   */
  method BeforeFirstStart()
  {
    var kfs := [Keyframe(0.0, Some(10.0), 0.2, 0.6, false, 0)];
    var anim := new KeyframeAnimation<real, real>(kfs, HalfOpen, Linear, Blend);
    var r := anim.SetProgress(0.5);
    r := anim.SetProgress(0.1);
    assert anim.GetProgress() == 0.0;
    var v := anim.GetValue();
    assert v == Ok(-5.0);
  }

  /**
   * Progress past the last keyframe's end is stored as 1, not as the end,
   * so when the last keyframe ends before 1 a linear interpolator sees a
   * point past the keyframe and the value overshoots the end value.
   */
  method AfterLastEnd()
  {
    var kfs := [Keyframe(0.0, Some(10.0), 0.0, 0.8, false, 0)];
    var anim := new KeyframeAnimation<real, real>(kfs, HalfOpen, Linear, Blend);
    var r := anim.SetProgress(0.9);
    assert anim.GetProgress() == 1.0;
    var v := anim.GetValue();
    assert v == Ok(12.5);
  }
}
