/** The easing curves of src/core/count/index.ts and src/core/scrollFadeIn/index.ts,
    over reals. Count's table holds the first five; ScrollFadeIn adds EaseInOutCubic.
    A caller may also pass its own curve. */
module Easing {
  import opened Common

  datatype Ease =
    | Linear
    | EaseInQuad
    | EaseOutQuad
    | EaseInOutQuad
    | EaseOutCubic
    | EaseInOutCubic
    | Custom(curve: real -> real)

  function Cube(x: real): real { x * x * x }

  function Apply(e: Ease, t: real): real {
    match e
    case Linear => t
    case EaseInQuad => t * t
    case EaseOutQuad => t * (2.0 - t)
    case EaseInOutQuad => if t < 0.5 then 2.0 * t * t else -1.0 + (4.0 - 2.0 * t) * t
    // `--t * t * t + 1` decrements t first, so all three factors are t - 1
    case EaseOutCubic => Cube(t - 1.0) + 1.0
    case EaseInOutCubic => if t < 0.5 then 4.0 * Cube(t) else 1.0 - Cube(-2.0 * t + 2.0) / 2.0
    case Custom(f) => f(t)
  }

  /** One of the named curves of the library's tables. */
  predicate BuiltIn(e: Ease) { !e.Custom? }

  /** One of the five curves of Count's table. */
  predicate InCountTable(e: Ease) { BuiltIn(e) && !e.EaseInOutCubic? }

  lemma MulMono(a: real, b: real, c: real, d: real)
    requires 0.0 <= a <= b && 0.0 <= c <= d
    ensures a * c <= b * d
  {
    assert a * c <= b * c;
    assert b * c <= b * d;
  }

  lemma CubeMonoNonNeg(a: real, b: real)
    requires 0.0 <= a <= b
    ensures 0.0 <= Cube(a) <= Cube(b)
  {
    MulMono(a, b, a, b);
    MulMono(a * a, b * b, a, b);
  }

  lemma CubeMono(a: real, b: real)
    requires a <= b
    ensures Cube(a) <= Cube(b)
  {
    if 0.0 <= a {
      CubeMonoNonNeg(a, b);
    } else if b <= 0.0 {
      CubeMonoNonNeg(-b, -a);
      assert Cube(-b) == -Cube(b) && Cube(-a) == -Cube(a);
    } else {
      CubeMonoNonNeg(0.0, -a);
      CubeMonoNonNeg(0.0, b);
      assert Cube(-a) == -Cube(a);
    }
  }

  /** Every named curve starts at 0 and ends at 1. */
  lemma EndpointsFixed(e: Ease)
    requires BuiltIn(e)
    ensures Apply(e, 0.0) == 0.0 && Apply(e, 1.0) == 1.0
  {
  }

  /** Every named curve is non-decreasing on [0, 1]. */
  lemma Monotone(e: Ease, s: real, t: real)
    requires BuiltIn(e) && 0.0 <= s <= t <= 1.0
    ensures Apply(e, s) <= Apply(e, t)
  {
    match e
    case Linear =>
    case EaseInQuad => MulMono(s, t, s, t);
    case EaseOutQuad =>
      MulMono(1.0 - t, 1.0 - s, 1.0 - t, 1.0 - s);
      assert Apply(e, s) == 1.0 - (1.0 - s) * (1.0 - s);
      assert Apply(e, t) == 1.0 - (1.0 - t) * (1.0 - t);
    case EaseInOutQuad =>
      if t < 0.5 {
        MulMono(s, t, s, t);
      } else if s < 0.5 {
        MulMono(s, 0.5, s, 0.5);
        MulMono(1.0 - t, 0.5, 1.0 - t, 0.5);
        assert Apply(e, s) == 2.0 * (s * s) <= 0.5;
        assert Apply(e, t) == 1.0 - 2.0 * ((1.0 - t) * (1.0 - t)) >= 0.5;
      } else {
        MulMono(1.0 - t, 1.0 - s, 1.0 - t, 1.0 - s);
        assert Apply(e, s) == 1.0 - 2.0 * (1.0 - s) * (1.0 - s);
        assert Apply(e, t) == 1.0 - 2.0 * (1.0 - t) * (1.0 - t);
      }
    case EaseOutCubic => CubeMono(s - 1.0, t - 1.0);
    case EaseInOutCubic =>
      if t < 0.5 {
        CubeMono(s, t);
      } else if s < 0.5 {
        CubeMonoNonNeg(s, 0.5);
        CubeMonoNonNeg(-2.0 * t + 2.0, 1.0);
      } else {
        CubeMono(-2.0 * t + 2.0, -2.0 * s + 2.0);
      }
  }

  /** Every named curve maps [0, 1] into [0, 1]. */
  lemma Bounded(e: Ease, t: real)
    requires BuiltIn(e) && 0.0 <= t <= 1.0
    ensures 0.0 <= Apply(e, t) <= 1.0
  {
    Monotone(e, 0.0, t);
    Monotone(e, t, 1.0);
    EndpointsFixed(e);
  }

  /** `Math.min(elapsed / duration, 1)`. */
  function Progress(elapsed: real, duration: real): real
    requires duration > 0.0
  {
    Min(elapsed / duration, 1.0)
  }

  /** Progress stays in [0, 1] and is 1 exactly when the duration has elapsed. */
  lemma ProgressRange(elapsed: real, duration: real)
    requires duration > 0.0 && elapsed >= 0.0
    ensures 0.0 <= Progress(elapsed, duration) <= 1.0
    ensures Progress(elapsed, duration) == 1.0 <==> elapsed >= duration
  {
    if elapsed < duration {
      assert elapsed / duration < 1.0;
    } else {
      assert elapsed / duration >= 1.0;
    }
  }

  /** Progress never decreases as time goes on. */
  lemma ProgressMono(e1: real, e2: real, duration: real)
    requires duration > 0.0 && e1 <= e2
    ensures Progress(e1, duration) <= Progress(e2, duration)
  {
    DivMono(e1, e2, duration);
  }

  lemma DivMono(a: real, b: real, d: real)
    requires a <= b && d > 0.0
    ensures a / d <= b / d
  {
    assert b / d - a / d == (b - a) / d;
  }
}
