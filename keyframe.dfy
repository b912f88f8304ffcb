/**
 * KeyFrame (api/.../animation/timeline/KeyFrame.java): an immutable sample of
 * an animation timeline. `time()`, `value()` and `interpolator()` are the
 * datatype's destructors; the interpolator type `Interpolator<T>` is opaque
 * here, the type parameter I, and a null interpolator is None.
 */
module KeyFrames {
  import opened Wrappers

  /** Java's `int`. */
  newtype Int32 = x: int | -0x8000_0000 <= x < 0x8000_0000

  datatype KeyFrame<T, I> = KeyFrame(time: Int32, value: T, interpolator: Option<I>) {

    /** `interpolatorOr(fallback)`: the keyframe's own interpolator if it has one, else the fallback. */
    function InterpolatorOr(fallback: I): (r: I)
      ensures interpolator.Some? ==> r == interpolator.value
      ensures interpolator.None? ==> r == fallback
    {
      if interpolator.None? then fallback else interpolator.value
    }
  }

  /** With an own interpolator, the fallback argument has no influence on the result. */
  lemma OwnInterpolatorIgnoresFallback<T, I>(k: KeyFrame<T, I>, f: I, g: I)
    requires k.interpolator.Some?
    ensures k.InterpolatorOr(f) == k.InterpolatorOr(g)
  {
  }

  /** The fallback is returned exactly when there is no own interpolator, or the own one is that same value. */
  lemma InterpolatorOrIsFallback<T, I>(k: KeyFrame<T, I>, f: I)
    ensures k.InterpolatorOr(f) == f <==> k.interpolator.None? || k.interpolator.value == f
  {
  }
}
