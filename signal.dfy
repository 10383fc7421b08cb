/** Stereo samples, channel-wise sums and the dry/wet cross-fade of the effect. */
module Signal {

  /** One stereo sample (left and right channel). */
  datatype StereoFloat = StereoFloat(L: real, R: real)

  const Silence := StereoFloat(0.0, 0.0)

  /** Channel-wise sum of two samples. */
  function Add(a: StereoFloat, b: StereoFloat): StereoFloat
  {
    StereoFloat(a.L + b.L, a.R + b.R)
  }

  /** The channel-wise sum of `n` copies of `x`. */
  function Times(n: nat, x: StereoFloat): StereoFloat
  {
    if n == 0 then Silence else Add(Times(n - 1, x), x)
  }

  /** `v` lies between `a` and `b`, in whichever order they come. */
  predicate Between(v: real, a: real, b: real)
  {
    (a <= v <= b) || (b <= v <= a)
  }

  /** The output of the effect: `wet * mix + dry * (1 - mix)`, per channel.
      Mix 0 is the dry input, mix 1 the wet sum, and any mix in [0, 1]
      lands between the two on each channel. */
  function Mix(wet: StereoFloat, dry: StereoFloat, mix: real): (out: StereoFloat)
    ensures mix == 0.0 ==> out == dry
    ensures mix == 1.0 ==> out == wet
    ensures 0.0 <= mix <= 1.0 ==> Between(out.L, wet.L, dry.L) && Between(out.R, wet.R, dry.R)
  {
    CrossFadeBetween(wet.L, dry.L, mix);
    CrossFadeBetween(wet.R, dry.R, mix);
    StereoFloat(wet.L * mix + dry.L * (1.0 - mix), wet.R * mix + dry.R * (1.0 - mix))
  }

  /** One channel of the cross-fade stays between its two ends. */
  lemma CrossFadeBetween(w: real, d: real, m: real)
    ensures 0.0 <= m <= 1.0 ==> Between(w * m + d * (1.0 - m), w, d)
  {
    if 0.0 <= m <= 1.0 {
      assert w * m + d * (1.0 - m) == d + m * (w - d);
      if d <= w {
        NonNegProduct(m, w - d);
        NonNegProduct(1.0 - m, w - d);
      } else {
        NonNegProduct(m, d - w);
        NonNegProduct(1.0 - m, d - w);
      }
    }
  }

  lemma NonNegProduct(a: real, b: real)
    requires 0.0 <= a && 0.0 <= b
    ensures 0.0 <= a * b
  {
  }
}
