/** The deterministic randomizer: a reproducible draw in [-1, 1] for every
    (branch, stage, parameter kind) triple under a seed, and the scaled
    offset that the effect adds to a base value. */
module Randomizer {

  /** std::mt19937 keeps its seed modulo 2^32. */
  const GENERATOR_SEEDS: int := 0x1_0000_0000

  /** The three stage parameters that receive a random offset. */
  datatype ParamKind = FeedbackKind | TimeKind | PanKind

  /** One draw of std::uniform_real_distribution(-1, 1) from a generator
      seeded with the given value: deterministic, and never outside [-1, 1]. */
  type Uniform = f: int -> real | forall g :: -1.0 <= f(g) <= 1.0 witness (g: int) => 0.0

  /** The randomizer's two unseen collaborators: the coordinate hash
      (simpleParamHash) and the seeded uniform draw. */
  datatype Randomizer = Randomizer(paramHash: (int, int, ParamKind) -> int, uniform: Uniform) {

    /** The value the generator is seeded with: seed times the coordinate
        hash, reduced to the generator's 32-bit seed. A zero seed seeds
        every draw alike. */
    function GeneratorSeed(seed: int, p: int, s: int, kind: ParamKind): (g: int)
      ensures 0 <= g < GENERATOR_SEEDS
      ensures seed == 0 ==> g == 0
    {
      (seed * paramHash(p, s, kind)) % GENERATOR_SEEDS
    }

    /** getRandomUniform: one fresh draw for the coordinates; a pure function
        of the seed and the coordinates, always in [-1, 1]. */
    function Draw(seed: int, p: int, s: int, kind: ParamKind): (r: real)
      ensures -1.0 <= r <= 1.0
    {
      uniform(GeneratorSeed(seed, p, s, kind))
    }

    /** Under seed 0 every stage and every parameter kind gets one and the
        same draw. */
    lemma ZeroSeedSharesOneDraw(p: int, s: int, kind: ParamKind, p': int, s': int, kind': ParamKind)
      ensures Draw(0, p, s, kind) == Draw(0, p', s', kind')
    {
    }
  }

  /** The randomised offset: the draw scaled by a spread constant and a knob.
      A zero knob switches the randomisation off, and a draw in [-1, 1] never
      moves a value further than `maxSpread * |knob|`. */
  function Offset(draw: real, maxSpread: real, knob: real): (o: real)
    ensures knob == 0.0 ==> o == 0.0
    ensures -1.0 <= draw <= 1.0 && 0.0 <= maxSpread ==> Abs(o) <= maxSpread * Abs(knob)
  {
    if -1.0 <= draw <= 1.0 && 0.0 <= maxSpread then
      ScaledDrawBounded(draw, maxSpread, knob);
      draw * maxSpread * knob
    else
      draw * maxSpread * knob
  }

  function Abs(x: real): real
  {
    if x < 0.0 then -x else x
  }

  /** A draw in [-1, 1] times a non-negative spread and a knob has at most
      the magnitude `maxSpread * |knob|`. */
  lemma ScaledDrawBounded(draw: real, maxSpread: real, knob: real)
    requires -1.0 <= draw <= 1.0 && 0.0 <= maxSpread
    ensures Abs(draw * maxSpread * knob) <= maxSpread * Abs(knob)
  {
    var k := maxSpread * knob;
    assert draw * maxSpread * knob == draw * k;
    assert Abs(k) == maxSpread * Abs(knob) by {
      if knob < 0.0 {
        assert maxSpread * Abs(knob) == -k;
      }
    }
    UnitScale(draw, k);
  }

  /** Scaling by a factor in [-1, 1] never increases a magnitude. */
  lemma UnitScale(d: real, k: real)
    requires -1.0 <= d <= 1.0
    ensures -Abs(k) <= d * k <= Abs(k)
  {
    if k >= 0.0 {
      assert Abs(k) - d * k == (1.0 - d) * k;
      assert d * k + Abs(k) == (1.0 + d) * k;
    } else {
      assert Abs(k) - d * k == (1.0 + d) * -k;
      assert d * k + Abs(k) == (1.0 - d) * -k;
    }
  }

  /** The offset is proportional to its knob. */
  lemma OffsetScales(draw: real, maxSpread: real, knob: real, c: real)
    ensures Offset(draw, maxSpread, c * knob) == c * Offset(draw, maxSpread, knob)
  {
  }
}
