/** Whole-effect scenarios: what a host observes through the public
    operations of the effect. */
module Scenarios {
  import opened Signal
  import opened Randomizer
  import opened DelayStage
  import opened Topology
  import opened Routing
  import opened DisperseEffect

  /** Initialised with seed 1, then asked for seed 2: the effect still holds
      seed 1, because the seed setter never stores its argument. */
  method SeedArgumentIgnored(rng: Randomizer, tuning: Tuning, respond: Response, init: Defaults)
    returns (stored: int)
    ensures stored == 1
  {
    var d := new Disperse(rng, tuning, respond, init);
    d.Initialize(48000.0, 1);
    d.SetRandomSeed(2);
    stored := d.seed;
  }

  /** The same sequence with the corrected seed setter: seed 2 is stored. */
  method SeedArgumentStored(rng: Randomizer, tuning: Tuning, respond: Response, init: Defaults)
    returns (stored: int)
    ensures stored == 2
  {
    var d := new Disperse(rng, tuning, respond, init);
    d.Initialize(48000.0, 1);
    d.SetRandomSeedStored(2);
    stored := d.seed;
  }

  /** Mix 0 bypasses every branch: whatever the arrangement and whatever the
      stages do, the output is the input. */
  method DryMixBypasses(rng: Randomizer, tuning: Tuning, respond: Response, init: Defaults,
                        arrangement: seq<int>, x: StereoFloat)
    returns (out: StereoFloat)
    ensures out == x
  {
    var d := new Disperse(rng, tuning, respond, init);
    d.Initialize(48000.0, 1);
    d.SetVoiceArrangement(arrangement);
    d.SetMix(0.0);
    out := d.Process(x);
  }

  /** Arrangement [1, 1], identity stages, mix 1: the input comes out twice
      over, so (1, 0) comes out as (2, 0). */
  method TwoIdentityBranchesSum(rng: Randomizer, tuning: Tuning, init: Defaults, x: StereoFloat)
    returns (out: StereoFloat)
    ensures out == Add(x, x)
  {
    var d := new Disperse(rng, tuning, LastInput, init);
    d.Initialize(48000.0, 1);
    d.SetVoiceArrangement([1, 1]);
    d.SetMix(1.0);
    ghost var grid := d.delays;
    out := d.Process(x);
    TwoIdentityBranches(grid, x);
  }

  /** Initialise, identity stages, mix 1: the single stage passes the input
      through, so the effect outputs its input. */
  method SingleBranchPassesThrough(rng: Randomizer, tuning: Tuning, init: Defaults, x: StereoFloat)
    returns (out: StereoFloat)
    ensures out == x
  {
    var d := new Disperse(rng, tuning, LastInput, init);
    d.Initialize(48000.0, 1);
    d.SetMix(1.0);
    ghost var grid := d.delays;
    out := d.Process(x);
    SingleIdentityBranch(grid, x);
  }

  /** Arrangement [0] is not rejected: its branch has no stages, so with mix 1
      the dry input reaches the output through the wet sum, whatever the
      stages would compute. */
  method EmptyBranchPassesDry(rng: Randomizer, tuning: Tuning, respond: Response, init: Defaults, x: StereoFloat)
    returns (out: StereoFloat)
    ensures out == x
  {
    var d := new Disperse(rng, tuning, respond, init);
    d.Initialize(48000.0, 1);
    d.SetVoiceArrangement([0]);
    assert d.delays == [[]] by {
      assert |d.delays| == 1 && |d.delays[0]| == StageCount(0) == 0;
    }
    d.SetMix(1.0);
    ghost var grid := d.delays;
    assert Wet(grid, x, respond).wet == x by {
      EmptyBranchesWet(grid, x, respond);
      assert Times(1, x) == x;
    }
    out := d.Process(x);
  }
}
