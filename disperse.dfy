/** The Disperse effect: delay stages arranged as parallel branches of serial
    chains, per-stage feedback, time and pan derived from global knobs plus a
    reproducible random offset, and a per-sample router that sums the
    branches and cross-fades the sum with the dry input. */
module DisperseEffect {
  import opened Signal
  import opened Randomizer
  import opened DelayStage
  import opened Topology
  import opened Routing

  /** The effect's fixed constants: the maximum delay time every stage is
      initialised with, and the spreads that scale the random offsets. */
  datatype Tuning = Tuning(
    maxDelayTimeMs: real,
    maxFeedbackSpread: real,
    maxTimeSpread: real,
    maxPanSpread: real)

  /** What the effect's fields hold when it is constructed, before `initialize`. */
  datatype Defaults = Defaults(
    sampleRate: real,
    seed: int,
    mix: real,
    feedback: real,
    timeMs: real,
    spread: real,
    dispersion: real)

  /** The feedback of stage (p, s): the base feedback plus its draw, scaled by
      the feedback spread and the dispersion knob. Dispersion 0 gives every
      stage the base feedback; otherwise a stage strays from it by at most
      the feedback spread times the dispersion's magnitude. */
  function FeedbackFor(rng: Randomizer, tuning: Tuning, seed: int, feedback: real, dispersion: real, p: int, s: int): (r: real)
    ensures dispersion == 0.0 ==> r == feedback
    ensures 0.0 <= tuning.maxFeedbackSpread ==> Abs(r - feedback) <= tuning.maxFeedbackSpread * Abs(dispersion)
  {
    feedback + Offset(rng.Draw(seed, p, s, FeedbackKind), tuning.maxFeedbackSpread, dispersion)
  }

  /** The delay time of stage (p, s): the base time plus its draw, scaled by
      the time spread and the dispersion knob. Dispersion 0 gives every stage
      the base time; otherwise a stage strays from it by at most the time
      spread times the dispersion's magnitude. */
  function TimeFor(rng: Randomizer, tuning: Tuning, seed: int, timeMs: real, dispersion: real, p: int, s: int): (r: real)
    ensures dispersion == 0.0 ==> r == timeMs
    ensures 0.0 <= tuning.maxTimeSpread ==> Abs(r - timeMs) <= tuning.maxTimeSpread * Abs(dispersion)
  {
    timeMs + Offset(rng.Draw(seed, p, s, TimeKind), tuning.maxTimeSpread, dispersion)
  }

  /** The pan of stage (p, s): no base value, only its draw scaled by the pan
      spread and the spread knob. Spread 0 centres every stage; otherwise a
      stage is panned by at most the pan spread times the spread's magnitude
      either way. */
  function PanFor(rng: Randomizer, tuning: Tuning, seed: int, spread: real, p: int, s: int): (r: real)
    ensures spread == 0.0 ==> r == 0.0
    ensures 0.0 <= tuning.maxPanSpread ==> Abs(r) <= tuning.maxPanSpread * Abs(spread)
  {
    Offset(rng.Draw(seed, p, s, PanKind), tuning.maxPanSpread, spread)
  }

  /** Scaling the dispersion knob scales every stage's feedback and time
      offsets by the same factor (pan does not depend on it at all). */
  lemma DispersionScalesOffsets(rng: Randomizer, tuning: Tuning, seed: int, feedback: real, timeMs: real,
                                dispersion: real, c: real, p: int, s: int)
    ensures FeedbackFor(rng, tuning, seed, feedback, c * dispersion, p, s) - feedback
         == c * (FeedbackFor(rng, tuning, seed, feedback, dispersion, p, s) - feedback)
    ensures TimeFor(rng, tuning, seed, timeMs, c * dispersion, p, s) - timeMs
         == c * (TimeFor(rng, tuning, seed, timeMs, dispersion, p, s) - timeMs)
  {
  }

  class Disperse {
    /** The unseen collaborators: the randomizer's hash and draw, the
        constants, and what a delay stage outputs. */
    const rng: Randomizer
    const tuning: Tuning
    const respond: Response

    var sampleRate: real
    var seed: int
    var mix: real
    var feedback: real
    var timeMs: real
    var spread: real
    var dispersion: real
    /** Stage count of each parallel branch. */
    var arrangement: seq<int>
    /** delays[p][s]: stage s of branch p. */
    var delays: seq<seq<Stage>>

    function FeedbackAt(p: int, s: int): real
      reads this`seed, this`feedback, this`dispersion
    {
      FeedbackFor(rng, tuning, seed, feedback, dispersion, p, s)
    }

    function TimeAt(p: int, s: int): real
      reads this`seed, this`timeMs, this`dispersion
    {
      TimeFor(rng, tuning, seed, timeMs, dispersion, p, s)
    }

    function PanAt(p: int, s: int): real
      reads this`seed, this`spread
    {
      PanFor(rng, tuning, seed, spread, p, s)
    }

    /** The settings the current fields prescribe for stage (p, s): a fresh
        stage with its derived feedback, time and pan. */
    ghost function Configured(p: int, s: int): Settings
      reads this`sampleRate, this`seed, this`feedback, this`timeMs, this`spread, this`dispersion
    {
      NewStage(sampleRate, tuning.maxDelayTimeMs).SetFeedback(FeedbackAt(p, s)).SetTimeMs(TimeAt(p, s)).SetPan(PanAt(p, s)).settings
    }

    /** The object invariant: the grid mirrors the arrangement, and every
        stage carries exactly the settings its coordinates prescribe. */
    ghost predicate Valid()
      reads this
      ensures Valid() ==> |delays| == |arrangement|
      ensures Valid() ==> forall p, s | InGrid(delays, p, s) ::
        delays[p][s].settings.feedback == FeedbackAt(p, s) &&
        delays[p][s].settings.timeMs == Some(TimeAt(p, s)) &&
        delays[p][s].settings.pan == Some(PanAt(p, s))
    {
      Mirrors(delays, arrangement) &&
      forall p, s | InGrid(delays, p, s) :: delays[p][s].settings == Configured(p, s)
    }

    constructor (rng: Randomizer, tuning: Tuning, respond: Response, init: Defaults)
      ensures Valid()
      ensures this.rng == rng && this.tuning == tuning && this.respond == respond
      ensures sampleRate == init.sampleRate && seed == init.seed && mix == init.mix
      ensures feedback == init.feedback && timeMs == init.timeMs
      ensures spread == init.spread && dispersion == init.dispersion
      ensures arrangement == [] && delays == []
    {
      this.rng := rng;
      this.tuning := tuning;
      this.respond := respond;
      sampleRate := init.sampleRate;
      seed := init.seed;
      mix := init.mix;
      feedback := init.feedback;
      timeMs := init.timeMs;
      spread := init.spread;
      dispersion := init.dispersion;
      arrangement := [];
      delays := [];
    }

    /** Stores the sample rate and the seed, and starts from one branch of
        one stage. */
    method Initialize(sampleRate: real, seed: int)
      modifies this`sampleRate, this`seed, this`arrangement, this`delays
      ensures this.sampleRate == sampleRate && this.seed == seed
      ensures arrangement == [1]
      ensures Valid()
      ensures |delays| == 1 && |delays[0]| == 1
      ensures delays[0][0] == Stage(Configured(0, 0), [])
    {
      this.sampleRate := sampleRate;
      this.seed := seed;
      arrangement := [1];
      ResetDelays();
    }

    /** Discards the grid and builds a fresh one from the arrangement, then
        derives every stage's feedback, time and pan. */
    method ResetDelays()
      modifies this`delays
      ensures Valid()
      ensures forall p, s | InGrid(delays, p, s) :: delays[p][s] == Stage(Configured(p, s), [])
    {
      delays := [];
      var p := 0;
      while p < |arrangement|
        invariant 0 <= p <= |arrangement| && |delays| == p
        invariant forall q | 0 <= q < p :: |delays[q]| == StageCount(arrangement[q])
        invariant forall q, s | InGrid(delays, q, s) :: delays[q][s] == NewStage(sampleRate, tuning.maxDelayTimeMs)
      {
        var serialMax := arrangement[p];
        var serialDelays: seq<Stage> := [];
        var s := 0;
        while s < serialMax
          invariant 0 <= s <= StageCount(serialMax) && |serialDelays| == s
          invariant forall t | 0 <= t < s :: serialDelays[t] == NewStage(sampleRate, tuning.maxDelayTimeMs)
        {
          serialDelays := serialDelays + [NewStage(sampleRate, tuning.maxDelayTimeMs)];
          s := s + 1;
        }
        delays := delays + [serialDelays];
        p := p + 1;
      }
      UpdateAllRandomParams();
    }

    /** Applies `visit` to every stage with its own coordinates, branch by
        branch and stage by stage within a branch; `visits` records the
        coordinates in the order they were passed. */
    method UpdateDelays(visit: (Stage, int, int) -> Stage) returns (ghost visits: seq<Pos>)
      modifies this`delays
      ensures SameShape(delays, old(delays))
      ensures forall p, s | InGrid(delays, p, s) :: delays[p][s] == visit(old(delays)[p][s], p, s)
      ensures visits == Positions(ShapeOf(old(delays)))
    {
      ghost var start := delays;
      ghost var shape := ShapeOf(delays);
      visits := [];
      var p := 0;
      while p < |delays|
        invariant 0 <= p <= |delays|
        invariant SameShape(delays, start)
        invariant forall q, t | 0 <= q < p && 0 <= t < |delays[q]| :: delays[q][t] == visit(start[q][t], q, t)
        invariant forall q | p <= q < |delays| :: delays[q] == start[q]
        invariant visits == Positions(shape[..p])
      {
        var serialDelays := delays[p];
        var s := 0;
        while s < |serialDelays|
          invariant 0 <= s <= |serialDelays| && serialDelays == start[p]
          invariant SameShape(delays, start)
          invariant forall q, t | 0 <= q < p && 0 <= t < |delays[q]| :: delays[q][t] == visit(start[q][t], q, t)
          invariant forall q | p < q < |delays| :: delays[q] == start[q]
          invariant forall t | 0 <= t < s :: delays[p][t] == visit(start[p][t], p, t)
          invariant forall t | s <= t < |delays[p]| :: delays[p][t] == start[p][t]
          invariant visits == Positions(shape[..p]) + Row(p, s)
        {
          delays := delays[p := delays[p][s := visit(serialDelays[s], p, s)]];
          assert Row(p, s + 1) == Row(p, s) + [Pos(p, s)];
          visits := visits + [Pos(p, s)];
          s := s + 1;
        }
        PositionsStep(shape, p);
        p := p + 1;
      }
      assert shape[..p] == shape;
    }

    /** Re-derives the feedback of every stage; nothing else changes. */
    method UpdateFeedback()
      modifies this`delays
      ensures SameShape(delays, old(delays))
      ensures forall p, s | InGrid(delays, p, s) :: delays[p][s] == old(delays)[p][s].SetFeedback(FeedbackAt(p, s))
    {
      var r, t, sd, fb, d := rng, tuning, seed, feedback, dispersion;
      ghost var visits: seq<Pos>;
      visits := UpdateDelays((st: Stage, p: int, s: int) => st.SetFeedback(FeedbackFor(r, t, sd, fb, d, p, s)));
    }

    /** Re-derives the delay time of every stage; nothing else changes. */
    method UpdateTimeMs()
      modifies this`delays
      ensures SameShape(delays, old(delays))
      ensures forall p, s | InGrid(delays, p, s) :: delays[p][s] == old(delays)[p][s].SetTimeMs(TimeAt(p, s))
    {
      var r, t, sd, tm, d := rng, tuning, seed, timeMs, dispersion;
      ghost var visits: seq<Pos>;
      visits := UpdateDelays((st: Stage, p: int, s: int) => st.SetTimeMs(TimeFor(r, t, sd, tm, d, p, s)));
    }

    /** Re-derives the pan of every stage; nothing else changes. */
    method UpdatePan()
      modifies this`delays
      ensures SameShape(delays, old(delays))
      ensures forall p, s | InGrid(delays, p, s) :: delays[p][s] == old(delays)[p][s].SetPan(PanAt(p, s))
    {
      var r, t, sd, sp := rng, tuning, seed, spread;
      ghost var visits: seq<Pos>;
      visits := UpdateDelays((st: Stage, p: int, s: int) => st.SetPan(PanFor(r, t, sd, sp, p, s)));
    }

    /** A change of spread re-derives pan only. */
    method UpdateSpread()
      modifies this`delays
      ensures SameShape(delays, old(delays))
      ensures forall p, s | InGrid(delays, p, s) :: delays[p][s] == old(delays)[p][s].SetPan(PanAt(p, s))
    {
      UpdatePan();
    }

    /** A change of dispersion re-derives time and feedback, not pan. */
    method UpdateDispersion()
      modifies this`delays
      ensures SameShape(delays, old(delays))
      ensures forall p, s | InGrid(delays, p, s) ::
        delays[p][s] == old(delays)[p][s].SetTimeMs(TimeAt(p, s)).SetFeedback(FeedbackAt(p, s))
    {
      UpdateTimeMs();
      UpdateFeedback();
    }

    /** Re-derives feedback, time and pan of every stage. */
    method UpdateAllRandomParams()
      modifies this`delays
      ensures SameShape(delays, old(delays))
      ensures forall p, s | InGrid(delays, p, s) ::
        delays[p][s] == old(delays)[p][s].SetFeedback(FeedbackAt(p, s)).SetTimeMs(TimeAt(p, s)).SetPan(PanAt(p, s))
    {
      UpdateFeedback();
      UpdateTimeMs();
      UpdatePan();
    }

    /** Stores the mix; no stage is touched. */
    method SetMix(mix: real)
      requires Valid()
      modifies this`mix
      ensures Valid() && this.mix == mix
    {
      this.mix := mix;
    }

    /** Stores the base feedback and re-derives the feedback of every stage,
        leaving its time and pan as they were. */
    method SetFeedback(feedback: real)
      requires Valid()
      modifies this`feedback, this`delays
      ensures Valid() && this.feedback == feedback
      ensures SameShape(delays, old(delays))
      ensures forall p, s | InGrid(delays, p, s) :: delays[p][s] == old(delays)[p][s].SetFeedback(FeedbackAt(p, s))
    {
      this.feedback := feedback;
      UpdateFeedback();
    }

    /** Stores the base time and re-derives the time of every stage, leaving
        its feedback and pan as they were. */
    method SetTimeMs(timeMs: real)
      requires Valid()
      modifies this`timeMs, this`delays
      ensures Valid() && this.timeMs == timeMs
      ensures SameShape(delays, old(delays))
      ensures forall p, s | InGrid(delays, p, s) :: delays[p][s] == old(delays)[p][s].SetTimeMs(TimeAt(p, s))
    {
      this.timeMs := timeMs;
      UpdateTimeMs();
    }

    /** Stores the spread and re-derives the pan of every stage, leaving its
        feedback and time as they were. */
    method SetSpread(spread: real)
      requires Valid()
      modifies this`spread, this`delays
      ensures Valid() && this.spread == spread
      ensures SameShape(delays, old(delays))
      ensures forall p, s | InGrid(delays, p, s) :: delays[p][s] == old(delays)[p][s].SetPan(PanAt(p, s))
    {
      this.spread := spread;
      UpdateSpread();
    }

    /** Stores the dispersion and re-derives the time and feedback of every
        stage, leaving its pan as it was. */
    method SetDispersion(dispersion: real)
      requires Valid()
      modifies this`dispersion, this`delays
      ensures Valid() && this.dispersion == dispersion
      ensures SameShape(delays, old(delays))
      ensures forall p, s | InGrid(delays, p, s) ::
        delays[p][s] == old(delays)[p][s].SetTimeMs(TimeAt(p, s)).SetFeedback(FeedbackAt(p, s))
    {
      this.dispersion := dispersion;
      UpdateDispersion();
    }

    /** The seed setter as written: the new seed is never stored, so every
        parameter is re-derived from the seed already held and nothing
        observable changes. */
    method SetRandomSeed(seed: int)
      requires Valid()
      modifies this`delays
      ensures Valid()
      ensures delays == old(delays)
    {
      UpdateAllRandomParams();
      forall p | 0 <= p < |delays|
        ensures delays[p] == old(delays)[p]
      {
        forall s | 0 <= s < |delays[p]|
          ensures delays[p][s] == old(delays)[p][s]
        {
          assert old(delays)[p][s].settings == old(Configured(p, s));
        }
      }
    }

    /** The seed setter as evidently intended: stores the seed, then
        re-derives every stage's feedback, time and pan from it. */
    method SetRandomSeedStored(seed: int)
      requires Valid()
      modifies this`seed, this`delays
      ensures Valid() && this.seed == seed
      ensures SameShape(delays, old(delays))
      ensures forall p, s | InGrid(delays, p, s) ::
        delays[p][s] == old(delays)[p][s].SetFeedback(FeedbackAt(p, s)).SetTimeMs(TimeAt(p, s)).SetPan(PanAt(p, s))
    {
      this.seed := seed;
      UpdateAllRandomParams();
    }

    /** Replaces the arrangement and rebuilds the grid to match it: one branch
        per entry, `StageCount(entry)` stages each, all freshly configured. */
    method SetVoiceArrangement(arrangement: seq<int>)
      modifies this`arrangement, this`delays
      ensures this.arrangement == arrangement && Valid()
      ensures |delays| == |arrangement|
      ensures forall p | 0 <= p < |arrangement| :: |delays[p]| == StageCount(arrangement[p])
      ensures forall p, s | InGrid(delays, p, s) :: delays[p][s] == Stage(Configured(p, s), [])
    {
      this.arrangement := arrangement;
      ResetDelays();
    }

    /** One stereo sample through the effect: the wet sum of the branches
        cross-faded with the input by `mix`. Stages keep their settings, so
        the invariant is preserved. */
    method Process(input: StereoFloat) returns (out: StereoFloat)
      requires Valid()
      modifies this`delays
      ensures Valid()
      ensures out == Mix(Wet(old(delays), input, respond).wet, input, mix)
      ensures delays == Wet(old(delays), input, respond).grid
    {
      var wet := SumBranches(input);
      out := Mix(wet, input, mix);
    }

    /** The outer loop of `Process`: every branch run on the input, its
        output added into the wet sum. */
    method SumBranches(input: StereoFloat) returns (wet: StereoFloat)
      requires Mirrors(delays, arrangement)
      modifies this`delays
      ensures wet == Wet(old(delays), input, respond).wet
      ensures delays == Wet(old(delays), input, respond).grid
    {
      wet := Silence;
      var p := 0;
      while p < |arrangement|
        invariant 0 <= p <= |arrangement| && |delays| == |old(delays)|
        invariant delays[..p] == Wet(old(delays)[..p], input, respond).grid
        invariant delays[p..] == old(delays)[p..]
        invariant wet == Wet(old(delays)[..p], input, respond).wet
      {
        assert delays[p] == old(delays)[p];
        ghost var outer := delays;
        var serial := ThreadBranch(p, input);
        WetStep(old(delays), p, input, respond);
        assert delays[..p + 1] == outer[..p] + [delays[p]];
        assert delays[p + 1..] == outer[p + 1..];
        wet := Add(wet, serial);
        p := p + 1;
      }
      assert old(delays)[..p] == old(delays);
      assert delays == delays[..p];
    }

    /** The inner loop of `Process`: the running sample threaded through the
        stages of branch `p` in series, each stage processing it in place. */
    method ThreadBranch(p: int, input: StereoFloat) returns (serial: StereoFloat)
      requires 0 <= p < |arrangement| && p < |delays| && |delays[p]| == StageCount(arrangement[p])
      modifies this`delays
      ensures delays == old(delays)[p := RunChain(old(delays)[p], input, respond).chain]
      ensures serial == RunChain(old(delays)[p], input, respond).out
    {
      ghost var branch := delays[p];
      serial := input;
      var s := 0;
      while s < arrangement[p]
        invariant 0 <= s <= |branch| && |delays| == |old(delays)|
        invariant forall q | 0 <= q < |delays| && q != p :: delays[q] == old(delays)[q]
        invariant |delays[p]| == |branch|
        invariant delays[p][..s] == RunChain(branch[..s], input, respond).chain
        invariant delays[p][s..] == branch[s..]
        invariant serial == RunChain(branch[..s], input, respond).out
      {
        var r := delays[p][s].Process(serial, respond);
        serial := r.out;
        ghost var before := delays[p];
        delays := delays[p := delays[p][s := r.stage]];
        ChainStep(branch, s, input, respond);
        assert delays[p][..s + 1] == before[..s] + [r.stage];
        s := s + 1;
      }
      assert branch[..s] == branch;
      assert delays[p] == RunChain(branch, input, respond).chain;
    }
  }
}
