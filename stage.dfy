/** One delay stage, as the effect sees it: the parameters last set on it and
    the samples it has processed. What a stage outputs is left abstract: a
    `Response` computes the output from the stage's whole history. */
module DelayStage {
  import opened Signal

  datatype Option<T> = None | Some(value: T)

  /** What `createDelay` sets on a fresh stage. */
  const DEFAULT_FEEDBACK: real := 0.5
  const DEFAULT_MOD_DEPTH: real := 0.2
  const DEFAULT_MIX: real := 1.0

  /** The parameters a stage has been given. `None` marks a parameter the
      effect has not set yet, so the stage still runs on its own default. */
  datatype Settings = Settings(
    sampleRate: real,
    maxDelayTimeMs: real,
    feedback: real,
    modDepth: real,
    mix: real,
    timeMs: Option<real>,
    pan: Option<real>)

  /** One processed sample and the settings that were in force for it. */
  datatype Tick = Tick(settings: Settings, input: StereoFloat)

  /** The stage's internal processing (its buffer, interpolation and
      modulation): the output for the latest sample, given everything the
      stage has processed so far. */
  type Response = seq<Tick> -> StereoFloat

  datatype Processed = Processed(out: StereoFloat, stage: Stage)

  datatype Stage = Stage(settings: Settings, log: seq<Tick>) {

    /** Sets the feedback; every other setting and the history are kept. */
    function SetFeedback(v: real): (r: Stage)
      ensures r.settings.feedback == v && r.log == log
      ensures r.settings.(feedback := settings.feedback) == settings
    {
      this.(settings := settings.(feedback := v))
    }

    /** Sets the delay time, which from then on is no longer the stage's own
        default; every other setting and the history are kept. */
    function SetTimeMs(v: real): (r: Stage)
      ensures r.settings.timeMs == Some(v) && r.log == log
      ensures r.settings.(timeMs := settings.timeMs) == settings
    {
      this.(settings := settings.(timeMs := Some(v)))
    }

    /** Sets the pan, which from then on is no longer the stage's own default;
        every other setting and the history are kept. */
    function SetPan(v: real): (r: Stage)
      ensures r.settings.pan == Some(v) && r.log == log
      ensures r.settings.(pan := settings.pan) == settings
    {
      this.(settings := settings.(pan := Some(v)))
    }

    /** Processes one sample: the stage keeps its settings, records the
        sample, and outputs what its response gives for the new history. */
    function Process(x: StereoFloat, respond: Response): (r: Processed)
      ensures r.stage.settings == settings
      ensures r.stage.log == log + [Tick(settings, x)]
      ensures r.out == respond(r.stage.log)
    {
      var next := this.(log := log + [Tick(settings, x)]);
      Processed(respond(next.log), next)
    }
  }

  /** A stage as `createDelay` leaves it: initialised with the sample rate
      and the maximum delay time, feedback 0.5, modulation depth 0.2, mix 1,
      time and pan not yet set, nothing processed. */
  function NewStage(sampleRate: real, maxDelayTimeMs: real): (st: Stage)
    ensures st.log == []
    ensures st.settings.sampleRate == sampleRate && st.settings.maxDelayTimeMs == maxDelayTimeMs
    ensures st.settings.feedback == DEFAULT_FEEDBACK && st.settings.modDepth == DEFAULT_MOD_DEPTH
    ensures st.settings.mix == DEFAULT_MIX
    ensures st.settings.timeMs.None? && st.settings.pan.None?
  {
    Stage(Settings(sampleRate, maxDelayTimeMs, DEFAULT_FEEDBACK, DEFAULT_MOD_DEPTH, DEFAULT_MIX, None, None), [])
  }

  /** An identity stage: it outputs the sample it was just given. */
  function LastInput(log: seq<Tick>): StereoFloat
  {
    if log == [] then Silence else log[|log| - 1].input
  }
}
