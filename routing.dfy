/** The audio router: one input sample threaded through each branch's stages
    in series, the branch outputs summed into the wet signal. These functions
    specify what the effect's per-sample processing computes and how it
    leaves the stages. */
module Routing {
  import opened Signal
  import opened DelayStage
  import opened Topology

  /** The output of a chain of stages and the chain after processing. */
  datatype ChainRun = ChainRun(out: StereoFloat, chain: seq<Stage>)

  /** The wet sum over all branches and the grid after processing. */
  datatype GridRun = GridRun(wet: StereoFloat, grid: seq<seq<Stage>>)

  /** `x` through the stages of `chain` in order, each stage fed the
      previous stage's output. Every stage keeps its settings and processes
      exactly one sample. */
  function RunChain(chain: seq<Stage>, x: StereoFloat, respond: Response): (r: ChainRun)
    ensures |r.chain| == |chain|
    ensures forall s | 0 <= s < |chain| ::
      r.chain[s].settings == chain[s].settings && |r.chain[s].log| == |chain[s].log| + 1
  {
    if chain == [] then ChainRun(x, [])
    else
      var before := RunChain(chain[..|chain| - 1], x, respond);
      var last := chain[|chain| - 1].Process(before.out, respond);
      ChainRun(last.out, before.chain + [last.stage])
  }

  /** Every branch of `grid` run on the same input `x`; the wet signal is the
      channel-wise sum (not the average) of the branch outputs. Every stage
      keeps its settings and processes exactly one sample. */
  function Wet(grid: seq<seq<Stage>>, x: StereoFloat, respond: Response): (r: GridRun)
    ensures SameShape(r.grid, grid)
    ensures forall p, s | InGrid(grid, p, s) ::
      r.grid[p][s].settings == grid[p][s].settings && |r.grid[p][s].log| == |grid[p][s].log| + 1
  {
    if grid == [] then GridRun(Silence, [])
    else
      var before := Wet(grid[..|grid| - 1], x, respond);
      var branch := RunChain(grid[|grid| - 1], x, respond);
      GridRun(Add(before.wet, branch.out), before.grid + [branch.chain])
  }

  /** Running one more stage of a chain extends the run of its prefix. */
  lemma ChainStep(chain: seq<Stage>, k: nat, x: StereoFloat, respond: Response)
    requires k < |chain|
    ensures RunChain(chain[..k + 1], x, respond)
         == var before := RunChain(chain[..k], x, respond);
            var last := chain[k].Process(before.out, respond);
            ChainRun(last.out, before.chain + [last.stage])
  {
    assert chain[..k + 1][..k] == chain[..k];
  }

  /** Running one more branch of a grid extends the run of its prefix. */
  lemma WetStep(grid: seq<seq<Stage>>, k: nat, x: StereoFloat, respond: Response)
    requires k < |grid|
    ensures Wet(grid[..k + 1], x, respond)
         == var before := Wet(grid[..k], x, respond);
            var branch := RunChain(grid[k], x, respond);
            GridRun(Add(before.wet, branch.out), before.grid + [branch.chain])
  {
    assert grid[..k + 1][..k] == grid[..k];
  }

  /** Branches do not feed each other: each branch of the processed grid is
      that branch run on its own from the dry input. */
  lemma {:induction false} BranchesIndependent(grid: seq<seq<Stage>>, x: StereoFloat, respond: Response)
    ensures forall p | 0 <= p < |grid| :: Wet(grid, x, respond).grid[p] == RunChain(grid[p], x, respond).chain
  {
    if grid != [] {
      var init := grid[..|grid| - 1];
      BranchesIndependent(init, x, respond);
      forall p | 0 <= p < |grid|
        ensures Wet(grid, x, respond).grid[p] == RunChain(grid[p], x, respond).chain
      {
        if p < |init| {
          assert Wet(grid, x, respond).grid[p] == Wet(init, x, respond).grid[p];
          assert init[p] == grid[p];
        }
      }
    }
  }

  /** What each stage of a chain records: stage `s` keeps its history and
      appends one tick, under its own settings, of the output of the stages
      before it (the dry input for the first stage). */
  lemma {:induction false} ChainLogs(chain: seq<Stage>, x: StereoFloat, respond: Response)
    ensures forall s | 0 <= s < |chain| ::
      RunChain(chain, x, respond).chain[s].log
        == chain[s].log + [Tick(chain[s].settings, RunChain(chain[..s], x, respond).out)]
  {
    if chain != [] {
      var init := chain[..|chain| - 1];
      ChainLogs(init, x, respond);
      forall s | 0 <= s < |chain|
        ensures RunChain(chain, x, respond).chain[s].log
             == chain[s].log + [Tick(chain[s].settings, RunChain(chain[..s], x, respond).out)]
      {
        if s < |init| {
          assert init[s] == chain[s] && init[..s] == chain[..s];
          assert RunChain(chain, x, respond).chain[s] == RunChain(init, x, respond).chain[s];
        } else {
          assert chain[..s] == init;
        }
      }
    }
  }

  /** What each stage of the grid records: stage `s` of branch `p` appends
      one tick of the output of the stages before it in its own branch. */
  lemma WetLogs(grid: seq<seq<Stage>>, x: StereoFloat, respond: Response)
    ensures forall p, s | InGrid(grid, p, s) ::
      Wet(grid, x, respond).grid[p][s].log
        == grid[p][s].log + [Tick(grid[p][s].settings, RunChain(grid[p][..s], x, respond).out)]
  {
    BranchesIndependent(grid, x, respond);
    forall p | 0 <= p < |grid| {
      ChainLogs(grid[p], x, respond);
    }
  }

  /** A branch with no stages feeds the dry input straight into the wet sum:
      a grid of `n` empty branches yields the input `n` times over. */
  lemma {:induction false} EmptyBranchesWet(grid: seq<seq<Stage>>, x: StereoFloat, respond: Response)
    requires forall p | 0 <= p < |grid| :: grid[p] == []
    ensures Wet(grid, x, respond).wet == Times(|grid|, x)
  {
    if grid != [] {
      EmptyBranchesWet(grid[..|grid| - 1], x, respond);
    }
  }

  /** A chain of identity stages passes its input through unchanged. */
  lemma {:induction false} IdentityChain(chain: seq<Stage>, x: StereoFloat)
    ensures RunChain(chain, x, LastInput).out == x
  {
    if chain != [] {
      IdentityChain(chain[..|chain| - 1], x);
    }
  }

  /** With identity stages the wet signal is the input times the number of
      branches. */
  lemma {:induction false} IdentityWet(grid: seq<seq<Stage>>, x: StereoFloat)
    ensures Wet(grid, x, LastInput).wet == Times(|grid|, x)
  {
    if grid != [] {
      var init := grid[..|grid| - 1];
      IdentityWet(init, x);
      IdentityChain(grid[|grid| - 1], x);
    }
  }

  /** Two identity branches and mix 1: the output is the input summed twice,
      so input (1, 0) comes out as (2, 0). */
  lemma TwoIdentityBranches(grid: seq<seq<Stage>>, x: StereoFloat)
    requires |grid| == 2
    ensures Mix(Wet(grid, x, LastInput).wet, x, 1.0) == Add(x, x)
  {
    IdentityWet(grid, x);
    assert Times(1, x) == x;
  }

  /** One identity branch and mix 1 returns the input unchanged. */
  lemma SingleIdentityBranch(grid: seq<seq<Stage>>, x: StereoFloat)
    requires |grid| == 1
    ensures Mix(Wet(grid, x, LastInput).wet, x, 1.0) == x
  {
    assert Wet(grid, x, LastInput).wet == Times(1, x) by { IdentityWet(grid, x); }
    assert Times(1, x) == x;
  }
}
