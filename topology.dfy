/** The shape of the delay grid: branches in parallel, each a row of stages
    in series, and the branch-major, stage-minor order in which the grid's
    positions are visited. */
module Topology {

  /** A grid position: branch (parallel) index and stage (series) index. */
  datatype Pos = Pos(branch: nat, stage: nat)

  /** How many stages a counting loop `for s := 0; s < n; s++` creates for an
      arrangement entry `n`: none when `n` is not positive. */
  function StageCount(n: int): (c: nat)
    ensures n <= 0 ==> c == 0
    ensures n > 0 ==> c == n
  {
    if n < 0 then 0 else n
  }

  predicate InGrid<T>(grid: seq<seq<T>>, p: int, s: int)
  {
    0 <= p < |grid| && 0 <= s < |grid[p]|
  }

  /** The grid has one branch per arrangement entry, and each branch as many
      stages as its entry asks for. */
  predicate Mirrors<T>(grid: seq<seq<T>>, arrangement: seq<int>)
  {
    |grid| == |arrangement| &&
    forall p | 0 <= p < |grid| :: |grid[p]| == StageCount(arrangement[p])
  }

  predicate SameShape<T, U>(a: seq<seq<T>>, b: seq<seq<U>>)
  {
    |a| == |b| && forall p | 0 <= p < |a| :: |a[p]| == |b[p]|
  }

  /** The stage count of every branch. */
  function ShapeOf<T>(grid: seq<seq<T>>): (shape: seq<nat>)
    ensures |shape| == |grid|
    ensures forall p | 0 <= p < |grid| :: shape[p] == |grid[p]|
  {
    seq(|grid|, p requires 0 <= p < |grid| => |grid[p]|)
  }

  /** The positions of branch `p`, in stage order, when it has `n` stages. */
  function Row(p: nat, n: nat): seq<Pos>
  {
    seq(n, s requires 0 <= s < n => Pos(p, s))
  }

  /** Every position of a grid of the given shape, branch-major, stage-minor.
      Only positions inside the grid are listed. */
  function Positions(shape: seq<nat>): (ps: seq<Pos>)
    ensures forall q | q in ps :: q.branch < |shape| && q.stage < shape[q.branch]
  {
    if shape == [] then []
    else Positions(shape[..|shape| - 1]) + Row(|shape| - 1, shape[|shape| - 1])
  }

  /** Visiting one more branch appends that branch's row. */
  lemma PositionsStep(shape: seq<nat>, p: nat)
    requires p < |shape|
    ensures Positions(shape[..p + 1]) == Positions(shape[..p]) + Row(p, shape[p])
  {
    assert shape[..p + 1][..p] == shape[..p];
  }

  /** Strict branch-major, stage-minor order. */
  predicate Precedes(a: Pos, b: Pos)
  {
    a.branch < b.branch || (a.branch == b.branch && a.stage < b.stage)
  }

  /** The enumeration lists exactly the positions inside the grid. */
  lemma {:induction false} PositionsCover(shape: seq<nat>)
    ensures forall q :: q in Positions(shape) <==> q.branch < |shape| && q.stage < shape[q.branch]
  {
    if shape != [] {
      var init := shape[..|shape| - 1];
      PositionsCover(init);
      forall q
        ensures q in Positions(shape) <==> q.branch < |shape| && q.stage < shape[q.branch]
      {
        assert q in Positions(shape) <==> q in Positions(init) || q in Row(|shape| - 1, shape[|shape| - 1]);
        if q.branch == |shape| - 1 && q.stage < shape[q.branch] {
          assert Row(|shape| - 1, shape[|shape| - 1])[q.stage] == q;
        }
      }
    }
  }

  /** The enumeration is strictly increasing in branch-major, stage-minor
      order, so no position is listed twice. */
  lemma {:induction false} PositionsOrdered(shape: seq<nat>)
    ensures forall i, j | 0 <= i < j < |Positions(shape)| :: Precedes(Positions(shape)[i], Positions(shape)[j])
  {
    if shape != [] {
      var init := shape[..|shape| - 1];
      var last := |shape| - 1;
      PositionsOrdered(init);
      var a, b := Positions(init), Row(last, shape[last]);
      assert Positions(shape) == a + b;
      forall i, j | 0 <= i < j < |a + b|
        ensures Precedes((a + b)[i], (a + b)[j])
      {
        if j < |a| {
          assert (a + b)[i] == a[i] && (a + b)[j] == a[j];
        } else if i < |a| {
          assert (a + b)[i] == a[i] && a[i].branch < |init|;
          assert (a + b)[j] == b[j - |a|];
        } else {
          assert (a + b)[i] == b[i - |a|] && (a + b)[j] == b[j - |a|];
        }
      }
    }
  }

  /** Each position is listed exactly once: two different places in the
      enumeration hold different positions. */
  lemma PositionsOnce(shape: seq<nat>, i: nat, j: nat)
    requires i < |Positions(shape)| && j < |Positions(shape)| && i != j
    ensures Positions(shape)[i] != Positions(shape)[j]
  {
    PositionsOrdered(shape);
    if i < j {
      assert Precedes(Positions(shape)[i], Positions(shape)[j]);
    } else {
      assert Precedes(Positions(shape)[j], Positions(shape)[i]);
    }
  }
}
