/** The world that `setupScene` builds once every model has loaded: one
    level-of-detail (LOD) object whose level `i` shows model `i` from
    distance `i^2 * 15` on, cloned onto a grid of 10 columns and 3 rows
    with spacing 2; the render loop is started after the last clone. */
module SceneSetup {

  /** Number of detail levels: one per entry of the model table. */
  const LevelCount: nat := 3
  /** Distance unit of the level table (`Math.pow(i, 2) * 15`). */
  const BaseDistance: nat := 15
  /** Grid size: the outer loop runs over columns, the inner over rows. */
  const Columns: nat := 10
  const Rows: nat := 3
  /** Distance between neighbouring clones, on both axes. */
  const Spacing: nat := 2
  /** How many clones the grid loop adds to the world. */
  const CloneCount: nat := Columns * Rows

  /** One level of the LOD object: the index of the model whose scene is
      shown and the camera distance from which it is used. */
  datatype Level = Level(model: nat, distance: nat)

  /** One clone of the LOD object placed in the world: its level table and
      its position (the clone's `z` is left at 0). */
  datatype LodClone = LodClone(levels: seq<Level>, x: int, y: int)

  /** Distance threshold of level `i` for a given distance unit: the
      first level is used from distance 0, and every later one no nearer
      than one unit. */
  function Threshold(i: nat, base: nat): (r: nat)
    ensures i == 0 ==> r == 0
    ensures 0 < i ==> base <= r
  {
    i * i * base
  }

  /** Reference level table: level `i` uses model `i` at `Threshold(i, base)`. */
  function LevelTable(n: nat, base: nat): (t: seq<Level>)
    ensures |t| == n
  {
    seq(n, (i: int) requires 0 <= i => Level(i, Threshold(i, base)))
  }

  /** Index, in insertion order, of the clone added for column `column`
      and row `row`. */
  function Slot(column: nat, row: nat): nat
  {
    column * Rows + row
  }

  /** The `k`-th clone the grid loop adds. */
  function GridClone(lod: seq<Level>, k: nat): LodClone
  {
    LodClone(lod, Spacing * (k / Rows), Spacing * (k % Rows))
  }

  /** Reference grid: every clone the grid loop adds, in insertion order. */
  function Grid(lod: seq<Level>): (g: seq<LodClone>)
    ensures |g| == CloneCount
  {
    seq(CloneCount, (k: int) requires 0 <= k => GridClone(lod, k))
  }

  /** Thresholds grow with the level index whenever the unit is positive. */
  lemma ThresholdIncreasing(a: nat, b: nat, base: nat)
    requires a < b && 0 < base
    ensures Threshold(a, base) < Threshold(b, base)
  {
    assert a * a <= a * b;
    assert a * b < b * b;
    assert a * a * base < b * b * base;
  }

  /** The level table is ordered by strictly increasing threshold, so
      the LOD object sees its levels from the most detailed one outwards. */
  lemma LevelsStrictlyIncreasing(n: nat, base: nat)
    requires 0 < base
    ensures forall a, b :: 0 <= a < b < n ==>
      LevelTable(n, base)[a].distance < LevelTable(n, base)[b].distance
  {
    forall a, b | 0 <= a < b < n
      ensures LevelTable(n, base)[a].distance < LevelTable(n, base)[b].distance
    {
      ThresholdIncreasing(a, b, base);
    }
  }

  /** For any unit, zero included, the thresholds never decrease. */
  lemma LevelsNonDecreasing(n: nat, base: nat)
    ensures forall a, b :: 0 <= a <= b < n ==>
      LevelTable(n, base)[a].distance <= LevelTable(n, base)[b].distance
  {
    forall a, b | 0 <= a <= b < n
      ensures LevelTable(n, base)[a].distance <= LevelTable(n, base)[b].distance
    {
      if a < b && 0 < base {
        ThresholdIncreasing(a, b, base);
      }
    }
  }

  /** The table the scene uses: models 0, 1, 2 at distances 0, 15, 60. */
  lemma SourceLevels()
    ensures LevelTable(LevelCount, BaseDistance) ==
      [Level(0, 0), Level(1, 15), Level(2, 60)]
  {
  }

  /** Clone `Slot(column, row)` sits at `x = 2 * column`, `y = 2 * row`. */
  lemma GridCloneAt(lod: seq<Level>, column: nat, row: nat)
    requires row < Rows
    ensures GridClone(lod, Slot(column, row)) == LodClone(lod, Spacing * column, Spacing * row)
  {
  }

  /** The grid holds exactly 30 clones, each with a copy of the level table, one
      at `(2 * column, 2 * row)` for every column below 10 and row below 3. */
  lemma GridCovers(lod: seq<Level>)
    ensures |Grid(lod)| == 30
    ensures forall k :: 0 <= k < |Grid(lod)| ==> Grid(lod)[k].levels == lod
    ensures forall column, row :: 0 <= column < Columns && 0 <= row < Rows ==>
      Slot(column, row) < |Grid(lod)| &&
      Grid(lod)[Slot(column, row)] == LodClone(lod, Spacing * column, Spacing * row)
  {
  }

  /** No two clones share a position, and every position is an even
      `x` in [0, 18] and an even `y` in [0, 4]. */
  lemma GridPositionsDistinct(lod: seq<Level>)
    ensures forall a, b :: 0 <= a < b < |Grid(lod)| ==>
      (Grid(lod)[a].x, Grid(lod)[a].y) != (Grid(lod)[b].x, Grid(lod)[b].y)
    ensures forall k :: 0 <= k < |Grid(lod)| ==>
      0 <= Grid(lod)[k].x <= 18 && Grid(lod)[k].x % 2 == 0 &&
      0 <= Grid(lod)[k].y <= 4 && Grid(lod)[k].y % 2 == 0
  {
  }

  /** The first loop of `setupScene`: build the level table of the LOD
      object, one `addLevel` per model. */
  method BuildLod() returns (lod: seq<Level>)
    ensures lod == LevelTable(LevelCount, BaseDistance)
  {
    lod := [];
    for i := 0 to LevelCount
      invariant lod == LevelTable(i, BaseDistance)
    {
      lod := lod + [Level(i, i * i * BaseDistance)];
      assert lod == LevelTable(i + 1, BaseDistance);
    }
  }

  /** The world scene: the LOD clones added to it and the render loop. */
  class World {
    /** The LOD clones added to the scene, in insertion order. */
    var children: seq<LodClone>
    /** True once `animate` has started the render loop. */
    var animating: bool
    /** What the scene held when the render loop was last started. */
    ghost var firstFrame: seq<LodClone>
    /** How often `animate` has been called from outside the render loop. */
    ghost var starts: nat

    constructor ()
      ensures children == [] && !animating && firstFrame == [] && starts == 0
    {
      children := [];
      animating := false;
      firstFrame := [];
      starts := 0;
    }

    /** Start the render loop on the current content of the scene. */
    method Animate()
      modifies this
      ensures animating && firstFrame == children
      ensures starts == old(starts) + 1
      ensures children == old(children)
    {
      animating := true;
      firstFrame := children;
      starts := starts + 1;
    }

    /** `setupScene`: build the level table, add one clone per grid cell
        (columns outside, rows inside), then start the render loop, which
        therefore first renders with every clone in place. The render loop
        is started exactly once, after the last clone. */
    method SetupScene()
      modifies this
      ensures children == old(children) + Grid(LevelTable(LevelCount, BaseDistance))
      ensures animating && firstFrame == children
      ensures starts == old(starts) + 1
    {
      var lod := BuildLod();
      ghost var before := children;
      for column := 0 to Columns
        invariant children == before + Grid(lod)[..Slot(column, 0)]
        invariant starts == old(starts)
      {
        for row := 0 to Rows
          invariant children == before + Grid(lod)[..Slot(column, row)]
          invariant starts == old(starts)
        {
          GridCloneAt(lod, column, row);
          assert Grid(lod)[..Slot(column, row) + 1] ==
            Grid(lod)[..Slot(column, row)] + [Grid(lod)[Slot(column, row)]];
          children := children + [LodClone(lod, column * Spacing, row * Spacing)];
        }
      }
      assert Grid(lod)[..Slot(Columns, 0)] == Grid(lod);
      Animate();
    }
  }
}
