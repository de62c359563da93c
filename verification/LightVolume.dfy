/** The box of cells a schematic is lit in: coordinates, their row-major index, the six directions,
    and what it means for a field of levels to be the flood of a field of seeds. */
module LightVolume {
  import opened Bits

  // ---- Geometry of the volume ------------------------------------------------------------

  datatype Dims = Dims(width: nat, length: nat, height: nat) {
    function Volume(): nat { height * width * length }
  }

  datatype Cell = Cell(x: int, y: int, z: int)

  predicate InVolume(c: Cell, d: Dims) {
    0 <= c.x < d.width && 0 <= c.y < d.height && 0 <= c.z < d.length
  }

  function LightIndex(c: Cell, d: Dims): int {
    c.y * d.width * d.length + c.z * d.width + c.x
  }

  function CellAt(i: nat, d: Dims): Cell
    requires d.width > 0 && d.length > 0
  {
    Cell(i % d.width, i / (d.width * d.length), (i / d.width) % d.length)
  }

  // The six directions are numbered -x, +x, -y, +y, -z, +z.
  type Direction = n: nat | n < 6

  function Opposite(dir: Direction): Direction {
    if dir % 2 == 0 then dir + 1 else dir - 1
  }

  function Step(c: Cell, dir: Direction): Cell {
    match dir
    case 0 => c.(x := c.x - 1)
    case 1 => c.(x := c.x + 1)
    case 2 => c.(y := c.y - 1)
    case 3 => c.(y := c.y + 1)
    case 4 => c.(z := c.z - 1)
    case _ => c.(z := c.z + 1)
  }

  function Offset(dir: Direction, d: Dims): int {
    match dir
    case 0 => -1
    case 1 => 1
    case 2 => -(d.width * d.length)
    case 3 => d.width * d.length
    case 4 => -(d.width as int)
    case _ => d.width
  }

  // The index reached from `i` in direction `dir`, or -1 when that leaves the volume.
  function Neighbor(i: nat, dir: Direction, d: Dims): (n: int)
    requires i < d.Volume()
    ensures -1 <= n < d.Volume()
  {
    CellInVolume(i, d);
    var target := Step(CellAt(i, d), dir);
    if InVolume(target, d) then
      StepIndex(CellAt(i, d), dir, d);
      IndexInRange(target, d);
      i + Offset(dir, d)
    else -1
  }

  lemma NonEmptyDims(d: Dims)
    ensures d.Volume() > 0 <==> d.width > 0 && d.length > 0 && d.height > 0
  {
  }

  // Splitting n by w and then by l is the same as splitting it by w * l.
  lemma SplitTwice(n: nat, w: nat, l: nat, y: nat, z: nat, x: nat)
    requires x < w && z < l && n == (y * l + z) * w + x
    ensures n % w == x && (n / w) % l == z && n / (w * l) == y
  {
    DivModUnique(n, w, y * l + z, x);
    DivModUnique(y * l + z, l, y, z);
    RowBound(w, l, z, x);
    assert (y * l + z) * w == y * (w * l) + z * w;
    DivModUnique(n, w * l, y, z * w + x);
  }

  lemma RowBound(w: nat, l: nat, z: nat, x: nat)
    requires x < w && z < l
    ensures 0 < w * l && z * w + x < w * l
  {
    var above := l - 1 - z;
    assert w * l == w * (z + 1 + above);
    assert w * (z + 1 + above) == w * z + w + w * above;
    assert w * above >= 0;
  }

  lemma IndexByRows(c: Cell, d: Dims)
    ensures LightIndex(c, d) == (c.y * d.length + c.z) * d.width + c.x
  {
  }

  lemma LayerBound(y: int, h: nat, layer: nat, rest: nat)
    requires rest < layer
    ensures 0 <= y < h ==> 0 <= y * layer + rest < h * layer
    ensures y >= h ==> y * layer + rest >= h * layer
  {
    assert (h - y) * layer == h * layer - y * layer;
    assert h - y >= 1 ==> (h - y) * layer >= layer;
    assert h - y <= 0 ==> (h - y) * layer <= 0;
    assert y >= 0 ==> y * layer >= 0;
  }

  lemma VolumeByLayers(d: Dims)
    ensures d.Volume() == d.height * (d.width * d.length)
  {
  }

  lemma IndexInRange(c: Cell, d: Dims)
    requires InVolume(c, d)
    ensures 0 <= LightIndex(c, d) < d.Volume()
    ensures CellAt(LightIndex(c, d), d) == c
  {
    IndexBelowVolume(c, d);
    IndexByRows(c, d);
    SplitTwice(LightIndex(c, d), d.width, d.length, c.y, c.z, c.x);
  }

  lemma IndexBelowVolume(c: Cell, d: Dims)
    requires InVolume(c, d)
    ensures 0 <= LightIndex(c, d) < d.Volume()
  {
    RowBound(d.width, d.length, c.z, c.x);
    LayerBound(c.y, d.height, d.width * d.length, c.z * d.width + c.x);
    VolumeByLayers(d);
    IndexByLayers(c, d);
  }

  lemma IndexByLayers(c: Cell, d: Dims)
    ensures LightIndex(c, d) == c.y * (d.width * d.length) + (c.z * d.width + c.x)
  {
  }

  // Every number is row-major in some row and layer.
  lemma Unrank(i: nat, w: nat, l: nat) returns (y: nat, z: nat, x: nat)
    requires w > 0 && l > 0
    ensures x < w && z < l && i == (y * l + z) * w + x
    ensures i % w == x && (i / w) % l == z && i / (w * l) == y
  {
    var row := i / w;
    x, y, z := i % w, row / l, row % l;
    assert row == y * l + z;
    assert i == row * w + x;
    SplitTwice(i, w, l, y, z, x);
  }

  lemma CellInVolume(i: nat, d: Dims)
    requires i < d.Volume()
    ensures d.width > 0 && d.length > 0
    ensures InVolume(CellAt(i, d), d) && LightIndex(CellAt(i, d), d) == i
  {
    NonEmptyDims(d);
    var y, z, x := Unrank(i, d.width, d.length);
    var c := Cell(x, y, z);
    IndexByRows(c, d);
    assert y < d.height by {
      RowBound(d.width, d.length, z, x);
      LayerBound(y, d.height, d.width * d.length, z * d.width + x);
      VolumeByLayers(d);
      IndexByLayers(c, d);
    }
  }

  lemma StepIndex(c: Cell, dir: Direction, d: Dims)
    ensures LightIndex(Step(c, dir), d) == LightIndex(c, d) + Offset(dir, d)
  {
  }

  // A neighbour lies in the volume, differs from its origin, and leads back in the opposite direction.
  lemma NeighborFacts(i: nat, dir: Direction, d: Dims)
    requires i < d.Volume()
    requires Neighbor(i, dir, d) != -1
    ensures d.width > 0 && d.length > 0
    ensures 0 <= Neighbor(i, dir, d) < d.Volume()
    ensures Neighbor(i, dir, d) != i
    ensures CellAt(Neighbor(i, dir, d), d) == Step(CellAt(i, d), dir)
    ensures Neighbor(Neighbor(i, dir, d), Opposite(dir), d) == i
  {
    CellInVolume(i, d);
    var c := CellAt(i, d);
    StepIndex(c, dir, d);
    IndexInRange(Step(c, dir), d);
    assert Step(Step(c, dir), Opposite(dir)) == c;
    StepIndex(Step(c, dir), Opposite(dir), d);
    assert Step(c, dir) != c;
  }

  function IndexOf(c: Cell, d: Dims): (i: nat)
    requires InVolume(c, d)
    ensures i < d.Volume()
  {
    IndexInRange(c, d);
    LightIndex(c, d)
  }

  function CellAtIndex(i: nat, d: Dims): (c: Cell)
    requires i < d.Volume()
    ensures InVolume(c, d)
  {
    CellInVolume(i, d);
    CellAt(i, d)
  }

  // ---- The flood of a seed field ----------------------------------------------------------

  // A light path starts anywhere in the volume and enters only transparent cells of it.
  ghost predicate IsPath(p: seq<Cell>, clear: Cell -> bool, d: Dims) {
    && |p| > 0
    && (forall k :: 0 <= k < |p| ==> InVolume(p[k], d))
    && (forall k: nat :: k < |p| - 1 ==> Enters(p, k, clear))
  }

  ghost predicate Enters(p: seq<Cell>, k: nat, clear: Cell -> bool)
    requires k < |p| - 1
  {
    clear(p[k + 1]) && exists dir: Direction :: Step(p[k], dir) == p[k + 1]
  }

  // Light loses one level a step.
  function LevelAlong(p: seq<Cell>, seeds: Cell -> nat): int
    requires |p| > 0
  {
    seeds(p[0]) - (|p| - 1)
  }

  ghost predicate Attained(level: int, c: Cell, seeds: Cell -> nat, clear: Cell -> bool, d: Dims) {
    exists p :: IsPath(p, clear, d) && p[|p| - 1] == c && LevelAlong(p, seeds) == level
  }

  // `level` is the flood of `seeds`: at every cell the greatest level that any light path brings there.
  // The one-cell path counts, so a cell never falls below its seed.
  ghost predicate IsFlood(level: Cell -> nat, seeds: Cell -> nat, clear: Cell -> bool, d: Dims) {
    && (forall c :: InVolume(c, d) ==> Attained(level(c), c, seeds, clear, d))
    && (forall p :: IsPath(p, clear, d) ==> LevelAlong(p, seeds) <= level(p[|p| - 1]))
  }

  // The specification leaves no freedom: a seed field has exactly one flood.
  lemma FloodIsUnique(a: Cell -> nat, b: Cell -> nat, seeds: Cell -> nat, clear: Cell -> bool, d: Dims, c: Cell)
    requires IsFlood(a, seeds, clear, d) && IsFlood(b, seeds, clear, d) && InVolume(c, d)
    ensures a(c) == b(c)
  {
    FloodAtMost(a, b, seeds, clear, d, c);
    FloodAtMost(b, a, seeds, clear, d, c);
  }

  lemma FloodAtMost(a: Cell -> nat, b: Cell -> nat, seeds: Cell -> nat, clear: Cell -> bool, d: Dims, c: Cell)
    requires Attained(a(c), c, seeds, clear, d)
    requires IsFlood(b, seeds, clear, d)
    ensures a(c) <= b(c)
  {
  }

  // A field that never drops by more than one level into a clear neighbour bounds every path.
  lemma {:induction false} SettledBoundsPaths(p: seq<Cell>, level: Cell -> nat, seeds: Cell -> nat,
      clear: Cell -> bool, d: Dims)
    requires forall c :: InVolume(c, d) ==> seeds(c) <= level(c)
    requires forall c, dir: Direction :: InVolume(c, d) && InVolume(Step(c, dir), d) && clear(Step(c, dir)) ==>
               level(c) - 1 <= level(Step(c, dir))
    requires IsPath(p, clear, d)
    ensures LevelAlong(p, seeds) <= level(p[|p| - 1])
  {
    if |p| == 1 {
    } else {
      var q := p[..|p| - 1];
      forall k: nat | k < |q| - 1
        ensures Enters(q, k, clear)
      {
        assert Enters(p, k, clear);
      }
      SettledBoundsPaths(q, level, seeds, clear, d);
      var a, b := q[|q| - 1], p[|p| - 1];
      assert Enters(p, |p| - 2, clear);
      var dir: Direction :| Step(a, dir) == b;
    }
  }

  // The two facts a propagation has to establish.
  lemma FloodFromSettled(level: Cell -> nat, seeds: Cell -> nat, clear: Cell -> bool, d: Dims)
    requires forall c :: InVolume(c, d) ==> Attained(level(c), c, seeds, clear, d)
    requires forall c :: InVolume(c, d) ==> seeds(c) <= level(c)
    requires forall c, dir: Direction :: InVolume(c, d) && InVolume(Step(c, dir), d) && clear(Step(c, dir)) ==>
               level(c) - 1 <= level(Step(c, dir))
    ensures IsFlood(level, seeds, clear, d)
  {
    forall p | IsPath(p, clear, d)
      ensures LevelAlong(p, seeds) <= level(p[|p| - 1])
    {
      SettledBoundsPaths(p, level, seeds, clear, d);
    }
  }

  // A flood lies between its seeds and their maximum.
  lemma FloodBounds(level: Cell -> nat, seeds: Cell -> nat, clear: Cell -> bool, d: Dims, max: nat, c: Cell)
    requires IsFlood(level, seeds, clear, d) && InVolume(c, d)
    requires forall s :: InVolume(s, d) ==> seeds(s) <= max
    ensures seeds(c) <= level(c) <= max
  {
    assert IsPath([c], clear, d);
    assert Attained(level(c), c, seeds, clear, d);
  }
}
