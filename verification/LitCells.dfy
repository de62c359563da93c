/** What a client sees of the light of a built world, cell by cell. */
module LitCells {
  import opened Prelude
  import opened LightVolume
  import opened LightFlood
  import opened Schematics
  import opened WorldSections
  import opened WorldLight

  // ---- Floods, one cell at a time -----------------------------------------------------------

  lemma StepBack(c: Cell, dir: Direction)
    ensures Step(Step(c, dir), Opposite(dir)) == c
  {
  }

  // A path that brings a cell its light, and the path of one cell.
  lemma PathTo(level: Cell -> nat, seeds: Cell -> nat, clear: Cell -> bool, d: Dims, c: Cell) returns (p: seq<Cell>)
    requires IsFlood(level, seeds, clear, d) && InVolume(c, d)
    ensures IsPath(p, clear, d) && |p| > 0 && p[|p| - 1] == c && LevelAlong(p, seeds) == level(c)
    ensures seeds(c) <= level(c)
  {
    assert IsPath([c], clear, d);
    p :| IsPath(p, clear, d) && p[|p| - 1] == c && LevelAlong(p, seeds) == level(c);
  }

  // Light does not enter a cell that is not clear.
  lemma SolidKeepsSeed(level: Cell -> nat, seeds: Cell -> nat, clear: Cell -> bool, d: Dims, c: Cell)
    requires IsFlood(level, seeds, clear, d) && InVolume(c, d) && !clear(c)
    ensures level(c) == seeds(c)
  {
    var p := PathTo(level, seeds, clear, d, c);
    if |p| > 1 {
      var _ := LastStep(p, clear, d);
      assert false;
    }
  }

  // A clear cell is at most one level darker than a neighbour.
  lemma ClearFollowsNeighbor(level: Cell -> nat, seeds: Cell -> nat, clear: Cell -> bool, d: Dims, c: Cell,
                             dir: Direction)
    requires IsFlood(level, seeds, clear, d) && InVolume(c, d) && InVolume(Step(c, dir), d) && clear(c)
    ensures level(c) >= level(Step(c, dir)) - 1
  {
    StepBack(c, dir);
    StepAttained(level(Step(c, dir)), Step(c, dir), Opposite(dir), seeds, clear, d);
  }

  // Light beyond its seed comes to a cell from a neighbour that is one level brighter.
  lemma LightHasSource(level: Cell -> nat, seeds: Cell -> nat, clear: Cell -> bool, d: Dims, c: Cell)
    requires IsFlood(level, seeds, clear, d) && InVolume(c, d)
    ensures seeds(c) <= level(c)
    ensures level(c) == seeds(c) ||
            exists dir: Direction :: InVolume(Step(c, dir), d) && level(Step(c, dir)) == level(c) + 1
  {
    hide IsFlood, IsPath;
    var p := PathTo(level, seeds, clear, d, c);
    if |p| > 1 {
      var dir := LastStep(p, clear, d);
      BeforeLast(p, level, seeds, clear, d);
      StepBack(p[|p| - 2], dir);
      ClearFollowsNeighbor(level, seeds, clear, d, c, Opposite(dir));
    }
  }

  lemma BeforeLast(p: seq<Cell>, level: Cell -> nat, seeds: Cell -> nat, clear: Cell -> bool, d: Dims)
    requires IsFlood(level, seeds, clear, d) && |p| > 1 && IsPath(p[..|p| - 1], clear, d)
    ensures LevelAlong(p, seeds) + 1 <= level(p[|p| - 2])
  {
    var q := p[..|p| - 1];
    assert q[|q| - 1] == p[|p| - 2] && q[0] == p[0];
    assert LevelAlong(q, seeds) <= level(q[|q| - 1]);
  }

  // A path of more than one cell leads up to its last cell.
  lemma LastStep(p: seq<Cell>, clear: Cell -> bool, d: Dims) returns (dir: Direction)
    requires IsPath(p, clear, d) && |p| > 1
    ensures IsPath(p[..|p| - 1], clear, d) && Step(p[|p| - 2], dir) == p[|p| - 1]
    ensures InVolume(p[|p| - 2], d) && clear(p[|p| - 1])
  {
    var q := p[..|p| - 1];
    forall k: nat | k < |q| - 1
      ensures Enters(q, k, clear)
    {
      assert Enters(p, k, clear);
    }
    assert Enters(p, |p| - 2, clear);
    dir :| Step(p[|p| - 2], dir) == p[|p| - 1];
  }

  // ---- What is read -------------------------------------------------------------------------

  // Every block from a cell to the top of the volume lets light through.
  predicate SeesSky(s: Schematic, c: Cell)
    requires s.Valid()
  {
    forall y :: c.y <= y < VolumeOf(s).height ==> s.BlockState(c.(y := y)).transparent
  }

  function SkyAt(w: LitWorld, c: Cell): Option<nat>
    requires c.x >= 0 && c.y >= 0 && c.z >= 0
  {
    ReadLight(w.skyLight, w.size, c)
  }

  function BlockAt(w: LitWorld, c: Cell): Option<nat>
    requires c.x >= 0 && c.y >= 0 && c.z >= 0
  {
    ReadLight(w.blockLight, w.size, c)
  }

  // Two levels of which the first is at most one below the second.
  predicate AtMostOneBelow(level: Option<nat>, other: Option<nat>) {
    level.Some? && other.Some? && level.value >= other.value - 1
  }

  predicate OneBelow(level: Option<nat>, other: Option<nat>) {
    level.Some? && other.Some? && other.value == level.value + 1
  }

  // An opaque block is dark to the sky, and as bright as the light it emits.
  lemma SolidIsDark(w: LitWorld, s: Schematic, c: Cell)
    requires s.Valid() && LightRefinesSchematic(w, s) && InVolume(c, VolumeOf(s)) && !s.BlockState(c).transparent
    ensures SkyAt(w, c) == Some(0) && BlockAt(w, c) == Some(s.BlockState(c).emitted)
  {
    hide LightRefinesSchematic, IsFlood, ReadLight, VolumeOf;
    var d := VolumeOf(s);
    var sky, block := Floods(w, s);
    SolidKeepsSeed(sky, SkySeeds(s, d), ClearCells(s, d), d, c);
    SolidKeepsSeed(block, BlockSeeds(s), ClearCells(s, d), d, c);
  }

  // A cell under the open sky is as bright as can be.
  lemma OpenIsBright(w: LitWorld, s: Schematic, c: Cell)
    requires s.Valid() && LightRefinesSchematic(w, s) && InVolume(c, VolumeOf(s)) && SeesSky(s, c)
    ensures SkyAt(w, c) == Some(15)
  {
    hide LightRefinesSchematic, IsFlood, ReadLight, VolumeOf;
    var d := VolumeOf(s);
    var sky, _ := Floods(w, s);
    assert s.BlockState(c.(y := c.y)).transparent;
    forall y | c.y < y < d.height
      ensures Transparent(s, c.(y := y))
    {
      assert s.BlockState(c.(y := y)).transparent;
    }
    FloodBounds(sky, SkySeeds(s, d), ClearCells(s, d), d, 15, c);
  }

  // Light loses at most one level from a cell to a transparent neighbour.
  lemma LightSpreads(w: LitWorld, s: Schematic, c: Cell, dir: Direction)
    requires s.Valid() && LightRefinesSchematic(w, s) && s.BlockState(c).transparent
    requires InVolume(c, VolumeOf(s)) && InVolume(Step(c, dir), VolumeOf(s))
    ensures AtMostOneBelow(SkyAt(w, c), SkyAt(w, Step(c, dir)))
    ensures AtMostOneBelow(BlockAt(w, c), BlockAt(w, Step(c, dir)))
  {
    hide LightRefinesSchematic, IsFlood, ReadLight, VolumeOf;
    var d := VolumeOf(s);
    var sky, block := Floods(w, s);
    ClearFollowsNeighbor(sky, SkySeeds(s, d), ClearCells(s, d), d, c, dir);
    ClearFollowsNeighbor(block, BlockSeeds(s), ClearCells(s, d), d, c, dir);
  }

  // There is no other light: a cell that does not see the sky is dark, or has it from a neighbour one level
  // brighter; a cell is as bright as its block, or has its light from such a neighbour.
  lemma LightComesFromSomewhere(w: LitWorld, s: Schematic, c: Cell)
    requires s.Valid() && LightRefinesSchematic(w, s) && InVolume(c, VolumeOf(s))
    ensures SeesSky(s, c) || SkyAt(w, c) == Some(0) ||
            exists dir: Direction ::
              InVolume(Step(c, dir), VolumeOf(s)) && OneBelow(SkyAt(w, c), SkyAt(w, Step(c, dir)))
    ensures BlockAt(w, c) == Some(s.BlockState(c).emitted) ||
            exists dir: Direction ::
              InVolume(Step(c, dir), VolumeOf(s)) && OneBelow(BlockAt(w, c), BlockAt(w, Step(c, dir)))
  {
    hide LightRefinesSchematic, IsFlood, ReadLight, VolumeOf;
    var d := VolumeOf(s);
    var sky, block := Floods(w, s);
    LightHasSource(sky, SkySeeds(s, d), ClearCells(s, d), d, c);
    LightHasSource(block, BlockSeeds(s), ClearCells(s, d), d, c);
  }

  lemma Floods(w: LitWorld, s: Schematic) returns (sky: Cell -> nat, block: Cell -> nat)
    requires s.Valid() && LightRefinesSchematic(w, s)
    ensures IsFlood(sky, SkySeeds(s, VolumeOf(s)), ClearCells(s, VolumeOf(s)), VolumeOf(s))
    ensures IsFlood(block, BlockSeeds(s), ClearCells(s, VolumeOf(s)), VolumeOf(s))
    ensures forall c :: InVolume(c, VolumeOf(s)) ==> SkyAt(w, c) == Some(sky(c)) && BlockAt(w, c) == Some(block(c))
  {
    hide IsFlood, ReadLight, VolumeOf, SectionInBounds;
    sky, block :| IsFlood(sky, SkySeeds(s, VolumeOf(s)), ClearCells(s, VolumeOf(s)), VolumeOf(s))
      && IsFlood(block, BlockSeeds(s), ClearCells(s, VolumeOf(s)), VolumeOf(s))
      && ReadsAs(w.skyLight, w.size, sky, VolumeOf(s))
      && ReadsAs(w.blockLight, w.size, block, VolumeOf(s));
  }

  // ---- Where it stands ----------------------------------------------------------------------

  // The level of a cell is half a byte: of even x the low half, of odd x the high one, in y, z, x order within its
  // section.
  lemma LevelStandsAt(columns: seq<seq<seq<nat>>>, size: Cell, c: Cell)
    requires c.x >= 0 && c.y >= 0 && c.z >= 0 && ReadLight(columns, size, c).Some?
    ensures var index := c.x / 16 * size.z + c.z / 16;
            var k := c.y % 16 * 128 + c.z % 16 * 8 + c.x % 16 / 2;
            && 0 <= index < |columns| && c.y / 16 < |columns[index]| && k < |columns[index][c.y / 16]|
            && ReadLight(columns, size, c) ==
                 Some(if c.x % 2 == 0 then columns[index][c.y / 16][k] % 16 else columns[index][c.y / 16][k] / 16)
  {
    var column := GetChunkLight(columns, size, c.x / 16, c.z / 16).value;
    var local := LocalIndex(Cell(c.x % 16, c.y % 16, c.z % 16));
    LocalHalf(c.x % 16, c.y % 16, c.z % 16);
    SameParity(c.x);
    hide Nibble, LocalIndex;
    NibbleIsHalf(column[c.y / 16], local);
  }

  lemma SameParity(x: nat)
    ensures x % 16 % 2 == x % 2
  {
  }

  lemma LocalHalf(x: nat, y: nat, z: nat)
    ensures LocalIndex(Cell(x, y, z)) / 2 == y * 128 + z * 8 + x / 2 && LocalIndex(Cell(x, y, z)) % 2 == x % 2
  {
  }

  // A cell of any column outside the world has no light to read.
  lemma NothingOutside(columns: seq<seq<seq<nat>>>, size: Cell, c: Cell)
    requires c.x >= 0 && c.y >= 0 && c.z >= 0 && AreByteSections(columns, size)
    ensures ReadLight(columns, size, c).Some? <==> c.x < 16 * size.x && c.y < 16 * size.y && c.z < 16 * size.z
  {
    hide Nibble;
    if c.x / 16 < size.x && c.z / 16 < size.z {
      ColumnInRange(c.x / 16, c.z / 16, size);
      LocalHalf(c.x % 16, c.y % 16, c.z % 16);
    }
  }
}
