/** The light of a world built from a schematic: seeds, propagation, and the nibble arrays sent per section. */
module WorldLight {
  import opened Prelude
  import opened Bits
  import opened LightVolume
  import opened LightFlood
  import opened Schematics
  import opened ChunkProcessors
  import opened WorldSections

  // ---- The light volume of a schematic ------------------------------------------------------

  // The lit box: the schematic rounded up to whole sections.
  function VolumeOf(s: Schematic): (d: Dims)
    ensures d == Dims(16 * ChunksFor(s.width), 16 * ChunksFor(s.length), 16 * ChunksFor(s.height))
  {
    var size := SizeInChunks(s);
    Dims(Max(s.width, size.x * 16), Max(s.length, size.z * 16), size.y * 16)
  }

  function Transparent(s: Schematic, c: Cell): bool
    requires s.Valid()
  {
    s.BlockState(c).transparent
  }

  // Nothing between a cell and the top of the volume stops sky light.
  predicate OpenAbove(s: Schematic, c: Cell, height: nat)
    requires s.Valid()
  {
    forall y :: c.y < y < height ==> Transparent(s, c.(y := y))
  }

  function SkySeed(s: Schematic, c: Cell, height: nat): nat
    requires s.Valid()
  {
    if Transparent(s, c) && OpenAbove(s, c, height) then 15 else 0
  }

  function BlockSeed(s: Schematic, c: Cell): nat
    requires s.Valid()
  {
    s.BlockState(c).emitted
  }

  // ---- Seeding ------------------------------------------------------------------------------

  method ComputeTransparency(s: Schematic, d: Dims) returns (transparent: seq<bool>)
    requires s.Valid()
    ensures |transparent| == d.Volume()
    ensures forall i: nat :: i < |transparent| ==> transparent[i] == Transparent(s, CellAtIndex(i, d))
  {
    transparent := [];
    while |transparent| < d.Volume()
      invariant |transparent| <= d.Volume()
      invariant forall i: nat :: i < |transparent| ==> transparent[i] == Transparent(s, CellAtIndex(i, d))
    {
      transparent := transparent + [Transparent(s, CellAtIndex(|transparent|, d))];
    }
  }

  // What the two seed volumes must hold, and which column and layer each index belongs to.
  datatype SeedPlan = SeedPlan(sky: seq<nat>, block: seq<nat>, clear: seq<bool>, column: seq<nat>, layer: seq<nat>)

  ghost predicate PlanOf(p: SeedPlan, s: Schematic, d: Dims)
    requires s.Valid()
  {
    && |p.sky| == |p.block| == |p.clear| == |p.column| == |p.layer| == d.Volume()
    && (forall i: nat {:trigger CellAtIndex(i, d)} :: i < d.Volume() ==>
          var c := CellAtIndex(i, d);
          && p.sky[i] == SkySeed(s, c, d.height) && p.block[i] == BlockSeed(s, c) && p.clear[i] == Transparent(s, c)
          && p.column[i] == c.z * d.width + c.x && p.layer[i] == c.y)
  }

  lemma PlanExists(s: Schematic, d: Dims) returns (p: SeedPlan)
    requires s.Valid()
    ensures PlanOf(p, s, d)
  {
    var v := d.Volume();
    p := SeedPlan(
      seq(v, (i: nat) requires i < v => SkySeed(s, CellAtIndex(i, d), d.height)),
      seq(v, (i: nat) requires i < v => BlockSeed(s, CellAtIndex(i, d))),
      seq(v, (i: nat) requires i < v => Transparent(s, CellAtIndex(i, d))),
      seq(v, (i: nat) requires i < v => var c := CellAtIndex(i, d); c.z * d.width + c.x),
      seq(v, (i: nat) requires i < v => CellAtIndex(i, d).y));
  }

  // The index of a cell is the only one of its column and layer.
  lemma PlannedCell(p: SeedPlan, s: Schematic, d: Dims, c: Cell, i: nat)
    requires s.Valid() && PlanOf(p, s, d) && InVolume(c, d) && i == IndexOf(c, d)
    ensures i < |p.sky| == |p.block| == |p.column| == |p.layer|
    ensures p.column[i] == c.z * d.width + c.x && p.layer[i] == c.y
    ensures p.sky[i] == SkySeed(s, c, d.height) && p.block[i] == BlockSeed(s, c) && p.clear[i] == Transparent(s, c)
  {
    IndexInRange(c, d);
    assert CellAtIndex(i, d) == c;
  }

  lemma PlannedIndex(p: SeedPlan, s: Schematic, d: Dims, c: Cell, i: nat, k: nat)
    requires s.Valid() && PlanOf(p, s, d) && InVolume(c, d) && i == IndexOf(c, d)
    requires k < |p.column| && p.column[k] == c.z * d.width + c.x && p.layer[k] == c.y
    ensures k == i
  {
    CellInVolume(k, d);
    var b := CellAtIndex(k, d);
    DivModUnique(c.z * d.width + c.x, d.width, c.z, c.x);
    DivModUnique(b.z * d.width + b.x, d.width, b.z, b.x);
    assert b == c;
  }

  predicate ClearFrom(s: Schematic, x: int, z: int, y: int, height: nat)
    requires s.Valid()
  {
    forall above :: y <= above < height ==> Transparent(s, Cell(x, above, z))
  }

  lemma OneLower(s: Schematic, c: Cell, height: nat)
    requires s.Valid() && c.y < height
    ensures ClearFrom(s, c.x, c.z, c.y, height) <==> Transparent(s, c) && ClearFrom(s, c.x, c.z, c.y + 1, height)
    ensures SkySeed(s, c, height) == if ClearFrom(s, c.x, c.z, c.y, height) then 15 else 0
  {
  }

  // The indices of one column from layer y up hold their seeds, all others what they held before.
  ghost predicate ColumnSeeded(now: seq<nat>, before: seq<nat>, seeds: seq<nat>, p: SeedPlan, column: int, y: nat) {
    && |now| == |before| == |seeds| == |p.column| == |p.layer|
    && (forall i :: 0 <= i < |now| ==>
          now[i] == if p.column[i] == column && p.layer[i] >= y then seeds[i] else before[i])
  }

  lemma SeedOne(now: seq<nat>, before: seq<nat>, seeds: seq<nat>, p: SeedPlan, s: Schematic, d: Dims, c: Cell, i: nat)
    requires s.Valid() && PlanOf(p, s, d) && InVolume(c, d) && i == IndexOf(c, d)
    requires |seeds| == |p.column| && ColumnSeeded(now, before, seeds, p, c.z * d.width + c.x, c.y + 1)
    ensures i < |now| && ColumnSeeded(now[i := seeds[i]], before, seeds, p, c.z * d.width + c.x, c.y)
    ensures i < |before| && now[i] == before[i]
  {
    PlannedCell(p, s, d, c, i);
    forall k: nat | k < |now| && p.column[k] == c.z * d.width + c.x && p.layer[k] == c.y
      ensures k == i
    {
      PlannedIndex(p, s, d, c, i, k);
    }
  }

  // Seeds one column from the top down: sky light falls until the first block that stops it.
  method SeedColumn(sky: array<nat>, block: array<nat>, transparent: seq<bool>, s: Schematic, d: Dims, x: nat, z: nat,
                    ghost p: SeedPlan)
    requires s.Valid() && PlanOf(p, s, d) && transparent == p.clear && x < d.width && z < d.length
    requires sky.Length == block.Length == |p.column| && sky != block
    requires forall i :: 0 <= i < |p.column| && p.column[i] == z * d.width + x ==> sky[i] == 0 && block[i] == 0
    modifies sky, block
    ensures ColumnSeeded(sky[..], old(sky[..]), p.sky, p, z * d.width + x, 0)
    ensures ColumnSeeded(block[..], old(block[..]), p.block, p, z * d.width + x, 0)
  {
    ghost var column := z * d.width + x;
    var skyLight := 15;
    var y := d.height;
    NoneSeeded(sky[..], p.sky, p, s, d, column);
    NoneSeeded(block[..], p.block, p, s, d, column);
    assert ClearFrom(s, x, z, y, d.height);
    hide ColumnSeeded, PlanOf, ClearFrom, IndexOf;
    while y > 0
      invariant 0 <= y <= d.height
      invariant skyLight == if ClearFrom(s, x, z, y, d.height) then 15 else 0
      invariant ColumnSeeded(sky[..], old(sky[..]), p.sky, p, column, y)
      invariant ColumnSeeded(block[..], old(block[..]), p.block, p, column, y)
    {
      y := y - 1;
      var c := Cell(x, y, z);
      var idx := IndexOf(c, d);
      ghost var skyBefore, blockBefore := sky[..], block[..];
      PlannedCell(p, s, d, c, idx);
      SeedOne(skyBefore, old(sky[..]), p.sky, p, s, d, c, idx);
      SeedOne(blockBefore, old(block[..]), p.block, p, s, d, c, idx);
      OneLower(s, c, d.height);
      if transparent[idx] {
        sky[idx] := skyLight;
      } else {
        skyLight := 0;
      }
      var emitted := s.BlockState(c).emitted;
      if emitted > 0 {
        block[idx] := emitted;
      }
      assert sky[..] == skyBefore[idx := p.sky[idx]];
      assert block[..] == blockBefore[idx := p.block[idx]];
    }
  }

  lemma NoneSeeded(now: seq<nat>, seeds: seq<nat>, p: SeedPlan, s: Schematic, d: Dims, column: int)
    requires s.Valid() && PlanOf(p, s, d) && |now| == |seeds| == |p.column|
    ensures ColumnSeeded(now, now, seeds, p, column, d.height)
  {
    forall i: nat | i < |p.layer|
      ensures p.layer[i] < d.height
    {
      CellInVolume(i, d);
      assert p.layer[i] == CellAtIndex(i, d).y;
    }
  }

  // The indices of the columns below `columns` hold their seeds, all others zero.
  ghost predicate ColumnsSeeded(now: seq<nat>, seeds: seq<nat>, p: SeedPlan, columns: int) {
    && |now| == |seeds| == |p.column|
    && (forall i :: 0 <= i < |now| ==> now[i] == if p.column[i] < columns then seeds[i] else 0)
  }

  lemma NoColumnSeeded(now: seq<nat>, seeds: seq<nat>, p: SeedPlan)
    requires |now| == |seeds| == |p.column| && forall i :: 0 <= i < |now| ==> now[i] == 0
    ensures ColumnsSeeded(now, seeds, p, 0)
  {
  }

  lemma ColumnIsZero(now: seq<nat>, seeds: seq<nat>, p: SeedPlan, column: int)
    requires ColumnsSeeded(now, seeds, p, column)
    ensures |now| == |p.column| && forall i :: 0 <= i < |now| && p.column[i] == column ==> now[i] == 0
  {
  }

  lemma NextColumn(now: seq<nat>, before: seq<nat>, seeds: seq<nat>, p: SeedPlan, column: int)
    requires ColumnsSeeded(before, seeds, p, column) && ColumnSeeded(now, before, seeds, p, column, 0)
    ensures ColumnsSeeded(now, seeds, p, column + 1)
  {
  }

  lemma AllColumnsSeeded(now: seq<nat>, seeds: seq<nat>, p: SeedPlan, s: Schematic, d: Dims)
    requires s.Valid() && PlanOf(p, s, d) && ColumnsSeeded(now, seeds, p, d.width * d.length)
    ensures now == seeds
  {
    ColumnsBound(p, s, d);
  }

  lemma ColumnsBound(p: SeedPlan, s: Schematic, d: Dims)
    requires s.Valid() && PlanOf(p, s, d)
    ensures forall i :: 0 <= i < |p.column| ==> p.column[i] < d.width * d.length
  {
    forall i: nat | i < |p.column|
      ensures p.column[i] < d.width * d.length
    {
      CellInVolume(i, d);
      var c := CellAtIndex(i, d);
      RowBound(d.width, d.length, c.z, c.x);
    }
  }

  // Seeds both volumes, column by column.
  method SeedVolumes(s: Schematic, d: Dims, transparent: seq<bool>, ghost p: SeedPlan)
    returns (sky: array<nat>, block: array<nat>)
    requires s.Valid() && PlanOf(p, s, d) && transparent == p.clear
    ensures fresh(sky) && fresh(block) && sky != block
    ensures sky[..] == p.sky && block[..] == p.block
  {
    sky := new nat[d.Volume()](_ => 0);
    block := new nat[d.Volume()](_ => 0);
    var columnCount := d.width * d.length;
    var col := 0;
    NoColumnSeeded(sky[..], p.sky, p);
    NoColumnSeeded(block[..], p.block, p);
    hide PlanOf, ColumnSeeded, ColumnsSeeded;
    while col < columnCount
      invariant 0 <= col <= columnCount
      invariant ColumnsSeeded(sky[..], p.sky, p, col) && ColumnsSeeded(block[..], p.block, p, col)
    {
      var x, z := col % d.width, col / d.width;
      ColumnPosition(col, d.width, d.length);
      ghost var skyBefore, blockBefore := sky[..], block[..];
      ColumnIsZero(skyBefore, p.sky, p, col);
      ColumnIsZero(blockBefore, p.block, p, col);
      SeedColumn(sky, block, transparent, s, d, x, z, p);
      NextColumn(sky[..], skyBefore, p.sky, p, col);
      NextColumn(block[..], blockBefore, p.block, p, col);
      col := col + 1;
    }
    AllColumnsSeeded(sky[..], p.sky, p, s, d);
    AllColumnsSeeded(block[..], p.block, p, s, d);
  }

  lemma ColumnPosition(col: nat, width: nat, length: nat)
    requires col < width * length
    ensures width > 0 && col / width < length && col == (col / width) * width + col % width
  {
  }

  // ---- Light of the whole volume ------------------------------------------------------------

  function ClearCells(s: Schematic, d: Dims): Cell -> bool
    requires s.Valid()
  {
    c => InVolume(c, d) && Transparent(s, c)
  }

  function SkySeeds(s: Schematic, d: Dims): Cell -> nat
    requires s.Valid()
  {
    c => SkySeed(s, c, d.height)
  }

  function BlockSeeds(s: Schematic): Cell -> nat
    requires s.Valid()
  {
    c => BlockSeed(s, c)
  }

  ghost predicate SameInside<T(!new)>(f: Cell -> T, g: Cell -> T, d: Dims) {
    forall c :: InVolume(c, d) ==> f(c) == g(c)
  }

  lemma AttainedCongruence(level: int, c: Cell, seeds: Cell -> nat, clear: Cell -> bool, seeds': Cell -> nat,
      clear': Cell -> bool, d: Dims)
    requires Attained(level, c, seeds, clear, d)
    requires SameInside(seeds, seeds', d) && SameInside(clear, clear', d)
    ensures Attained(level, c, seeds', clear', d)
  {
    var p :| IsPath(p, clear, d) && p[|p| - 1] == c && LevelAlong(p, seeds) == level;
    PathCongruence(p, clear, clear', d);
  }

  // A flood depends on its seeds and clear cells only inside the volume.
  lemma FloodCongruence(level: Cell -> nat, seeds: Cell -> nat, clear: Cell -> bool, seeds': Cell -> nat,
      clear': Cell -> bool, d: Dims)
    requires IsFlood(level, seeds, clear, d)
    requires SameInside(seeds, seeds', d) && SameInside(clear, clear', d)
    ensures IsFlood(level, seeds', clear', d)
  {
    forall c | InVolume(c, d)
      ensures Attained(level(c), c, seeds', clear', d)
    {
      AttainedCongruence(level(c), c, seeds, clear, seeds', clear', d);
    }
    forall p | IsPath(p, clear', d)
      ensures LevelAlong(p, seeds') <= level(p[|p| - 1])
    {
      PathCongruence(p, clear', clear, d);
    }
  }

  lemma PathCongruence(p: seq<Cell>, clear: Cell -> bool, clear': Cell -> bool, d: Dims)
    requires IsPath(p, clear, d) && SameInside(clear, clear', d)
    ensures IsPath(p, clear', d)
  {
    forall k: nat | k < |p| - 1
      ensures Enters(p, k, clear')
    {
      assert Enters(p, k, clear);
    }
  }

  lemma PlannedFields(p: SeedPlan, s: Schematic, d: Dims)
    requires s.Valid() && PlanOf(p, s, d)
    ensures SameInside(FieldOf(p.sky, d), SkySeeds(s, d), d)
    ensures SameInside(FieldOf(p.block, d), BlockSeeds(s), d)
    ensures SameInside(ClearOf(p.clear, d), ClearCells(s, d), d)
  {
    forall c | InVolume(c, d)
      ensures FieldOf(p.sky, d)(c) == SkySeeds(s, d)(c) && FieldOf(p.block, d)(c) == BlockSeeds(s)(c)
      ensures ClearOf(p.clear, d)(c) == ClearCells(s, d)(c)
    {
      PlannedCell(p, s, d, c, IndexOf(c, d));
    }
  }

  // Both light volumes are floods: of the open sky, and of the light the blocks emit.
  ghost predicate LightOk(sky: seq<nat>, block: seq<nat>, s: Schematic, d: Dims)
    requires s.Valid() && |sky| == |block| == d.Volume()
  {
    && IsFlood(FieldOf(sky, d), SkySeeds(s, d), ClearCells(s, d), d)
    && IsFlood(FieldOf(block, d), BlockSeeds(s), ClearCells(s, d), d)
  }

  lemma PlannedFloods(sky: seq<nat>, block: seq<nat>, p: SeedPlan, s: Schematic, d: Dims)
    requires s.Valid() && PlanOf(p, s, d) && |sky| == |block| == d.Volume()
    requires Floods(sky, p.sky, p.clear, d) && Floods(block, p.block, p.clear, d)
    ensures LightOk(sky, block, s, d)
  {
    PlannedFields(p, s, d);
    FloodCongruence(FieldOf(sky, d), FieldOf(p.sky, d), ClearOf(p.clear, d), SkySeeds(s, d), ClearCells(s, d), d);
    FloodCongruence(FieldOf(block, d), FieldOf(p.block, d), ClearOf(p.clear, d), BlockSeeds(s), ClearCells(s, d), d);
  }

  lemma SeedsAreNibbles(p: SeedPlan, s: Schematic, d: Dims)
    requires s.Valid() && PlanOf(p, s, d)
    ensures forall i :: 0 <= i < |p.sky| ==> p.sky[i] <= 15 && p.block[i] <= 15
  {
    forall i: nat | i < |p.sky|
      ensures p.sky[i] <= 15 && p.block[i] <= 15
    {
      assert p.block[i] == BlockSeed(s, CellAtIndex(i, d));
      assert s.BlockState(CellAtIndex(i, d)) in s.palette;
    }
  }

  method CalculateLight(s: Schematic, d: Dims) returns (sky: array<nat>, block: array<nat>)
    requires s.Valid() && d.Volume() <= 0x7FFF_FFFF
    ensures sky.Length == block.Length == d.Volume()
    ensures LightOk(sky[..], block[..], s, d)
  {
    var transparent := ComputeTransparency(s, d);
    ghost var p := PlanExists(s, d);
    assert transparent == p.clear by {
      forall i: nat | i < |transparent|
        ensures transparent[i] == p.clear[i]
      {
        assert transparent[i] == Transparent(s, CellAtIndex(i, d));
      }
    }
    sky, block := SeedVolumes(s, d, transparent, p);
    SeedsAreNibbles(p, s, d);
    ghost var queued := PropagateLight(sky, transparent, d);
    ghost var lit := sky[..];
    queued := PropagateLight(block, transparent, d);
    assert sky[..] == lit;
    PlannedFloods(sky[..], block[..], p, s, d);
  }

  // ---- Nibble arrays ------------------------------------------------------------------------

  const SECTION_BYTES: nat := 2048

  // A light section: two levels a byte, the even position in the low half.
  predicate IsSection(data: seq<nat>) {
    |data| == SECTION_BYTES && forall k :: 0 <= k < |data| ==> data[k] < 256
  }

  function Nibble(data: seq<nat>, i: nat): nat
    requires i / 2 < |data|
  {
    if i % 2 == 1 then Shr(data[i / 2], 4) else And(data[i / 2], 0xF)
  }

  // A byte by its two halves.
  function HalfOf(byte: nat, i: nat): nat {
    if i % 2 == 1 then byte / 16 else byte % 16
  }

  lemma NibbleIsHalf(data: seq<nat>, i: nat)
    requires i / 2 < |data|
    ensures Nibble(data, i) == HalfOf(data[i / 2], i)
  {
    SmallPowers();
    ShrIsDiv(data[i / 2], 4);
    AndMask(data[i / 2], 4);
  }

  // The position of a local cell, its coordinates or-ed together from disjoint bit ranges.
  function PackedLocal(x: nat, y: nat, z: nat): nat {
    Or(Or(Shl(y, 8, 32), Shl(z, 4, 32)), x)
  }

  lemma PackedLocalIsIndex(x: nat, y: nat, z: nat)
    requires x < 16 && y < 16 && z < 16
    ensures PackedLocal(x, y, z) == y * 256 + z * 16 + x
  {
    hide Or, Shl;
    SmallPowers();
    WordPowers();
    ShlFits(y, 8, 32);
    ShlFits(z, 4, 32);
    OrFields(z * 16, y, 256, 8);
    OrFields(x, y * 16 + z, 16, 4);
  }

  lemma OrFields(low: nat, high: nat, p: nat, k: nat)
    requires p == Pow2(k) && low < p
    ensures Or(high * p, low) == high * p + low && Or(low, high * p) == low + high * p
  {
    DivModUnique(high * p, p, high, 0);
    OrDisjoint(low, high * p, k);
  }

  lemma StoreHigh(byte: nat, level: nat)
    requires byte < 16 && level <= 15
    ensures Or(byte, Shl(level, 4, 8)) == byte + level * 16
  {
    SmallPowers();
    ShlFits(level, 4, 8);
    OrFields(byte, level, 16, 4);
  }

  lemma StoreLow(byte: nat, level: nat)
    requires byte % 16 == 0 && level <= 15
    ensures Or(byte, level) == byte + level
  {
    SmallPowers();
    OrFields(level, byte / 16, 16, 4);
  }

  // A byte after a level has been or-ed into one of its halves.
  function WithNibble(byte: nat, i: nat, level: nat): nat {
    if i % 2 == 1 then Or(byte, Shl(level, 4, 8)) else Or(byte, level)
  }

  lemma WithNibbleHalves(byte: nat, i: nat, level: nat, k: nat)
    requires byte < 256 && HalfOf(byte, i) == 0 && level <= 15
    ensures WithNibble(byte, i, level) < 256
    ensures HalfOf(WithNibble(byte, i, level), k) == if k % 2 == i % 2 then level else HalfOf(byte, k)
  {
    if i % 2 == 1 {
      StoreHigh(byte, level);
      Halves(byte + level * 16, level, byte);
    } else {
      StoreLow(byte, level);
      Halves(byte + level, byte / 16, level);
    }
  }

  lemma Halves(byte: nat, high: nat, low: nat)
    requires byte == high * 16 + low && low < 16 && high < 16
    ensures byte / 16 == high && byte % 16 == low && byte < 256
  {
  }

  // Stores one level where none was stored yet.
  method PutNibble(data: array<nat>, index: nat, level: nat)
    requires IsSection(data[..]) && index < SECTION_VOLUME && level <= 15
    requires HalfOf(data[index / 2], index) == 0
    modifies data
    ensures IsSection(data[..])
    ensures forall i: nat :: i < SECTION_VOLUME ==>
            HalfOf(data[i / 2], i) == if i == index then level else old(HalfOf(data[i / 2], i))
  {
    var byte := data[index / 2];
    WithNibbleHalves(byte, index, level, 0);
    data[index / 2] := WithNibble(byte, index, level);
    forall i: nat | i < SECTION_VOLUME
      ensures HalfOf(data[i / 2], i) == if i == index then level else old(HalfOf(data[i / 2], i))
    {
      if i / 2 == index / 2 {
        WithNibbleHalves(byte, index, level, i);
      }
    }
  }

  // The level of the world at a local cell of a section, or the default outside the lit box.
  function LevelFor(volume: seq<nat>, d: Dims, c: Cell, defaultLight: nat): nat
    requires |volume| == d.Volume() && c.x >= 0 && c.y >= 0 && c.z >= 0
  {
    if c.x < d.width && c.z < d.length && c.y < d.height then volume[IndexOf(c, d)] else defaultLight
  }

  // The 4096 levels of a section.
  function SectionLevels(volume: seq<nat>, d: Dims, section: Cell, defaultLight: nat): (levels: seq<nat>)
    requires |volume| == d.Volume() && section.x >= 0 && section.y >= 0 && section.z >= 0
    ensures |levels| == SECTION_VOLUME
  {
    seq(SECTION_VOLUME, (i: nat) requires i < SECTION_VOLUME =>
      LevelFor(volume, d, SectionCell(section, i), defaultLight))
  }

  lemma LevelOfLocal(volume: seq<nat>, d: Dims, section: Cell, defaultLight: nat, x: nat, y: nat, z: nat)
    requires |volume| == d.Volume() && section.x >= 0 && section.y >= 0 && section.z >= 0
    requires x < 16 && y < 16 && z < 16
    ensures SectionLevels(volume, d, section, defaultLight)[y * 256 + z * 16 + x] ==
              LevelFor(volume, d, Cell(section.x * 16 + x, section.y * 16 + y, section.z * 16 + z), defaultLight)
  {
    LocalCoordinates(x, y, z, y * 256 + z * 16 + x);
  }

  lemma LevelsAreNibbles(volume: seq<nat>, d: Dims, c: Cell, defaultLight: nat)
    requires |volume| == d.Volume() && c.x >= 0 && c.y >= 0 && c.z >= 0
    requires defaultLight <= 15 && forall i :: 0 <= i < |volume| ==> volume[i] <= 15
    ensures LevelFor(volume, d, c, defaultLight) <= 15
  {
  }

  // The first n positions hold their levels, the rest nothing.
  ghost predicate Filled(data: seq<nat>, levels: seq<nat>, n: nat) {
    && IsSection(data) && |levels| == SECTION_VOLUME
    && (forall i: nat :: i < SECTION_VOLUME ==> HalfOf(data[i / 2], i) == if i < n then levels[i] else 0)
  }

  lemma NotYetFilled(data: seq<nat>, levels: seq<nat>, n: nat)
    requires Filled(data, levels, n) && n < SECTION_VOLUME
    ensures IsSection(data) && HalfOf(data[n / 2], n) == 0
  {
  }

  lemma OneMoreFilled(data: seq<nat>, before: seq<nat>, levels: seq<nat>, n: nat)
    requires Filled(before, levels, n) && n < SECTION_VOLUME && IsSection(data)
    requires forall i: nat :: i < SECTION_VOLUME ==>
               HalfOf(data[i / 2], i) == if i == n then levels[n] else HalfOf(before[i / 2], i)
    ensures Filled(data, levels, n + 1)
  {
  }

  method StoreLevel(data: array<nat>, volume: array<nat>, d: Dims, section: Cell, defaultLight: nat,
                    x: nat, y: nat, z: nat, ghost levels: seq<nat>)
    requires volume.Length == d.Volume() && section.x >= 0 && section.y >= 0 && section.z >= 0 && data != volume
    requires defaultLight <= 15 && forall i :: 0 <= i < volume.Length ==> volume[i] <= 15
    requires x < 16 && y < 16 && z < 16
    requires levels == SectionLevels(volume[..], d, section, defaultLight)
             && Filled(data[..], levels, y * 256 + z * 16 + x)
    modifies data
    ensures Filled(data[..], levels, y * 256 + z * 16 + x + 1)
  {
    hide PackedLocal, SectionLevels, LevelFor, Filled;
    var world := Cell(section.x * 16 + x, section.y * 16 + y, section.z * 16 + z);
    var level := LevelFor(volume[..], d, world, defaultLight);
    LevelsAreNibbles(volume[..], d, world, defaultLight);
    PackedLocalIsIndex(x, y, z);
    LevelOfLocal(volume[..], d, section, defaultLight, x, y, z);
    var index := PackedLocal(x, y, z);
    ghost var before := data[..];
    NotYetFilled(before, levels, index);
    PutNibble(data, index, level);
    OneMoreFilled(data[..], before, levels, index);
  }

  method FillSection(volume: array<nat>, d: Dims, section: Cell, defaultLight: nat) returns (lightData: seq<nat>)
    requires volume.Length == d.Volume() && section.x >= 0 && section.y >= 0 && section.z >= 0
    requires defaultLight <= 15 && forall i :: 0 <= i < volume.Length ==> volume[i] <= 15
    ensures Filled(lightData, SectionLevels(volume[..], d, section, defaultLight), SECTION_VOLUME)
  {
    var data := new nat[SECTION_BYTES](_ => 0);
    ghost var levels, n := SectionLevels(volume[..], d, section, defaultLight), 0;
    for y := 0 to 16
      invariant n == y * 256 && Filled(data[..], levels, n)
    {
      for z := 0 to 16
        invariant n == y * 256 + z * 16 && Filled(data[..], levels, n)
      {
        for x := 0 to 16
          invariant n == y * 256 + z * 16 + x && Filled(data[..], levels, n)
        {
          StoreLevel(data, volume, d, section, defaultLight, x, y, z, levels);
          n := n + 1;
        }
      }
    }
    lightData := data[..];
  }

  // ---- Light sections by chunk column --------------------------------------------------------

  // A light section shows the levels of its cells.
  ghost predicate ShowsLight(data: seq<nat>, volume: seq<nat>, d: Dims, section: Cell)
    requires |volume| == d.Volume()
  {
    && IsSection(data)
    && (forall local :: IsLocal(local) && InVolume(WorldCell(section, local), d) ==>
          Nibble(data, LocalIndex(local)) == volume[IndexOf(WorldCell(section, local), d)])
  }

  lemma FilledShowsLight(data: seq<nat>, volume: seq<nat>, d: Dims, section: Cell, defaultLight: nat)
    requires |volume| == d.Volume() && section.x >= 0 && section.y >= 0 && section.z >= 0
    requires Filled(data, SectionLevels(volume, d, section, defaultLight), SECTION_VOLUME)
    ensures ShowsLight(data, volume, d, section)
  {
    forall local | IsLocal(local) && InVolume(WorldCell(section, local), d)
      ensures Nibble(data, LocalIndex(local)) == volume[IndexOf(WorldCell(section, local), d)]
    {
      FilledNibble(data, SectionLevels(volume, d, section, defaultLight), LocalIndex(local));
      LevelOfLocal(volume, d, section, defaultLight, local.x, local.y, local.z);
    }
  }

  lemma FilledNibble(data: seq<nat>, levels: seq<nat>, i: nat)
    requires Filled(data, levels, SECTION_VOLUME) && i < SECTION_VOLUME
    ensures Nibble(data, i) == levels[i]
  {
    NibbleIsHalf(data, i);
  }

  // The sections of one chunk column, from the bottom up.
  ghost predicate ColumnShowsLight(column: seq<seq<nat>>, volume: seq<nat>, d: Dims, size: Cell,
      chunkX: nat, chunkZ: nat)
    requires |volume| == d.Volume()
  {
    |column| == size.y && forall y: nat :: y < |column| ==> ShowsLight(column[y], volume, d, Cell(chunkX, y, chunkZ))
  }

  ghost predicate ColumnOk(column: seq<seq<nat>>, volume: seq<nat>, d: Dims, size: Cell, i: nat)
    requires |volume| == d.Volume()
  {
    size.z > 0 && ColumnShowsLight(column, volume, d, size, i / size.z, i % size.z)
  }

  // Columns are stored by chunk x, then chunk z.
  ghost predicate ColumnsShowLight(columns: seq<seq<seq<nat>>>, volume: seq<nat>, d: Dims, size: Cell)
    requires |volume| == d.Volume()
  {
    && |columns| == size.x * size.z
    && (forall i: nat :: i < |columns| ==> ColumnOk(columns[i], volume, d, size, i))
  }

  method ConvertColumn(volume: array<nat>, d: Dims, size: Cell, chunkX: nat, chunkZ: nat, defaultLight: nat)
    returns (sections: seq<seq<nat>>)
    requires volume.Length == d.Volume() && size.y >= 0
    requires defaultLight <= 15 && forall i :: 0 <= i < volume.Length ==> volume[i] <= 15
    ensures ColumnShowsLight(sections, volume[..], d, size, chunkX, chunkZ)
  {
    sections := [];
    while |sections| < size.y
      invariant |sections| <= size.y
      invariant forall y: nat :: y < |sections| ==> ShowsLight(sections[y], volume[..], d, Cell(chunkX, y, chunkZ))
    {
      var section := Cell(chunkX, |sections|, chunkZ);
      var lightData := FillSection(volume, d, section, defaultLight);
      FilledShowsLight(lightData, volume[..], d, section, defaultLight);
      sections := sections + [lightData];
    }
  }

  method ConvertToChunkSections(volume: array<nat>, d: Dims, size: Cell, defaultLight: nat)
    returns (columns: seq<seq<seq<nat>>>)
    requires volume.Length == d.Volume() && size.x >= 0 && size.y >= 0 && size.z >= 0
    requires defaultLight <= 15 && forall i :: 0 <= i < volume.Length ==> volume[i] <= 15
    ensures ColumnsShowLight(columns, volume[..], d, size)
  {
    columns := [];
    var count := size.x * size.z;
    while |columns| < count
      invariant |columns| <= count
      invariant forall i: nat :: i < |columns| ==> ColumnOk(columns[i], volume[..], d, size, i)
    {
      assert size.z > 0;
      ghost var before := columns;
      var column := ConvertColumn(volume, d, size, |columns| / size.z, |columns| % size.z, defaultLight);
      columns := columns + [column];
      assert ColumnOk(column, volume[..], d, size, |before|);
    }
  }

  // ---- The world's light ---------------------------------------------------------------------

  datatype LitWorld = LitWorld(size: Cell, skyLight: seq<seq<seq<nat>>>, blockLight: seq<seq<seq<nat>>>)

  function ChunkColumnIndex(chunkX: int, chunkZ: int, size: Cell): int { chunkZ + chunkX * size.z }

  function GetChunkLight(columns: seq<seq<seq<nat>>>, size: Cell, chunkX: int, chunkZ: int): Option<seq<seq<nat>>> {
    if !(0 <= chunkX < size.x && 0 <= chunkZ < size.z) then None
    else
      var index := ChunkColumnIndex(chunkX, chunkZ, size);
      if 0 <= index < |columns| then Some(columns[index]) else None
  }

  // The level a client reads for a cell: the nibble of its local position, in the section of its layer, in
  // the column of its chunk.
  function ReadLight(columns: seq<seq<seq<nat>>>, size: Cell, c: Cell): Option<nat>
    requires c.x >= 0 && c.y >= 0 && c.z >= 0
  {
    match GetChunkLight(columns, size, c.x / 16, c.z / 16)
    case None => None
    case Some(column) =>
      var i := LocalIndex(Cell(c.x % 16, c.y % 16, c.z % 16));
      if c.y / 16 < |column| && i / 2 < |column[c.y / 16]| then Some(Nibble(column[c.y / 16], i)) else None
  }

  // Every cell of every section the world is cut into lies in the lit box.
  lemma SectionsAreInVolume(s: Schematic, section: Cell, local: Cell)
    requires SectionInBounds(section, SizeInChunks(s)) && IsLocal(local)
    ensures InVolume(WorldCell(section, local), VolumeOf(s))
  {
  }

  // So the default for cells outside it makes no difference.
  lemma DefaultIsNeverNeeded(volume: seq<nat>, s: Schematic, section: Cell, a: nat, b: nat)
    requires |volume| == VolumeOf(s).Volume() && SectionInBounds(section, SizeInChunks(s))
    ensures SectionLevels(volume, VolumeOf(s), section, a) == SectionLevels(volume, VolumeOf(s), section, b)
  {
    forall i | 0 <= i < SECTION_VOLUME
      ensures SectionLevels(volume, VolumeOf(s), section, a)[i] == SectionLevels(volume, VolumeOf(s), section, b)[i]
    {
      SectionsAreInVolume(s, section, Cell(i % 16, i / 256, (i / 16) % 16));
    }
  }

  // One column for each chunk column, with one section for each layer, of 2048 bytes each.
  ghost predicate AreByteSections(columns: seq<seq<seq<nat>>>, size: Cell) {
    && |columns| == size.x * size.z
    && (forall i :: 0 <= i < |columns| ==> |columns[i]| == size.y)
    && (forall i, y :: 0 <= i < |columns| && 0 <= y < |columns[i]| ==> |columns[i][y]| == 2048)
    && (forall i, y, k :: 0 <= i < |columns| && 0 <= y < |columns[i]| && 0 <= k < |columns[i][y]| ==>
          columns[i][y][k] < 256)
  }

  lemma ColumnsAreBytes(columns: seq<seq<seq<nat>>>, volume: seq<nat>, d: Dims, size: Cell)
    requires |volume| == d.Volume() && ColumnsShowLight(columns, volume, d, size)
    ensures AreByteSections(columns, size)
  {
    hide InVolume, WorldCell, Nibble, IsLocal;
    forall i: nat | i < |columns|
      ensures ColumnOk(columns[i], volume, d, size, i)
    {
    }
    forall i: nat, y: nat | i < |columns| && y < |columns[i]|
      ensures ShowsLight(columns[i][y], volume, d, Cell(i / size.z, y, i % size.z))
    {
      assert ColumnOk(columns[i], volume, d, size, i);
    }
  }

  method BuildLight(s: Schematic) returns (w: LitWorld)
    requires s.Valid() && VolumeOf(s).Volume() <= 0x7FFF_FFFF
    ensures w.size == SizeInChunks(s) && LightRefinesSchematic(w, s)
    ensures AreByteSections(w.skyLight, w.size) && AreByteSections(w.blockLight, w.size)
  {
    var d, size := VolumeOf(s), SizeInChunks(s);
    var sky, block := CalculateLight(s, d);
    LitLevelsAreNibbles(sky[..], block[..], s, d);
    var skyColumns := ConvertToChunkSections(sky, d, size, 15);
    var blockColumns := ConvertToChunkSections(block, d, size, 0);
    w := LitWorld(size, skyColumns, blockColumns);
    ColumnsAreBytes(skyColumns, sky[..], d, size);
    ColumnsAreBytes(blockColumns, block[..], d, size);
    LightOfVolume(skyColumns, sky[..], s);
    LightOfVolume(blockColumns, block[..], s);
    FloodsAreShown(w, FieldOf(sky[..], d), FieldOf(block[..], d), s);
  }

  // What a client reads anywhere in the lit box is the given field.
  ghost predicate ReadsAs(columns: seq<seq<seq<nat>>>, size: Cell, level: Cell -> nat, d: Dims) {
    forall c :: InVolume(c, d) ==> ReadLight(columns, size, c) == Some(level(c))
  }

  // What a client reads anywhere in the lit box, which holds all sections of the world, is the flood of the open sky,
  // and of the emitting blocks.
  ghost predicate LightRefinesSchematic(w: LitWorld, s: Schematic)
    requires s.Valid()
  {
    var d := VolumeOf(s);
    && (forall section, local :: SectionInBounds(section, w.size) && IsLocal(local) ==>
       InVolume(WorldCell(section, local), d))
    && exists sky: Cell -> nat, block: Cell -> nat ::
      && IsFlood(sky, SkySeeds(s, d), ClearCells(s, d), d)
      && IsFlood(block, BlockSeeds(s), ClearCells(s, d), d)
      && ReadsAs(w.skyLight, w.size, sky, d)
      && ReadsAs(w.blockLight, w.size, block, d)
  }

  lemma FloodsAreShown(w: LitWorld, sky: Cell -> nat, block: Cell -> nat, s: Schematic)
    requires s.Valid() && w.size == SizeInChunks(s)
    requires IsFlood(sky, SkySeeds(s, VolumeOf(s)), ClearCells(s, VolumeOf(s)), VolumeOf(s))
    requires IsFlood(block, BlockSeeds(s), ClearCells(s, VolumeOf(s)), VolumeOf(s))
    requires ReadsAs(w.skyLight, w.size, sky, VolumeOf(s)) && ReadsAs(w.blockLight, w.size, block, VolumeOf(s))
    ensures LightRefinesSchematic(w, s)
  {
    hide IsFlood, ReadsAs, InVolume;
    forall section, local | SectionInBounds(section, w.size) && IsLocal(local)
      ensures InVolume(WorldCell(section, local), VolumeOf(s))
    {
      SectionsAreInVolume(s, section, local);
    }
  }

  lemma LitLevelsAreNibbles(sky: seq<nat>, block: seq<nat>, s: Schematic, d: Dims)
    requires s.Valid() && |sky| == |block| == d.Volume() && LightOk(sky, block, s, d)
    ensures forall i :: 0 <= i < |sky| ==> sky[i] <= 15 && block[i] <= 15
  {
    forall i: nat | i < |sky|
      ensures sky[i] <= 15 && block[i] <= 15
    {
      EmissionIsNibble(s);
      LevelIsNibble(sky, SkySeeds(s, d), ClearCells(s, d), d, i);
      LevelIsNibble(block, BlockSeeds(s), ClearCells(s, d), d, i);
    }
  }

  lemma EmissionIsNibble(s: Schematic)
    requires s.Valid()
    ensures forall c :: BlockSeeds(s)(c) <= 15
  {
  }

  lemma LevelIsNibble(light: seq<nat>, seeds: Cell -> nat, clear: Cell -> bool, d: Dims, i: nat)
    requires |light| == d.Volume() && i < |light| && IsFlood(FieldOf(light, d), seeds, clear, d)
    requires forall c :: seeds(c) <= 15
    ensures light[i] <= 15
  {
    CellInVolume(i, d);
    FloodBounds(FieldOf(light, d), seeds, clear, d, 15, CellAtIndex(i, d));
  }

  lemma LightOfCell(columns: seq<seq<seq<nat>>>, volume: seq<nat>, s: Schematic, c: Cell)
    requires |volume| == VolumeOf(s).Volume() && InVolume(c, VolumeOf(s))
    requires ColumnsShowLight(columns, volume, VolumeOf(s), SizeInChunks(s))
    ensures ReadLight(columns, SizeInChunks(s), c) == Some(FieldOf(volume, VolumeOf(s))(c))
  {
    var d, size := VolumeOf(s), SizeInChunks(s);
    var chunkX, chunkY, chunkZ := c.x / 16, c.y / 16, c.z / 16;
    var local := Cell(c.x % 16, c.y % 16, c.z % 16);
    var index := ChunkColumnIndex(chunkX, chunkZ, size);
    DivModUnique(index, size.z, chunkX, chunkZ);
    ColumnInRange(chunkX, chunkZ, size);
    assert ColumnOk(columns[index], volume, d, size, index);
    assert ShowsLight(columns[index][chunkY], volume, d, Cell(chunkX, chunkY, chunkZ));
    assert WorldCell(Cell(chunkX, chunkY, chunkZ), local) == c;
  }

  lemma LightOfVolume(columns: seq<seq<seq<nat>>>, volume: seq<nat>, s: Schematic)
    requires |volume| == VolumeOf(s).Volume() && ColumnsShowLight(columns, volume, VolumeOf(s), SizeInChunks(s))
    ensures ReadsAs(columns, SizeInChunks(s), FieldOf(volume, VolumeOf(s)), VolumeOf(s))
  {
    hide ColumnsShowLight, ReadLight, FieldOf;
    forall c | InVolume(c, VolumeOf(s))
      ensures ReadLight(columns, SizeInChunks(s), c) == Some(FieldOf(volume, VolumeOf(s))(c))
    {
      LightOfCell(columns, volume, s, c);
    }
  }

  lemma ColumnInRange(chunkX: nat, chunkZ: nat, size: Cell)
    requires chunkX < size.x && chunkZ < size.z
    ensures 0 <= ChunkColumnIndex(chunkX, chunkZ, size) < size.x * size.z
  {
    RowBound(size.z, size.x, chunkX, chunkZ);
  }
}
