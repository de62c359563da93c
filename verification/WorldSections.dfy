/** The block sections of a world built from a schematic, stored in one list by chunk x, then y, then z. */
module WorldSections {
  import opened Prelude
  import opened LightVolume
  import opened Schematics
  import opened ChunkProcessors

  function ChunksFor(blocks: nat): nat { (blocks + 15) / 16 }

  // The number of sections along each axis.
  function SizeInChunks(s: Schematic): Cell {
    Cell(ChunksFor(s.width), ChunksFor(s.height), ChunksFor(s.length))
  }

  predicate SectionInBounds(c: Cell, size: Cell) {
    0 <= c.x < size.x && 0 <= c.y < size.y && 0 <= c.z < size.z
  }

  function SectionIndex(c: Cell, size: Cell): int {
    c.z + c.y * size.z + c.x * size.y * size.z
  }

  // The section a list index stands for.
  function SectionOf(i: nat, size: Cell): Cell
    requires size.y > 0 && size.z > 0
  {
    assert size.y * size.z > 0;
    Cell(i / (size.y * size.z), (i / size.z) % size.y, i % size.z)
  }

  function ChunkCount(size: Cell): int { size.x * size.y * size.z }

  // Indexing the sections is the light volume's row-major indexing with the axes renamed.
  lemma AsVolume(c: Cell, size: Cell)
    requires size.x >= 0 && size.y >= 0 && size.z >= 0
    ensures var d := Dims(size.z, size.y, size.x);
            && d.Volume() == ChunkCount(size)
            && LightIndex(Cell(c.z, c.x, c.y), d) == SectionIndex(c, size)
            && (InVolume(Cell(c.z, c.x, c.y), d) <==> SectionInBounds(c, size))
  {
  }

  // The list index is a bijection between sections and 0..ChunkCount.
  lemma SectionIndexIsBijection(c: Cell, size: Cell)
    requires size.x >= 0 && size.y >= 0 && size.z >= 0 && SectionInBounds(c, size)
    ensures 0 <= SectionIndex(c, size) < ChunkCount(size)
    ensures SectionOf(SectionIndex(c, size), size) == c
  {
    AsVolume(c, size);
    IndexInRange(Cell(c.z, c.x, c.y), Dims(size.z, size.y, size.x));
    assert size.z * size.y == size.y * size.z;
  }

  lemma SectionOfIsInverse(i: nat, size: Cell)
    requires size.x >= 0 && size.y >= 0 && size.z >= 0 && i < ChunkCount(size)
    ensures size.y > 0 && size.z > 0
    ensures SectionInBounds(SectionOf(i, size), size) && SectionIndex(SectionOf(i, size), size) == i
  {
    var d := Dims(size.z, size.y, size.x);
    AsVolume(Cell(0, 0, 0), size);
    CellInVolume(i, d);
    var v := CellAt(i, d);
    AsVolume(Cell(v.y, v.z, v.x), size);
    assert size.z * size.y == size.y * size.z;
  }

  // Every section holds the container of its blocks.
  ghost predicate SectionsOk(sections: seq<Palette>, s: Schematic)
    requires s.Valid()
  {
    && |sections| == ChunkCount(SizeInChunks(s))
    && (forall i: nat :: i < |sections| ==> SectionOk(sections, s, i))
  }

  ghost predicate SectionOk(sections: seq<Palette>, s: Schematic, i: nat)
    requires s.Valid() && i < |sections|
  {
    var size := SizeInChunks(s);
    size.y > 0 && size.z > 0 && Shows(sections[i], SectionIds(s, SectionOf(i, size)))
  }

  lemma FreshIsShown(p: Palette, ids: seq<nat>, table: seq<nat>)
    requires 0 < |ids| < UNSEEN && forall i :: 0 <= i < |ids| ==> ids[i] < |table|
    requires IsContainerOf(p, ids, table) && forall id :: 0 <= id < |table| ==> table[id] == UNSEEN
    ensures Shows(p, ids)
  {
    ShowsExactlyWhenNotStale(p, ids, table);
  }

  lemma NextSection(sections: seq<Palette>, p: Palette, s: Schematic)
    requires s.Valid() && SizeInChunks(s).y > 0 && SizeInChunks(s).z > 0
    requires forall k: nat :: k < |sections| ==> SectionOk(sections, s, k)
    requires Shows(p, SectionIds(s, SectionOf(|sections|, SizeInChunks(s))))
    ensures forall k: nat :: k < |sections| + 1 ==> SectionOk(sections + [p], s, k)
  {
    hide Shows, SectionIds, SizeInChunks;
    forall k: nat | k < |sections| + 1
      ensures SectionOk(sections + [p], s, k)
    {
      assert k < |sections| ==> SectionOk(sections, s, k);
    }
  }

  method BuildSections(s: Schematic) returns (sections: seq<Palette>)
    requires s.Valid() && ChunkCount(SizeInChunks(s)) <= 0x7FFF_FFFF
    ensures SectionsOk(sections, s)
  {
    var size := SizeInChunks(s);
    sections := [];
    var i := 0;
    while i < ChunkCount(size)
      invariant |sections| == i <= ChunkCount(size)
      invariant forall k: nat :: k < i ==> SectionOk(sections, s, k)
    {
      hide SectionOk, Shows, IsContainerOf, AllSame, SectionIds;
      SectionOfIsInverse(i, size);
      var section := SectionOf(i, size);
      var processor := new ChunkProcessor();
      ghost var table := processor.idToPaletteIndex[..];
      var p := processor.ProcessSection(s, section);
      FreshIsShown(p, SectionIds(s, section), table);
      NextSection(sections, p, s);
      sections := sections + [p];
      i := i + 1;
    }
  }

  function GetSection(sections: seq<Palette>, size: Cell, c: Cell): Option<Palette> {
    if !SectionInBounds(c, size) then None
    else
      var index := SectionIndex(c, size);
      if 0 <= index < |sections| then Some(sections[index]) else None
  }

  // The position of a local cell in the data of a section.
  function LocalIndex(local: Cell): int { local.y * 256 + local.z * 16 + local.x }

  predicate IsLocal(c: Cell) { 0 <= c.x < 16 && 0 <= c.y < 16 && 0 <= c.z < 16 }

  function WorldCell(section: Cell, local: Cell): Cell {
    Cell(section.x * 16 + local.x, section.y * 16 + local.y, section.z * 16 + local.z)
  }

  // What a client decodes from a section is what the schematic holds there; cells that pad the last
  // sections beyond the schematic are air.
  lemma WorldRefinesSchematic(sections: seq<Palette>, s: Schematic, c: Cell, local: Cell)
    requires s.Valid() && SectionsOk(sections, s) && IsLocal(local)
    ensures var size := SizeInChunks(s);
            GetSection(sections, size, c).Some? <==> SectionInBounds(c, size)
    ensures SectionInBounds(c, SizeInChunks(s)) ==>
              BlockAt(GetSection(sections, SizeInChunks(s), c).value, local.y * 256 + local.z * 16 + local.x)
                == Some(s.BlockState(WorldCell(c, local)).internalId)
  {
    var size := SizeInChunks(s);
    if SectionInBounds(c, size) {
      SectionIndexIsBijection(c, size);
      var index := SectionIndex(c, size);
      assert SectionOk(sections, s, index);
      LocalCoordinates(local.x, local.y, local.z, LocalIndex(local));
      assert SectionCell(c, LocalIndex(local)) == WorldCell(c, local);
      assert SectionIds(s, c)[LocalIndex(local)] == s.BlockState(WorldCell(c, local)).internalId;
    }
  }

  // The world is no larger than it must be: along every axis it is whole sections, and one fewer would be too few.
  lemma SectionsAreNeeded(blocks: nat)
    ensures 16 * ChunksFor(blocks) >= blocks > 16 * (ChunksFor(blocks) - 1)
  {
  }

  // Every cell of the schematic lies in some section.
  lemma SchematicIsCovered(s: Schematic, p: Cell)
    requires !s.IsOutOfBounds(p)
    ensures var c, local := Cell(p.x / 16, p.y / 16, p.z / 16), Cell(p.x % 16, p.y % 16, p.z % 16);
            SectionInBounds(c, SizeInChunks(s)) && IsLocal(local) && WorldCell(c, local) == p
  {
  }
}
