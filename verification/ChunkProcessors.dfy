/** Turns the 4096 blocks of one chunk section into a palette container: a single id, indices into a
    palette packed into 64-bit words, or the plain list of ids. */
module ChunkProcessors {
  import opened Prelude
  import opened Bits
  import opened PackedData
  import opened LightVolume
  import opened Schematics

  const UNSEEN: nat := 0xFFFF_FFFF
  const TABLE_SIZE: nat := 0x1_0000
  const SECTION_VOLUME: nat := 4096

  datatype Palette =
    | Single(id: nat)
    | Paletted(bits: nat, palette: seq<nat>, packed: seq<nat>)
    | Direct(ids: seq<nat>)

  // The block a client finds at position i of a section.
  function BlockAt(p: Palette, i: nat): Option<nat> {
    match p
    case Single(id) => Some(id)
    case Direct(ids) => if i < |ids| then Some(ids[i]) else None
    case Paletted(bits, palette, packed) =>
      if 0 < bits <= 32 && i / EntriesPerWord(bits) < |packed| && EntryAt(packed, bits, i) < |palette|
      then Some(palette[EntryAt(packed, bits, i)])
      else None
  }

  // The container shows exactly the given blocks.
  ghost predicate Shows(p: Palette, ids: seq<nat>) {
    forall i :: 0 <= i < |ids| ==> BlockAt(p, i) == Some(ids[i])
  }

  // ---- Bits for n states --------------------------------------------------------------------

  function Log2(n: nat): nat
    requires n > 0
  {
    if n == 1 then 0 else 1 + Log2(n / 2)
  }

  function BitsNeeded(n: nat): nat {
    if n <= 1 then 1 else Log2(n - 1) + 1
  }

  lemma {:induction false} Log2Bounds(n: nat)
    requires n > 0
    ensures Pow2(Log2(n)) <= n < 2 * Pow2(Log2(n))
  {
    if n == 1 {
    } else {
      Log2Bounds(n / 2);
    }
  }

  // Exactly enough bits to number n states from zero.
  lemma BitsNeededIsLeast(n: nat)
    ensures n <= Pow2(BitsNeeded(n))
    ensures if n > 1 then Pow2(BitsNeeded(n) - 1) < n else BitsNeeded(n) == 1
  {
    if n > 1 {
      Log2Bounds(n - 1);
    }
  }

  lemma BitsNeededFor256(n: nat)
    ensures BitsNeeded(n) <= 8 <==> n <= 256
  {
    SmallPowers();
    BitsNeededIsLeast(n);
    if BitsNeeded(n) <= 8 {
      Pow2Monotone(BitsNeeded(n), 8);
    } else if n > 2 {
      Pow2Monotone(8, BitsNeeded(n) - 1);
    }
  }

  // ---- Scanning a section -------------------------------------------------------------------

  // The palette and the lookup table after the blocks `ids`, starting from an empty palette.
  datatype ScanState = ScanState(palette: seq<nat>, table: seq<nat>)

  function Scan(ids: seq<nat>, table: seq<nat>): ScanState
    requires forall i :: 0 <= i < |ids| ==> ids[i] < |table|
    ensures |Scan(ids, table).table| == |table|
  {
    if ids == [] then ScanState([], table)
    else
      var before := Scan(ids[..|ids| - 1], table);
      var id := ids[|ids| - 1];
      if before.table[id] == UNSEEN then ScanState(before.palette + [id], before.table[id := |before.palette|])
      else before
  }

  ghost predicate AllSame(ids: seq<nat>) {
    forall i :: 0 <= i < |ids| ==> ids[i] == ids[0]
  }

  // What processing must return for the blocks `ids` and a lookup table `table` left by earlier sections.
  ghost predicate IsContainerOf(p: Palette, ids: seq<nat>, table: seq<nat>)
    requires forall i :: 0 <= i < |ids| ==> ids[i] < |table|
  {
    var scan := Scan(ids, table);
    match p
    case Single(id) => AllSame(ids) && (ids != [] ==> id == ids[0])
    case Direct(all) => !AllSame(ids) && |scan.palette| > 256 && all == ids
    case Paletted(bits, palette, packed) =>
      && !AllSame(ids) && palette == scan.palette && |palette| <= 256
      && 4 <= bits <= 8 && |palette| <= Pow2(bits) && (bits > 4 ==> Pow2(bits - 1) < |palette|)
      && Packs(packed, seq(|ids|, (i: nat) requires i < |ids| => scan.table[ids[i]]), bits)
  }

  // ---- What a scan leaves behind -------------------------------------------------------------

  // An id that was unseen is numbered by its place in the palette; a stale id keeps its old number and is
  // missing from the palette.
  ghost predicate ScanOk(scan: ScanState, ids: seq<nat>, table: seq<nat>) {
    && |scan.table| == |table| && |scan.palette| <= |ids|
    && (forall i :: 0 <= i < |ids| ==> ids[i] < |table| && Numbered(ids[i], scan, table))
    && (forall id: nat :: id < |table| ==> scan.table[id] == table[id] || Numbered(id, scan, table))
    && (forall k :: 0 <= k < |scan.palette| ==> scan.palette[k] < |table| && table[scan.palette[k]] == UNSEEN)
  }

  ghost predicate Numbered(id: nat, scan: ScanState, table: seq<nat>)
    requires id < |table| == |scan.table|
  {
    if table[id] == UNSEEN then scan.table[id] < |scan.palette| && scan.palette[scan.table[id]] == id
    else scan.table[id] == table[id]
  }

  lemma {:induction false} ScanFacts(ids: seq<nat>, table: seq<nat>)
    requires |ids| < UNSEEN && forall i :: 0 <= i < |ids| ==> ids[i] < |table|
    ensures ScanOk(Scan(ids, table), ids, table)
  {
    if ids == [] {
    } else {
      var m := |ids| - 1;
      ScanFacts(ids[..m], table);
      var before, after := Scan(ids[..m], table), Scan(ids, table);
      forall id: nat | id < |table| && Numbered(id, before, table)
        ensures Numbered(id, after, table)
      {
      }
      forall i | 0 <= i < |ids|
        ensures Numbered(ids[i], after, table)
      {
        if i < m {
          assert ids[i] == ids[..m][i];
        }
      }
    }
  }

  // The distinct ids of a section that the lookup table has not numbered yet.
  function FreshIds(ids: seq<nat>, table: seq<nat>): set<nat>
    requires forall i :: 0 <= i < |ids| ==> ids[i] < |table|
  {
    set i | 0 <= i < |ids| && table[ids[i]] == UNSEEN :: ids[i]
  }

  lemma {:induction false} PaletteIsFreshIds(ids: seq<nat>, table: seq<nat>)
    requires |ids| < UNSEEN && forall i :: 0 <= i < |ids| ==> ids[i] < |table|
    ensures |Scan(ids, table).palette| == |FreshIds(ids, table)|
  {
    if ids == [] {
      assert FreshIds(ids, table) == {};
    } else {
      var m := |ids| - 1;
      hide Scan, FreshIds;
      PaletteIsFreshIds(ids[..m], table);
      FreshIdsStep(ids, table);
      StillUnseen(ids[..m], table, ids[m]);
      ScanStep(ids, table);
    }
  }

  lemma ScanStep(ids: seq<nat>, table: seq<nat>)
    requires ids != [] && forall i :: 0 <= i < |ids| ==> ids[i] < |table|
    ensures var before, id := Scan(ids[..|ids| - 1], table), ids[|ids| - 1];
            |Scan(ids, table).palette| == |before.palette| + if before.table[id] == UNSEEN then 1 else 0
  {
  }

  lemma FreshIdsStep(ids: seq<nat>, table: seq<nat>)
    requires ids != [] && forall i :: 0 <= i < |ids| ==> ids[i] < |table|
    ensures var m := |ids| - 1;
            var before := FreshIds(ids[..m], table);
            |FreshIds(ids, table)| == |before| + if table[ids[m]] == UNSEEN && ids[m] !in before then 1 else 0
  {
    var m := |ids| - 1;
    var before := FreshIds(ids[..m], table);
    if table[ids[m]] == UNSEEN && ids[m] !in before {
      assert FreshIds(ids, table) == before + {ids[m]};
    } else {
      assert FreshIds(ids, table) == before;
    }
  }

  // After a scan the ids still unseen are those that were unseen and did not occur.
  lemma StillUnseen(ids: seq<nat>, table: seq<nat>, id: nat)
    requires |ids| < UNSEEN && id < |table| && forall i :: 0 <= i < |ids| ==> ids[i] < |table|
    ensures Scan(ids, table).table[id] == UNSEEN <==> table[id] == UNSEEN && id !in FreshIds(ids, table)
  {
    ScanFacts(ids, table);
    if table[id] == UNSEEN && Scan(ids, table).table[id] != UNSEEN {
      TableEntryWasScanned(ids, table, id);
    }
    if id in FreshIds(ids, table) {
      var i :| 0 <= i < |ids| && table[ids[i]] == UNSEEN && ids[i] == id;
      assert Numbered(ids[i], Scan(ids, table), table);
    }
  }

  lemma {:induction false} TableEntryWasScanned(ids: seq<nat>, table: seq<nat>, id: nat)
    requires forall i :: 0 <= i < |ids| ==> ids[i] < |table|
    requires id < |table| && table[id] == UNSEEN && Scan(ids, table).table[id] != UNSEEN
    ensures id in ids
  {
    if ids[|ids| - 1] != id {
      TableEntryWasScanned(ids[..|ids| - 1], table, id);
    }
  }

  // ---- When the container shows the section --------------------------------------------------

  lemma PalettedEntry(p: Palette, ids: seq<nat>, table: seq<nat>, i: nat)
    requires |ids| < UNSEEN && forall k :: 0 <= k < |ids| ==> ids[k] < |table|
    requires IsContainerOf(p, ids, table) && p.Paletted? && i < |ids|
    ensures BlockAt(p, i) == Some(ids[i]) <==> table[ids[i]] == UNSEEN
  {
    var scan := Scan(ids, table);
    var entries := seq(|ids|, (k: nat) requires k < |ids| => scan.table[ids[k]]);
    ScanFacts(ids, table);
    PackedEntry(p.packed, entries, p.bits, i);
    assert Numbered(ids[i], scan, table);
    if table[ids[i]] == UNSEEN {
      DivModUnique(entries[i], Pow2(p.bits), 0, entries[i]);
    }
  }

  // A container shows its section unless it is paletted and some block was numbered by an earlier section.
  lemma ShowsExactlyWhenNotStale(p: Palette, ids: seq<nat>, table: seq<nat>)
    requires 0 < |ids| < UNSEEN && forall i :: 0 <= i < |ids| ==> ids[i] < |table|
    requires IsContainerOf(p, ids, table)
    ensures Shows(p, ids) <==>
              AllSame(ids) || |FreshIds(ids, table)| > 256 || forall i :: 0 <= i < |ids| ==> table[ids[i]] == UNSEEN
  {
    PaletteIsFreshIds(ids, table);
    if p.Paletted? {
      forall i | 0 <= i < |ids|
        ensures BlockAt(p, i) == Some(ids[i]) <==> table[ids[i]] == UNSEEN
      {
        PalettedEntry(p, ids, table, i);
      }
    }
  }

  // Processing a mixed section a second time, with the table the first left, shows it wrongly.
  lemma SecondUseFails(p: Palette, ids: seq<nat>, table: seq<nat>)
    requires 0 < |ids| < UNSEEN && forall i :: 0 <= i < |ids| ==> ids[i] < |table|
    requires !AllSame(ids)
    requires IsContainerOf(p, ids, Scan(ids, table).table)
    ensures !Shows(p, ids)
  {
    var used := Scan(ids, table).table;
    ScanFacts(ids, table);
    forall i | 0 <= i < |ids|
      ensures used[ids[i]] != UNSEEN
    {
      assert Numbered(ids[i], Scan(ids, table), table);
    }
    assert FreshIds(ids, used) == {};
    ShowsExactlyWhenNotStale(p, ids, used);
  }

  // ---- The processor -------------------------------------------------------------------------

  // The i-th cell of a section, x fastest, then z, then y.
  function SectionCell(section: Cell, i: nat): Cell {
    Cell(section.x * 16 + i % 16, section.y * 16 + i / 256, section.z * 16 + (i / 16) % 16)
  }

  lemma LocalCoordinates(x: nat, y: nat, z: nat, i: nat)
    requires x < 16 && z < 16 && i == y * 256 + z * 16 + x
    ensures i % 16 == x && (i / 16) % 16 == z && i / 256 == y
  {
    SplitTwice(i, 16, 16, y, z, x);
  }

  function SectionIds(s: Schematic, section: Cell): (ids: seq<nat>)
    requires s.Valid()
    ensures |ids| == SECTION_VOLUME && forall i :: 0 <= i < |ids| ==> ids[i] < TABLE_SIZE
  {
    seq(SECTION_VOLUME, (i: nat) requires i < SECTION_VOLUME => s.BlockState(SectionCell(section, i)).internalId)
  }

  class ChunkProcessor {
    var palette: seq<nat>
    const idToPaletteIndex: array<nat>

    ghost predicate Valid()
    {
      idToPaletteIndex.Length == TABLE_SIZE
    }

    constructor ()
      ensures Valid() && fresh(idToPaletteIndex) && palette == []
      ensures forall id :: 0 <= id < TABLE_SIZE ==> idToPaletteIndex[id] == UNSEEN
    {
      palette := [];
      idToPaletteIndex := new nat[TABLE_SIZE](_ => UNSEEN);
    }

    // The walk over a palette that resets the table.
    method ResetEntries(ids: seq<nat>)
      requires Valid() && forall i :: 0 <= i < |ids| ==> ids[i] < TABLE_SIZE
      modifies idToPaletteIndex
      ensures forall id :: 0 <= id < TABLE_SIZE ==>
                idToPaletteIndex[id] == if id in ids then UNSEEN else old(idToPaletteIndex[id])
    {
      for i := 0 to |ids|
        invariant forall id :: 0 <= id < TABLE_SIZE ==>
                    idToPaletteIndex[id] == if id in ids[..i] then UNSEEN else old(idToPaletteIndex[id])
      {
        idToPaletteIndex[ids[i]] := UNSEEN;
      }
    }

    // The palette is cleared before it is walked, so no entry of the table is reset.
    method PrepareForNextChunk()
      requires Valid()
      modifies this, idToPaletteIndex
      ensures palette == [] && idToPaletteIndex[..] == old(idToPaletteIndex[..])
    {
      palette := [];
      ResetEntries(palette);
    }

    // Numbers one block.
    method Note(id: nat)
      requires Valid() && id < TABLE_SIZE
      modifies this, idToPaletteIndex
      ensures idToPaletteIndex[..] ==
                if old(idToPaletteIndex[id]) == UNSEEN then old(idToPaletteIndex[..])[id := |old(palette)|]
                else old(idToPaletteIndex[..])
      ensures palette == if old(idToPaletteIndex[id]) == UNSEEN then old(palette) + [id] else old(palette)
    {
      if idToPaletteIndex[id] == UNSEEN {
        var newIndex := |palette|;
        palette := palette + [id];
        idToPaletteIndex[id] := newIndex;
      }
    }

    // Reads one block and notes its id.
    method ReadBlock(s: Schematic, section: Cell, x: nat, y: nat, z: nat, blockIds: seq<nat>, firstId: Option<nat>,
                     isSingleBlock: bool, ghost table0: seq<nat>)
      returns (blockIds': seq<nat>, firstId': Option<nat>, isSingleBlock': bool)
      requires Valid() && s.Valid() && x < 16 && y < 16 && z < 16 && |blockIds| == y * 256 + z * 16 + x
      requires Scanned(blockIds, SectionIds(s, section), firstId, isSingleBlock, palette, idToPaletteIndex[..], table0)
      modifies this, idToPaletteIndex
      ensures Scanned(blockIds', SectionIds(s, section), firstId', isSingleBlock',
                      palette, idToPaletteIndex[..], table0)
      ensures |blockIds'| == |blockIds| + 1
    {
      ghost var all := SectionIds(s, section);
      var worldPos := Cell(section.x * 16 + x, section.y * 16 + y, section.z * 16 + z);
      LocalCoordinates(x, y, z, |blockIds|);
      assert worldPos == SectionCell(section, |blockIds|);
      var id := s.BlockState(worldPos).internalId;
      assert id == all[|blockIds|];
      blockIds', firstId', isSingleBlock' := blockIds + [id], firstId, isSingleBlock;
      if firstId.Some? {
        if isSingleBlock && firstId.value != id {
          isSingleBlock' := false;
        }
      } else {
        firstId' := Some(id);
      }
      ScanOne(blockIds, all, table0);
      Note(id);
    }

    // Reads the blocks of a section, building the palette on the way.
    method ScanSection(s: Schematic, section: Cell)
      returns (blockIds: seq<nat>, firstId: Option<nat>, isSingleBlock: bool)
      requires Valid() && s.Valid() && palette == []
      modifies this, idToPaletteIndex
      ensures blockIds == SectionIds(s, section)
      ensures firstId == Some(blockIds[0]) && (isSingleBlock <==> AllSame(blockIds))
      ensures ScanState(palette, idToPaletteIndex[..]) == Scan(blockIds, old(idToPaletteIndex[..]))
    {
      ghost var table0 := idToPaletteIndex[..];
      blockIds, firstId, isSingleBlock := [], None, true;
      for y := 0 to 16
        invariant |blockIds| == y * 256
        invariant Scanned(blockIds, SectionIds(s, section), firstId, isSingleBlock,
                          palette, idToPaletteIndex[..], table0)
      {
        for z := 0 to 16
          invariant |blockIds| == y * 256 + z * 16
          invariant Scanned(blockIds, SectionIds(s, section), firstId, isSingleBlock,
                            palette, idToPaletteIndex[..], table0)
        {
          for x := 0 to 16
            invariant |blockIds| == y * 256 + z * 16 + x
            invariant Scanned(blockIds, SectionIds(s, section), firstId, isSingleBlock,
                              palette, idToPaletteIndex[..], table0)
          {
            blockIds, firstId, isSingleBlock
              := ReadBlock(s, section, x, y, z, blockIds, firstId, isSingleBlock, table0);
          }
        }
      }
      assert blockIds == SectionIds(s, section);
    }

    method ProcessSection(s: Schematic, section: Cell) returns (p: Palette)
      requires Valid() && s.Valid()
      modifies this, idToPaletteIndex
      ensures IsContainerOf(p, SectionIds(s, section), old(idToPaletteIndex[..]))
      ensures idToPaletteIndex[..] == Scan(SectionIds(s, section), old(idToPaletteIndex[..])).table
      ensures palette == if p.Paletted? then [] else Scan(SectionIds(s, section), old(idToPaletteIndex[..])).palette
    {
      PrepareForNextChunk();
      var blockIds, firstId, isSingleBlock := ScanSection(s, section);
      if isSingleBlock {
        return Single(firstId.value);
      }
      var bitsPerEntry := BitsNeeded(|palette|);
      BitsNeededFor256(|palette|);
      if bitsPerEntry <= 8 {
        var bits := ClampBits(|palette|);
        ghost var table := idToPaletteIndex[..];
        var entries := seq(|blockIds|, (i: nat) requires i < |blockIds| && blockIds[i] < idToPaletteIndex.Length
                                                reads idToPaletteIndex => idToPaletteIndex[blockIds[i]]);
        assert entries == seq(|blockIds|, (i: nat) requires i < |blockIds| => table[blockIds[i]]);
        var packed := PackDirect(entries, bits);
        p := Paletted(bits, palette, packed);
        palette := [];
      } else {
        p := Direct(blockIds);
      }
    }
  }

  // The width of palette indices: at least four bits.
  function ClampBits(n: nat): (bits: nat)
    requires BitsNeeded(n) <= 8
    ensures 4 <= bits <= 8 && n <= Pow2(bits) && (bits > 4 ==> Pow2(bits - 1) < n)
  {
    BitsNeededIsLeast(n);
    Pow2Monotone(BitsNeeded(n), if BitsNeeded(n) < 4 then 4 else BitsNeeded(n));
    if BitsNeeded(n) < 4 then 4 else BitsNeeded(n)
  }

  // The state of processing after the blocks `seen`.
  ghost predicate Scanned(seen: seq<nat>, all: seq<nat>, firstId: Option<nat>, isSingleBlock: bool,
                          palette: seq<nat>, table: seq<nat>, table0: seq<nat>) {
    && seen <= all && |all| == SECTION_VOLUME && |table0| == TABLE_SIZE
    && (forall i :: 0 <= i < |all| ==> all[i] < TABLE_SIZE)
    && ScanState(palette, table) == Scan(seen, table0)
    && firstId == (if seen == [] then None else Some(seen[0]))
    && (isSingleBlock <==> AllSame(seen))
  }

  lemma ScanOne(seen: seq<nat>, all: seq<nat>, table0: seq<nat>)
    requires seen <= all && |seen| < |all| && |table0| == TABLE_SIZE
    requires forall i :: 0 <= i < |all| ==> all[i] < TABLE_SIZE
    ensures seen + [all[|seen|]] <= all
    ensures var before, id := Scan(seen, table0), all[|seen|];
            Scan(seen + [id], table0) ==
              if before.table[id] == UNSEEN then ScanState(before.palette + [id], before.table[id := |before.palette|])
              else before
    ensures seen != [] ==> (AllSame(seen + [all[|seen|]]) <==> AllSame(seen) && seen[0] == all[|seen|])
  {
  }
}
