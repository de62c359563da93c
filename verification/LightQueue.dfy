/** Entries of the light work queue, packed into one 64-bit word:
    bits 0-31 the cell index, bits 32-35 the level, bits 36-41 the directions still to check. */
module LightQueue {
  import opened Bits
  import opened LightVolume

  const ALL_DIRS: nat := 0x3F

  datatype Entry = Entry(index: nat, level: nat, dirs: nat) {
    predicate Valid() { index < 0x1_0000_0000 && level < 16 && dirs < 64 }
  }

  function Pack(e: Entry): nat {
    Or(Or(e.index, Shl(e.level, 32, 64)), Shl(e.dirs, 36, 64))
  }

  function Unpack(word: nat): Entry {
    Entry(And(word, 0xFFFF_FFFF), And(Shr(word, 32), 0xF), And(Shr(word, 36), 0x3F))
  }

  predicate Checks(dirs: nat, dir: Direction) {
    And(dirs, Pow2(dir)) != 0
  }

  // Each mask leaves out exactly the way back.
  ghost predicate ExcludesOpposites(masks: seq<nat>) {
    && |masks| == 6
    && (forall dir: Direction :: masks[dir] < 64)
    && (forall dir: Direction, check: Direction :: Checks(masks[dir], check) <==> check != Opposite(dir))
  }

  lemma FieldPowers()
    ensures Pow2(32) == 0x1_0000_0000 && Pow2(36) == 0x10_0000_0000 && Pow2(64) == 0x1_0000_0000_0000_0000
    ensures Pow2(4) == 16 && Pow2(6) == 64
  {
    SmallPowers();
    WordPowers();
    Pow2Add(32, 4);
  }

  lemma PackIsSum(e: Entry)
    requires e.Valid()
    ensures Pack(e) == e.index + e.level * 0x1_0000_0000 + e.dirs * 0x10_0000_0000
  {
    hide Or, Shl;
    FieldPowers();
    ShlFits(e.level, 32, 64);
    ShlFits(e.dirs, 36, 64);
    OrDisjoint(e.index, Shl(e.level, 32, 64), 32);
    OrDisjoint(e.index + e.level * 0x1_0000_0000, Shl(e.dirs, 36, 64), 36);
  }

  // Nothing is lost by packing: index, level and direction mask are read back unchanged.
  lemma UnpackPack(e: Entry)
    requires e.Valid()
    ensures Unpack(Pack(e)) == e && Pack(e) < 0x400_0000_0000
  {
    PackIsSum(e);
    FieldPowers();
    FieldAt(Pack(e), 0, e.index, e.level + e.dirs * 16, 0, 32);
    FieldAt(Pack(e), e.index, e.level, e.dirs, 32, 4);
    FieldAt(Pack(e), e.index + e.level * 0x1_0000_0000, e.dirs, 0, 36, 6);
  }

  lemma AllDirsChecked()
    ensures forall check: Direction :: Checks(ALL_DIRS, check)
  {
    forall check: Direction
      ensures Checks(ALL_DIRS, check)
    {
      BitOfMask(ALL_DIRS, check);
      WeightInAll(check);
    }
  }

  // For each direction of arrival, the mask of directions to check from there.
  method ExcludeOppositeMasks() returns (masks: seq<nat>)
    ensures ExcludesOpposites(masks)
  {
    masks := [Xor(ALL_DIRS, Pow2(1)), Xor(ALL_DIRS, Pow2(0)),
              Xor(ALL_DIRS, Pow2(3)), Xor(ALL_DIRS, Pow2(2)),
              Xor(ALL_DIRS, Pow2(5)), Xor(ALL_DIRS, Pow2(4))];
    MasksAreCorrect(masks);
  }

  lemma MasksAreCorrect(masks: seq<nat>)
    requires |masks| == 6
    requires forall dir: Direction :: masks[dir] == Xor(ALL_DIRS, Pow2(Opposite(dir)))
    ensures ExcludesOpposites(masks)
  {
    forall dir: Direction
      ensures masks[dir] < 64
    {
      MaskLacks(Opposite(dir), dir);
    }
    forall dir: Direction, check: Direction
      ensures Checks(masks[dir], check) <==> check != Opposite(dir)
    {
      MaskLacks(Opposite(dir), check);
    }
  }

  function Weight(dir: Direction): nat { [1, 2, 4, 8, 16, 32][dir] }

  lemma Weights(dir: Direction)
    ensures Pow2(dir) == Weight(dir)
  {
  }

  // Bit tests of a six-bit mask, as arithmetic on constants.
  lemma BitOfMask(m: nat, check: Direction)
    requires m < 64
    ensures Checks(m, check) <==> (m / Weight(check)) % 2 == 1
  {
    AndBit(m, check);
    Weights(check);
  }

  lemma MaskLacks(gap: Direction, check: Direction)
    ensures Xor(ALL_DIRS, Pow2(gap)) < 64
    ensures Checks(Xor(ALL_DIRS, Pow2(gap)), check) <==> check != gap
  {
    Weights(gap);
    WeightInAll(gap);
    XorSetBit(ALL_DIRS, gap);
    BitOfMask(ALL_DIRS - Weight(gap), check);
    MaskArithmetic(gap, check);
  }

  lemma WeightInAll(gap: Direction)
    ensures (ALL_DIRS / Weight(gap)) % 2 == 1 && Weight(gap) <= ALL_DIRS
  {
  }

  lemma MaskArithmetic(gap: Direction, check: Direction)
    ensures ((ALL_DIRS - Weight(gap)) / Weight(check)) % 2 == 1 <==> check != gap
  {
  }
}
