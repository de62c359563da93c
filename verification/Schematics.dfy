/** Block lookup in a loaded schematic. */
module Schematics {
  import opened LightVolume

  // What is known of a block state: its internal id, whether light passes, and the light it emits.
  datatype StateData = StateData(internalId: nat, transparent: bool, emitted: nat) {
    predicate Valid() { internalId < 0x1_0000 && emitted <= 15 }
  }

  // `palette` maps palette indices to states, `blockData` holds palette indices in y, z, x order.
  datatype Schematic = Schematic(palette: seq<StateData>, blockData: seq<int>, width: nat, height: nat, length: nat,
                                 airIndex: int)
  {
    // Every palette index that can be looked up exists: otherwise the lookup panics.
    predicate Valid() {
      && 0 <= airIndex < |palette|
      && (forall i :: 0 <= i < |blockData| ==> 0 <= blockData[i] < |palette|)
      && (forall i :: 0 <= i < |palette| ==> palette[i].Valid())
    }

    predicate IsOutOfBounds(p: Cell) {
      p.x < 0 || p.y < 0 || p.z < 0 || p.x >= width || p.y >= height || p.z >= length
    }

    function PositionToIndex(p: Cell): int {
      p.y * length * width + p.z * width + p.x
    }

    // Positions outside the schematic, and positions missing from a short data array, are air.
    function BlockState(p: Cell): (s: StateData)
      requires Valid()
      ensures s in palette
    {
      if IsOutOfBounds(p) then palette[airIndex]
      else
        var index := PositionToIndex(p);
        if 0 <= index < |blockData| then palette[blockData[index]] else palette[airIndex]
    }
  }

  // Outside the schematic there is air, and so there is where the data ends early. Every position inside has an entry
  // of its own, if the data has it: the position is computed back from the index.
  lemma DataAt(s: Schematic, p: Cell)
    requires s.Valid()
    ensures 0 <= p.x < s.width && 0 <= p.y < s.height && 0 <= p.z < s.length <==> !s.IsOutOfBounds(p)
    ensures s.IsOutOfBounds(p) ==> s.BlockState(p) == s.palette[s.airIndex]
    ensures !s.IsOutOfBounds(p) ==>
              var index := (p.y * s.length + p.z) * s.width + p.x;
              && 0 <= index < s.height * s.width * s.length && CellAt(index, Dims(s.width, s.length, s.height)) == p
              && s.BlockState(p) == s.palette[if index < |s.blockData| then s.blockData[index] else s.airIndex]
  {
    if !s.IsOutOfBounds(p) {
      IndexAt(s, p);
    }
    hide CellAt;
  }

  lemma IndexAt(s: Schematic, p: Cell)
    requires 0 <= p.x < s.width && 0 <= p.y < s.height && 0 <= p.z < s.length
    ensures var index := (p.y * s.length + p.z) * s.width + p.x;
            && 0 <= index < s.height * s.width * s.length && CellAt(index, Dims(s.width, s.length, s.height)) == p
            && s.PositionToIndex(p) == index
  {
    var d := Dims(s.width, s.length, s.height);
    IndexInRange(p, d);
    IndexByRows(p, d);
    assert p.y * s.length * s.width == p.y * s.width * s.length;
  }
}
