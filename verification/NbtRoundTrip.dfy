/** Writing NBT and reading it back: a round trip up to the wrapping of mixed lists. */
module NbtRoundTrip {
  import opened Prelude
  import opened NbtValues
  import opened Texts
  import opened NbtWriting
  import opened NbtReading

  // ---- Normal form ----------------------------------------------------------------------------

  // Mixed lists become lists of compounds, each with one unnamed entry.
  function Norm(v: Value): (n: Value)
    ensures n.Id() == v.Id()
    decreases v, 1
  {
    match v
    case List(items) => if IsMixed(items) then List(NormWrapped(items)) else List(NormItems(items))
    case Compound(entries) => Compound(NormEntries(entries))
    case _ => v
  }

  function NormItems(items: seq<Value>): (n: seq<Value>)
    ensures |n| == |items| && forall i :: 0 <= i < |n| ==> n[i] == Norm(items[i])
    decreases items, 0
  {
    if items == [] then []
    else NormItems(items[..|items| - 1]) + [Norm(items[|items| - 1])]
  }

  function Wrap(v: Value): Value { Compound([Entry([], v)]) }

  function NormWrapped(items: seq<Value>): (n: seq<Value>)
    ensures |n| == |items| && forall i :: 0 <= i < |n| ==> n[i] == Wrap(Norm(items[i]))
    decreases items, 0
  {
    if items == [] then []
    else NormWrapped(items[..|items| - 1]) + [Wrap(Norm(items[|items| - 1]))]
  }

  function NormEntries(entries: seq<Entry>): (n: seq<Entry>)
    ensures |n| == |entries|
    ensures forall i :: 0 <= i < |n| ==> n[i] == Entry(entries[i].name, Norm(entries[i].value))
    decreases entries, 0
  {
    if entries == [] then []
    else
      var last := entries[|entries| - 1];
      NormEntries(entries[..|entries| - 1]) + [Entry(last.name, Norm(last.value))]
  }

  // ---- Reading back the parts -------------------------------------------------------------------

  // Two writes in a row succeed when both do, and put out the bytes of both.
  lemma ThenParts(a: Emit, b: Emit, rest: seq<byte>)
    requires a.Then(b).error == None
    ensures a.error == None && b.error == None
    ensures a.Then(b).bytes + rest == a.bytes + (b.bytes + rest)
  {
  }

  lemma TakeByteBack(b: byte, rest: seq<byte>)
    ensures TakeByte([b] + rest) == Ok(b, rest)
  {
  }

  lemma TakeAppended(width: nat, bytes: seq<byte>, rest: seq<byte>)
    requires |bytes| == width
    ensures TakeBytes(width, bytes + rest) == Ok(bytes, rest)
  {
  }

  lemma TakeSignedBack(n: int, width: nat, rest: seq<byte>)
    requires -(Radix(width) as int) <= 2 * n < Radix(width)
    ensures TakeSigned(width, SignedBytes(n, width) + rest) == Ok(n, rest)
  {
    TakeAppended(width, SignedBytes(n, width), rest);
    SignedBytesRoundTrip(n, width);
  }

  lemma TakeUnsignedBack(n: nat, width: nat, rest: seq<byte>)
    requires n < Radix(width)
    ensures TakeUnsigned(width, BigEndian(n, width) + rest) == Ok(n, rest)
  {
  }

  lemma TakeLengthBack(n: nat, e: WriteError, rest: seq<byte>)
    requires EmitLength(n, e).error == None
    ensures TakeLength(EmitLength(n, e).bytes + rest) == Ok(n, rest)
  {
    Radices();
    TakeSignedBack(n, 4, rest);
  }

  lemma TakeTextBack(text: Text, rest: seq<byte>)
    requires EmitText(text).error == None
    ensures TakeText(EmitText(text).bytes + rest) == Ok(text, rest)
  {
    Radices();
    ThenParts(Put(BigEndian(|text|, 2)), Put(text), rest);
    TakeUnsignedBack(|text|, 2, text + rest);
    TakeAppended(|text|, text, rest);
  }

  lemma {:induction false} TakeNumbersBack(ns: seq<int>, width: nat, rest: seq<byte>)
    requires forall i :: 0 <= i < |ns| ==> -(Radix(width) as int) <= 2 * ns[i] < Radix(width)
    ensures TakeNumbers(|ns|, width, EmitNumbers(ns, width) + rest) == Ok(ns, rest)
  {
    if ns == [] {
      assert EmitNumbers(ns, width) + rest == rest;
    } else {
      var m := |ns| - 1;
      var last := SignedBytes(ns[m], width);
      TakeNumbersBack(ns[..m], width, last + rest);
      TakeSignedBack(ns[m], width, rest);
      assert EmitNumbers(ns[..m], width) + last + rest == EmitNumbers(ns[..m], width) + (last + rest);
      assert ns == ns[..m] + [ns[m]];
    }
  }

  lemma {:induction false} InsertNew(entries: seq<Entry>, e: Entry)
    requires forall i :: 0 <= i < |entries| ==> entries[i].name != e.name
    ensures Insert(entries, e) == entries + [e]
  {
    if entries == [] {
    } else {
      InsertNew(entries[1..], e);
    }
  }

  predicate IsScalar(v: Value) {
    v.Byte? || v.Short? || v.Int? || v.Long? || v.Float? || v.Double?
  }

  lemma ScalarRoundTrip(v: Value, dynamic: bool, rest: seq<byte>)
    requires IsScalar(v)
    ensures TakeLeaf(v.Id(), EmitValue(v, dynamic).bytes + rest) == Ok(v, rest)
  {
    Radices();
    match v
    case Byte(b) => TakeSignedBack(b, 1, rest);
    case Short(s) => TakeSignedBack(s, 2, rest);
    case Int(i) => TakeSignedBack(i, 4, rest);
    case Long(l) => TakeSignedBack(l, 8, rest);
    case Float(f) => TakeUnsignedBack(f, 4, rest);
    case Double(d) => TakeUnsignedBack(d, 8, rest);
  }

  lemma StringRoundTrip(text: Text, dynamic: bool, rest: seq<byte>)
    requires EmitValue(String(text), dynamic).error == None
    ensures TakeLeaf(8, EmitValue(String(text), dynamic).bytes + rest) == Ok(String(text), rest)
  {
    TakeTextBack(text, rest);
  }

  lemma ByteArrayRoundTrip(bytes: seq<byte>, dynamic: bool, rest: seq<byte>)
    requires EmitValue(ByteArray(bytes), dynamic).error == None
    ensures TakeLeaf(7, EmitValue(ByteArray(bytes), dynamic).bytes + rest) == Ok(ByteArray(bytes), rest)
  {
    BytesBack(bytes, rest);
  }

  lemma BytesBack(bytes: seq<byte>, rest: seq<byte>)
    requires EmitLength(|bytes|, ArrayTooLarge).error == None
    ensures var s := EmitLength(|bytes|, ArrayTooLarge).Then(Put(bytes)).bytes + rest;
            TakeLength(s) == Ok(|bytes|, bytes + rest) && TakeBytes(|bytes|, bytes + rest) == Ok(bytes, rest)
  {
    ThenParts(EmitLength(|bytes|, ArrayTooLarge), Put(bytes), rest);
    TakeLengthBack(|bytes|, ArrayTooLarge, bytes + rest);
    TakeAppended(|bytes|, bytes, rest);
  }

  lemma NumbersRoundTrip(ns: seq<int>, width: nat, rest: seq<byte>)
    requires forall i :: 0 <= i < |ns| ==> -(Radix(width) as int) <= 2 * ns[i] < Radix(width)
    requires EmitLength(|ns|, ArrayTooLarge).error == None
    ensures var body := EmitNumbers(ns, width);
            && TakeLength(EmitLength(|ns|, ArrayTooLarge).Then(Put(body)).bytes + rest) == Ok(|ns|, body + rest)
            && TakeNumbers(|ns|, width, body + rest) == Ok(ns, rest)
  {
    var body := EmitNumbers(ns, width);
    ThenParts(EmitLength(|ns|, ArrayTooLarge), Put(body), rest);
    TakeLengthBack(|ns|, ArrayTooLarge, body + rest);
    TakeNumbersBack(ns, width, rest);
  }

  lemma IntArrayRoundTrip(ints: seq<i32>, dynamic: bool, rest: seq<byte>)
    requires EmitValue(IntArray(ints), dynamic).error == None
    ensures TakeLeaf(11, EmitValue(IntArray(ints), dynamic).bytes + rest) == Ok(IntArray(ints), rest)
  {
    Radices();
    NumbersRoundTrip(ints, 4, rest);
  }

  lemma LongArrayRoundTrip(longs: seq<i64>, dynamic: bool, rest: seq<byte>)
    requires EmitValue(LongArray(longs), dynamic).error == None
    ensures TakeLeaf(12, EmitValue(LongArray(longs), dynamic).bytes + rest) == Ok(LongArray(longs), rest)
  {
    Radices();
    NumbersRoundTrip(longs, 8, rest);
  }

  lemma ArrayRoundTrip(v: Value, dynamic: bool, rest: seq<byte>)
    requires v.ByteArray? || v.IntArray? || v.LongArray? || v.String?
    requires EmitValue(v, dynamic).error == None
    ensures TakeLeaf(v.Id(), EmitValue(v, dynamic).bytes + rest) == Ok(v, rest)
  {
    hide TakeLeaf, EmitValue;
    if v.String? {
      StringRoundTrip(v.text, dynamic, rest);
    } else if v.ByteArray? {
      ByteArrayRoundTrip(v.bytes, dynamic, rest);
    } else if v.IntArray? {
      IntArrayRoundTrip(v.ints, dynamic, rest);
    } else {
      LongArrayRoundTrip(v.longs, dynamic, rest);
    }
  }

  // ---- Round trip -------------------------------------------------------------------------------

  // Whatever was written is read back as its normal form, and exactly what follows is left.
  lemma {:induction false} ValueRoundTrip(v: Value, dynamic: bool, rest: seq<byte>)
    requires WellFormed(v) && EmitValue(v, dynamic).error == None
    ensures TakeValue(v.Id(), EmitValue(v, dynamic).bytes + rest) == Ok(Norm(v), rest)
    decreases v, 1
  {
    if IsScalar(v) {
      ScalarRoundTrip(v, dynamic, rest);
    } else if v.List? {
      ListRoundTrip(v, dynamic, rest);
    } else if v.Compound? {
      CompoundRoundTrip(v, dynamic, rest);
    } else {
      ArrayRoundTrip(v, dynamic, rest);
    }
  }

  // The head of a list is read back as its element tag and its length.
  lemma ListHead(tag: byte, n: nat, body: Emit, rest: seq<byte>)
    requires Put([tag]).Then(EmitLength(n, ListTooLarge)).Then(body).error == None
    ensures body.error == None
    ensures var s := Put([tag]).Then(EmitLength(n, ListTooLarge)).Then(body).bytes + rest;
            TakeValue(9, s) == match TakeItems(tag, n, body.bytes + rest)
              case Ok(items, rest) => Ok(List(items), rest)
              case Err(e) => Err(e)
  {
    var length := EmitLength(n, ListTooLarge);
    ThenParts(Put([tag]).Then(length), body, rest);
    ThenParts(Put([tag]), length, body.bytes + rest);
    TakeByteBack(tag, length.bytes + (body.bytes + rest));
    TakeLengthBack(n, ListTooLarge, body.bytes + rest);
  }

  lemma {:induction false} ListRoundTrip(v: Value, dynamic: bool, rest: seq<byte>)
    requires v.List? && WellFormed(v) && EmitValue(v, dynamic).error == None
    ensures TakeValue(9, EmitValue(v, dynamic).bytes + rest) == Ok(Norm(v), rest)
    decreases v, 0
  {
    var items := v.items;
    if items == [] {
      EmptyListRoundTrip(rest);
    } else if IsMixed(items) {
      ListHead(10, |items|, EmitWrapped(items, dynamic), rest);
      WrappedRoundTrip(items, dynamic, rest);
    } else {
      ListHead(items[0].Id(), |items|, EmitItems(items, dynamic), rest);
      ItemsRoundTrip(items, items[0].Id(), dynamic, rest);
    }
  }

  lemma EmptyListRoundTrip(rest: seq<byte>)
    ensures TakeValue(9, [0] + SignedBytes(0, 4) + rest) == Ok(List([]), rest)
  {
    Radices();
    TakeSignedBack(0, 4, rest);
    TakeByteBack(0, SignedBytes(0, 4) + rest);
    assert TakeItems(0, 0, rest) == Ok([], rest);
    assert [0] + SignedBytes(0, 4) + rest == [0] + (SignedBytes(0, 4) + rest);
  }

  lemma ReadItemsStep(tag: byte, n: nat, s: seq<byte>, before: seq<Value>, mid: seq<byte>, last: Value, rest: seq<byte>)
    requires TakeItems(tag, n, s) == Ok(before, mid) && TakeValue(tag, mid) == Ok(last, rest)
    ensures TakeItems(tag, n + 1, s) == Ok(before + [last], rest)
  {
  }

  lemma {:induction false} ItemsRoundTrip(items: seq<Value>, tag: byte, dynamic: bool, rest: seq<byte>)
    requires forall i :: 0 <= i < |items| ==> WellFormed(items[i]) && items[i].Id() == tag
    requires EmitItems(items, dynamic).error == None
    ensures TakeItems(tag, |items|, EmitItems(items, dynamic).bytes + rest) == Ok(NormItems(items), rest)
    decreases items, 3
  {
    if items == [] {
      assert EmitItems(items, dynamic).bytes + rest == rest;
    } else {
      var m := |items| - 1;
      var last := EmitValue(items[m], dynamic);
      ThenParts(EmitItems(items[..m], dynamic), last, rest);
      ItemsRoundTrip(items[..m], tag, dynamic, last.bytes + rest);
      ValueRoundTrip(items[m], dynamic, rest);
      ReadItemsStep(tag, m, EmitItems(items, dynamic).bytes + rest, NormItems(items[..m]),
                    last.bytes + rest, Norm(items[m]), rest);
    }
  }

  lemma {:induction false} WrappedRoundTrip(items: seq<Value>, dynamic: bool, rest: seq<byte>)
    requires forall i :: 0 <= i < |items| ==> WellFormed(items[i])
    requires EmitWrapped(items, dynamic).error == None
    ensures TakeItems(10, |items|, EmitWrapped(items, dynamic).bytes + rest) == Ok(NormWrapped(items), rest)
    decreases items, 3
  {
    if items == [] {
      assert EmitWrapped(items, dynamic).bytes + rest == rest;
    } else {
      var m := |items| - 1;
      var last := EmitWrap(items[m], dynamic);
      ThenParts(EmitWrapped(items[..m], dynamic), last, rest);
      WrappedRoundTrip(items[..m], dynamic, last.bytes + rest);
      WrapRoundTrip(items[m], dynamic, rest);
      ReadItemsStep(10, m, EmitWrapped(items, dynamic).bytes + rest, NormWrapped(items[..m]),
                    last.bytes + rest, Wrap(Norm(items[m])), rest);
    }
  }

  lemma EndTag(entries: seq<Entry>, rest: seq<byte>)
    ensures TakeEntries(entries, [0] + rest) == Ok(entries, rest)
  {
  }

  lemma ReadCompound(s: seq<byte>, entries: seq<Entry>, rest: seq<byte>)
    requires TakeEntries([], s) == Ok(entries, rest)
    ensures TakeValue(10, s) == Ok(Compound(entries), rest)
  {
  }

  lemma {:induction false} WrapRoundTrip(v: Value, dynamic: bool, rest: seq<byte>)
    requires WellFormed(v) && EmitWrap(v, dynamic).error == None
    ensures TakeValue(10, EmitWrap(v, dynamic).bytes + rest) == Ok(Wrap(Norm(v)), rest)
    decreases v, 3
  {
    WrapIsEntry(v, dynamic, rest);
    ReadOneEntry([], Entry([], v), dynamic, [0] + rest);
    var none: seq<Entry> := [];
    assert none + [Entry([], Norm(v))] == [Entry([], Norm(v))];
    EndTag([Entry([], Norm(v))], rest);
    ReadCompound(EmitWrap(v, dynamic).bytes + rest, [Entry([], Norm(v))], rest);
  }

  lemma WrapIsEntry(v: Value, dynamic: bool, rest: seq<byte>)
    requires EmitWrap(v, dynamic).error == None
    ensures EmitEntry(Entry([], v), dynamic).error == None
    ensures EmitWrap(v, dynamic).bytes + rest == EmitEntry(Entry([], v), dynamic).bytes + ([0] + rest)
  {
  }

  lemma ReadEntriesStep(before: seq<Entry>, s: seq<byte>, tag: byte, named: seq<byte>,
      name: Text, payload: seq<byte>, v: Value, rest: seq<byte>)
    requires TakeByte(s) == Ok(tag, named) && tag != 0
    requires TakeText(named) == Ok(name, payload) && TakeValue(tag, payload) == Ok(v, rest)
    ensures TakeEntries(before, s) == TakeEntries(Insert(before, Entry(name, v)), rest)
  {
  }

  // Reading an entry that was written adds its normal form to the entries before it.
  lemma {:induction false} ReadOneEntry(before: seq<Entry>, e: Entry, dynamic: bool, rest: seq<byte>)
    requires WellFormed(e.value) && EmitEntry(e, dynamic).error == None
    requires forall i :: 0 <= i < |before| ==> before[i].name != e.name
    ensures TakeEntries(before, EmitEntry(e, dynamic).bytes + rest)
              == TakeEntries(before + [Entry(e.name, Norm(e.value))], rest)
    decreases e.value, 2
  {
    var id, payload := e.value.Id(), EmitValue(e.value, dynamic);
    ThenParts(EmitTag(id, e.name), payload, rest);
    ThenParts(Put([id]), EmitText(e.name), payload.bytes + rest);
    TakeByteBack(id, EmitText(e.name).bytes + (payload.bytes + rest));
    TakeTextBack(e.name, payload.bytes + rest);
    ValueRoundTrip(e.value, dynamic, rest);
    InsertNew(before, Entry(e.name, Norm(e.value)));
    ReadEntriesStep(before, EmitEntry(e, dynamic).bytes + rest, id,
                    EmitText(e.name).bytes + (payload.bytes + rest), e.name,
                    payload.bytes + rest, Norm(e.value), rest);
  }

  lemma {:induction false} EntriesRoundTrip(entries: seq<Entry>, dynamic: bool, rest: seq<byte>)
    requires DistinctNames(entries) && forall i :: 0 <= i < |entries| ==> WellFormed(entries[i].value)
    requires EmitEntries(entries, dynamic).error == None
    ensures TakeEntries([], EmitEntries(entries, dynamic).bytes + rest) == TakeEntries(NormEntries(entries), rest)
    decreases entries, 3
  {
    if entries == [] {
      assert EmitEntries(entries, dynamic).bytes + rest == rest;
    } else {
      var m := |entries| - 1;
      var last := EmitEntry(entries[m], dynamic);
      ThenParts(EmitEntries(entries[..m], dynamic), last, rest);
      EntriesRoundTrip(entries[..m], dynamic, last.bytes + rest);
      ReadOneEntry(NormEntries(entries[..m]), entries[m], dynamic, rest);
    }
  }

  lemma {:induction false} CompoundRoundTrip(v: Value, dynamic: bool, rest: seq<byte>)
    requires v.Compound? && WellFormed(v) && EmitValue(v, dynamic).error == None
    ensures TakeValue(10, EmitValue(v, dynamic).bytes + rest) == Ok(Norm(v), rest)
    decreases v, 0
  {
    ThenParts(EmitEntries(v.entries, dynamic), Put([0]), rest);
    EntriesRoundTrip(v.entries, dynamic, [0] + rest);
    EndTag(NormEntries(v.entries), rest);
    ReadCompound(EmitValue(v, dynamic).bytes + rest, NormEntries(v.entries), rest);
  }

  lemma RootRoundTrip(name: Text, v: Value, dynamic: bool, nameless: bool, rest: seq<byte>)
    requires WellFormed(v) && EmitRoot(name, v, dynamic, nameless).error == None
    ensures TakeRoot(nameless, EmitRoot(name, v, dynamic, nameless).bytes + rest)
              == Ok(Entry(if nameless then [] else name, Norm(v)), rest)
  {
    var payload := EmitValue(v, dynamic);
    ThenParts(if nameless then Put([v.Id()]) else EmitTag(v.Id(), name), payload, rest);
    ValueRoundTrip(v, dynamic, rest);
    if nameless {
      TakeByteBack(v.Id(), payload.bytes + rest);
    } else {
      ThenParts(Put([v.Id()]), EmitText(name), payload.bytes + rest);
      TakeByteBack(v.Id(), EmitText(name).bytes + (payload.bytes + rest));
      TakeTextBack(name, payload.bytes + rest);
    }
  }

  // ---- Normalisation ----------------------------------------------------------------------------

  lemma {:induction false} NormKeepsMixing(items: seq<Value>)
    ensures IsMixed(NormItems(items)) <==> IsMixed(items)
    ensures !IsMixed(NormWrapped(items))
  {
  }

  // Normalising twice is normalising once.
  lemma {:induction false} NormIdempotent(v: Value)
    ensures Norm(Norm(v)) == Norm(v)
    decreases v, 1
  {
    if v.List? {
      ItemsIdempotent(v.items);
      NormKeepsMixing(v.items);
    } else if v.Compound? {
      EntriesIdempotent(v.entries);
    }
  }

  lemma {:induction false} ItemsIdempotent(items: seq<Value>)
    ensures NormItems(NormItems(items)) == NormItems(items)
    ensures NormItems(NormWrapped(items)) == NormWrapped(items)
    decreases items, 0
  {
    forall i | 0 <= i < |items|
      ensures Norm(Norm(items[i])) == Norm(items[i])
      ensures Norm(Wrap(Norm(items[i]))) == Wrap(Norm(items[i]))
    {
      NormIdempotent(items[i]);
      NormWrap(Norm(items[i]));
    }
  }

  lemma {:induction false} EntriesIdempotent(entries: seq<Entry>)
    ensures NormEntries(NormEntries(entries)) == NormEntries(entries)
    decreases entries, 0
  {
    forall i | 0 <= i < |entries|
      ensures Norm(Norm(entries[i].value)) == Norm(entries[i].value)
    {
      NormIdempotent(entries[i].value);
    }
  }

  lemma NormWrap(v: Value)
    ensures Norm(Wrap(v)) == Wrap(Norm(v))
  {
  }

  // Without mixed lists normalising changes nothing.
  predicate HasNoMixedList(v: Value) {
    match v
    case List(items) => !IsMixed(items) && forall i :: 0 <= i < |items| ==> HasNoMixedList(items[i])
    case Compound(entries) => forall i :: 0 <= i < |entries| ==> HasNoMixedList(entries[i].value)
    case _ => true
  }

  lemma ListIsIdentity(items: seq<Value>)
    requires forall i :: 0 <= i < |items| ==> (Norm(items[i]) == items[i] <==> HasNoMixedList(items[i]))
    ensures Norm(List(items)) == List(items) <==> HasNoMixedList(List(items))
  {
    if IsMixed(items) {
      NormKeepsMixing(items);
      assert NormWrapped(items) != items;
    } else if forall i :: 0 <= i < |items| ==> HasNoMixedList(items[i]) {
      assert NormItems(items) == items;
    } else {
      var i :| 0 <= i < |items| && !HasNoMixedList(items[i]);
      assert NormItems(items)[i] != items[i];
    }
  }

  lemma CompoundIsIdentity(entries: seq<Entry>)
    requires forall i :: 0 <= i < |entries| ==>
               (Norm(entries[i].value) == entries[i].value <==> HasNoMixedList(entries[i].value))
    ensures Norm(Compound(entries)) == Compound(entries) <==> HasNoMixedList(Compound(entries))
  {
    if forall i :: 0 <= i < |entries| ==> HasNoMixedList(entries[i].value) {
      assert NormEntries(entries) == entries;
    } else {
      var i :| 0 <= i < |entries| && !HasNoMixedList(entries[i].value);
      assert NormEntries(entries)[i].value != entries[i].value;
    }
  }

  lemma {:induction false} NormIsIdentity(v: Value)
    ensures Norm(v) == v <==> HasNoMixedList(v)
    decreases v
  {
    match v
    case List(items) =>
      forall i | 0 <= i < |items|
        ensures Norm(items[i]) == items[i] <==> HasNoMixedList(items[i])
      {
        NormIsIdentity(items[i]);
      }
      ListIsIdentity(items);
    case Compound(entries) =>
      forall i | 0 <= i < |entries|
        ensures Norm(entries[i].value) == entries[i].value <==> HasNoMixedList(entries[i].value)
      {
        NormIsIdentity(entries[i].value);
      }
      CompoundIsIdentity(entries);
    case _ =>
  }

  // The normal form is written, with or without the option, exactly as the value is with it.
  lemma {:induction false} NormWritesTheSame(v: Value, dynamic: bool)
    ensures EmitValue(Norm(v), dynamic) == EmitValue(v, true)
    decreases v, 1
  {
    if v.List? {
      ItemsWriteTheSame(v.items, dynamic);
      WrappedWriteTheSame(v.items, dynamic);
      if IsMixed(v.items) {
        MixedWritesTheSame(v.items, dynamic);
      } else {
        UniformWritesTheSame(v.items, dynamic);
      }
    } else if v.Compound? {
      EntriesWriteTheSame(v.entries, dynamic);
    } else {
      LeafWritesTheSame(v, dynamic);
    }
  }

  lemma {:induction false} LeafWritesTheSame(v: Value, dynamic: bool)
    requires !v.List? && !v.Compound?
    ensures Norm(v) == v && EmitValue(v, dynamic) == EmitValue(v, true)
  {
  }

  lemma {:induction false} UniformListWrites(items: seq<Value>, dynamic: bool)
    requires items != [] && !IsMixed(items)
    ensures EmitValue(List(items), dynamic) ==
              Put([items[0].Id()]).Then(EmitLength(|items|, ListTooLarge)).Then(EmitItems(items, dynamic))
  {
  }

  lemma {:induction false} MixedListWrites(items: seq<Value>)
    requires IsMixed(items)
    ensures EmitValue(List(items), true) == Put([10]).Then(EmitLength(|items|, ListTooLarge))
            .Then(EmitWrapped(items, true))
  {
  }

  lemma {:induction false} CompoundsWriteAsMixed(w: seq<Value>, items: seq<Value>, dynamic: bool)
    requires !IsMixed(w) && |w| == |items| > 0 && w[0].Id() == 10
    requires IsMixed(items) && EmitItems(w, dynamic) == EmitWrapped(items, true)
    ensures EmitValue(List(w), dynamic) == EmitValue(List(items), true)
  {
    MixedListWrites(items);
    UniformListWrites(w, dynamic);
  }

  lemma {:induction false} MixedWritesTheSame(items: seq<Value>, dynamic: bool)
    requires IsMixed(items) && EmitItems(NormWrapped(items), dynamic) == EmitWrapped(items, true)
    ensures EmitValue(List(NormWrapped(items)), dynamic) == EmitValue(List(items), true)
  {
    hide EmitItems, EmitWrapped;
    NormKeepsMixing(items);
    CompoundsWriteAsMixed(NormWrapped(items), items, dynamic);
  }

  lemma {:induction false} UniformWritesTheSame(items: seq<Value>, dynamic: bool)
    requires !IsMixed(items) && EmitItems(NormItems(items), dynamic) == EmitItems(items, true)
    ensures EmitValue(List(NormItems(items)), dynamic) == EmitValue(List(items), true)
  {
    NormKeepsMixing(items);
    if items != [] {
      UniformListWrites(items, true);
      UniformListWrites(NormItems(items), dynamic);
    }
  }

  lemma {:induction false} ItemsWriteTheSame(items: seq<Value>, dynamic: bool)
    ensures EmitItems(NormItems(items), dynamic) == EmitItems(items, true)
    decreases items, 0
  {
    if items == [] {
    } else {
      var m := |items| - 1;
      ItemsWriteTheSame(items[..m], dynamic);
      NormWritesTheSame(items[m], dynamic);
      assert NormItems(items)[..m] == NormItems(items[..m]);
    }
  }

  lemma {:induction false} WrappedWriteTheSame(items: seq<Value>, dynamic: bool)
    ensures EmitItems(NormWrapped(items), dynamic) == EmitWrapped(items, true)
    decreases items, 0
  {
    if items == [] {
    } else {
      var m := |items| - 1;
      WrappedWriteTheSame(items[..m], dynamic);
      NormWritesTheSame(items[m], dynamic);
      WrapWrites(Norm(items[m]), dynamic);
      assert NormWrapped(items)[..m] == NormWrapped(items[..m]);
    }
  }

  lemma {:induction false} OneEntryWrites(e: Entry, dynamic: bool)
    ensures EmitEntries([e], dynamic) == EmitEntry(e, dynamic)
  {
  }

  lemma {:induction false} WrapWrites(v: Value, dynamic: bool)
    ensures EmitValue(Wrap(v), dynamic) == EmitTag(v.Id(), []).Then(EmitValue(v, dynamic)).Then(Put([0]))
  {
    OneEntryWrites(Entry([], v), dynamic);
  }

  lemma {:induction false} EntriesWriteTheSame(entries: seq<Entry>, dynamic: bool)
    ensures EmitEntries(NormEntries(entries), dynamic) == EmitEntries(entries, true)
    decreases entries, 0
  {
    if entries == [] {
    } else {
      var m := |entries| - 1;
      EntriesWriteTheSame(entries[..m], dynamic);
      NormWritesTheSame(entries[m].value, dynamic);
      assert NormEntries(entries)[..m] == NormEntries(entries[..m]);
    }
  }
}
