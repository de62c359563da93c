/** The NBT binary writer. */
module NbtWriting {
  import opened Prelude
  import opened NbtValues
  import opened Texts

  const MAX_TEXT: nat := 0xFFFF

  datatype WriteError = StringTooLarge | ArrayTooLarge | ListTooLarge | HeterogeneousList

  // What a write puts out before it succeeds or fails.
  datatype Emit = Emit(bytes: seq<byte>, error: Option<WriteError>) {
    // This write, and if it succeeds the next one.
    function Then(next: Emit): Emit {
      if error.Some? then this else Emit(bytes + next.bytes, next.error)
    }
  }

  function Put(bytes: seq<byte>): Emit { Emit(bytes, None) }

  function Fail(e: WriteError): Emit { Emit([], Some(e)) }

  function EmitLength(n: nat, e: WriteError): Emit {
    if n > I32_MAX then Fail(e) else Put(SignedBytes(n, 4))
  }

  function EmitText(text: Text): Emit {
    if |text| > MAX_TEXT then Fail(StringTooLarge) else Put(BigEndian(|text|, 2)).Then(Put(text))
  }

  // What introduces a named value.
  function EmitTag(id: byte, name: Text): Emit {
    Put([id]).Then(EmitText(name))
  }

  lemma ThenAssociative(a: Emit, b: Emit, c: Emit)
    ensures a.Then(b).Then(c) == a.Then(b.Then(c))
  {
  }

  function EmitNumbers(ns: seq<int>, width: nat): seq<byte> {
    if ns == [] then [] else EmitNumbers(ns[..|ns| - 1], width) + SignedBytes(ns[|ns| - 1], width)
  }

  // The payload of a value; `dynamic` is the option that allows mixed lists.
  function EmitValue(v: Value, dynamic: bool): Emit
    decreases v, 1
  {
    match v
    case Byte(b) => Put(SignedBytes(b, 1))
    case Short(s) => Put(SignedBytes(s, 2))
    case Int(i) => Put(SignedBytes(i, 4))
    case Long(l) => Put(SignedBytes(l, 8))
    case Float(f) => Put(BigEndian(f, 4))
    case Double(d) => Put(BigEndian(d, 8))
    case ByteArray(bytes) => EmitLength(|bytes|, ArrayTooLarge).Then(Put(bytes))
    case String(text) => EmitText(text)
    case List(items) =>
      if items == [] then Put([0] + SignedBytes(0, 4))
      else if !IsMixed(items) then
        Put([items[0].Id()]).Then(EmitLength(|items|, ListTooLarge)).Then(EmitItems(items, dynamic))
      else if dynamic then
        Put([10]).Then(EmitLength(|items|, ListTooLarge)).Then(EmitWrapped(items, dynamic))
      else Fail(HeterogeneousList)
    case Compound(entries) => EmitEntries(entries, dynamic).Then(Put([0]))
    case IntArray(ints) => EmitLength(|ints|, ArrayTooLarge).Then(Put(EmitNumbers(ints, 4)))
    case LongArray(longs) => EmitLength(|longs|, ArrayTooLarge).Then(Put(EmitNumbers(longs, 8)))
  }

  function EmitItems(items: seq<Value>, dynamic: bool): Emit
    decreases items, 0
  {
    if items == [] then Put([])
    else EmitItems(items[..|items| - 1], dynamic).Then(EmitValue(items[|items| - 1], dynamic))
  }

  // Elements of a mixed list are each wrapped in a compound with one unnamed entry.
  function EmitWrapped(items: seq<Value>, dynamic: bool): Emit
    decreases items, 0
  {
    if items == [] then Put([])
    else EmitWrapped(items[..|items| - 1], dynamic).Then(EmitWrap(items[|items| - 1], dynamic))
  }

  function EmitWrap(v: Value, dynamic: bool): Emit
    decreases v, 2
  {
    EmitTag(v.Id(), []).Then(EmitValue(v, dynamic)).Then(Put([0]))
  }

  function EmitEntries(entries: seq<Entry>, dynamic: bool): Emit
    decreases entries, 0
  {
    if entries == [] then Put([])
    else EmitEntries(entries[..|entries| - 1], dynamic).Then(EmitEntry(entries[|entries| - 1], dynamic))
  }

  function EmitEntry(e: Entry, dynamic: bool): Emit
    decreases e, 3
  {
    EmitTag(e.value.Id(), e.name).Then(EmitValue(e.value, dynamic))
  }

  function EmitRoot(name: Text, v: Value, dynamic: bool, nameless: bool): Emit {
    (if nameless then Put([v.Id()]) else EmitTag(v.Id(), name)).Then(EmitValue(v, dynamic))
  }

  // A failed element ends the list.
  lemma {:induction false} ItemsStop(items: seq<Value>, n: nat, dynamic: bool)
    requires n <= |items|
    ensures EmitItems(items[..n], dynamic).error.Some? ==> EmitItems(items, dynamic) == EmitItems(items[..n], dynamic)
    ensures EmitWrapped(items[..n], dynamic).error.Some? ==>
      EmitWrapped(items, dynamic) == EmitWrapped(items[..n], dynamic)
  {
    if n == |items| {
      assert items[..n] == items;
    } else {
      ItemsStop(items[..|items| - 1], n, dynamic);
      assert items[..|items| - 1][..n] == items[..n];
    }
  }

  lemma {:induction false} EntriesStop(entries: seq<Entry>, n: nat, dynamic: bool)
    requires n <= |entries|
    ensures EmitEntries(entries[..n], dynamic).error.Some? ==>
      EmitEntries(entries, dynamic) == EmitEntries(entries[..n], dynamic)
  {
    if n == |entries| {
      assert entries[..n] == entries;
    } else {
      EntriesStop(entries[..|entries| - 1], n, dynamic);
      assert entries[..|entries| - 1][..n] == entries[..n];
    }
  }

  // ---- The writer -----------------------------------------------------------------------------

  class NbtWriter {
    var writer: seq<byte>
    const dynamic: bool
    const nameless: bool

    constructor (dynamic: bool, nameless: bool)
      ensures writer == [] && this.dynamic == dynamic && this.nameless == nameless
    {
      writer := [];
      this.dynamic, this.nameless := dynamic, nameless;
    }

    method WriteString(text: Text) returns (error: Option<WriteError>)
      modifies this
      ensures Emit(writer, error) == Put(old(writer)).Then(EmitText(text))
    {
      if |text| > MAX_TEXT {
        return Some(StringTooLarge);
      }
      writer := writer + BigEndian(|text|, 2);
      writer := writer + text;
      error := None;
    }

    method WriteLength(n: nat, tooLarge: WriteError) returns (error: Option<WriteError>)
      modifies this
      ensures Emit(writer, error) == Put(old(writer)).Then(EmitLength(n, tooLarge))
    {
      if n > I32_MAX {
        return Some(tooLarge);
      }
      writer := writer + SignedBytes(n, 4);
      error := None;
    }

    method WriteNumbers(ns: seq<int>, width: nat)
      modifies this
      ensures writer == old(writer) + EmitNumbers(ns, width)
    {
      for i := 0 to |ns|
        invariant writer == old(writer) + EmitNumbers(ns[..i], width)
      {
        assert ns[..i + 1][..i] == ns[..i];
        writer := writer + SignedBytes(ns[i], width);
      }
      assert ns[..|ns|] == ns;
    }

    method WriteValue(v: Value) returns (error: Option<WriteError>)
      modifies this
      ensures Emit(writer, error) == Put(old(writer)).Then(EmitValue(v, dynamic))
      decreases v, 1
    {
      hide EmitEntries, EmitLength, EmitNumbers, EmitText, SignedBytes, BigEndian;
      error := None;
      match v {
        case Byte(b) => writer := writer + SignedBytes(b, 1);
        case Short(s) => writer := writer + SignedBytes(s, 2);
        case Int(i) => writer := writer + SignedBytes(i, 4);
        case Long(l) => writer := writer + SignedBytes(l, 8);
        case Float(f) => writer := writer + BigEndian(f, 4);
        case Double(d) => writer := writer + BigEndian(d, 8);
        case ByteArray(bytes) =>
          error := WriteLength(|bytes|, ArrayTooLarge);
          if error == None {
            writer := writer + bytes;
          }
        case String(text) => error := WriteString(text);
        case List(items) => error := WriteList(items);
        case Compound(entries) =>
          error := WriteEntries(entries);
          if error == None {
            writer := writer + [0];
          }
        case IntArray(ints) =>
          error := WriteLength(|ints|, ArrayTooLarge);
          if error == None {
            WriteNumbers(ints, 4);
          }
        case LongArray(longs) =>
          error := WriteLength(|longs|, ArrayTooLarge);
          if error == None {
            WriteNumbers(longs, 8);
          }
      }
    }

    method WriteList(items: seq<Value>) returns (error: Option<WriteError>)
      modifies this
      ensures Emit(writer, error) == Put(old(writer)).Then(EmitValue(List(items), dynamic))
      decreases items, 4
    {
      hide EmitItems, EmitWrapped, EmitLength, SignedBytes;
      if items == [] {
        writer := writer + [0];
        writer := writer + SignedBytes(0, 4);
        return None;
      }
      var mixed := IsMixed(items);
      if mixed && !dynamic {
        return Some(HeterogeneousList);
      }
      writer := writer + [if mixed then 10 else items[0].Id()];
      error := WriteLength(|items|, ListTooLarge);
      if error == None {
        if mixed {
          error := WriteWrapped(items);
        } else {
          error := WriteItems(items);
        }
      }
    }

    method WriteItems(items: seq<Value>) returns (error: Option<WriteError>)
      modifies this
      ensures Emit(writer, error) == Put(old(writer)).Then(EmitItems(items, dynamic))
      decreases items, 3
    {
      ghost var before := Put(writer);
      for i := 0 to |items|
        invariant Put(writer) == before.Then(EmitItems(items[..i], dynamic))
      {
        ThenAssociative(before, EmitItems(items[..i], dynamic), EmitValue(items[i], dynamic));
        assert items[..i + 1][..i] == items[..i];
        error := WriteValue(items[i]);
        if error != None {
          ItemsStop(items, i + 1, dynamic);
          return;
        }
      }
      assert items[..|items|] == items;
      error := None;
    }

    // The elements of a mixed list, each as { "": elem }.
    method WriteWrapped(items: seq<Value>) returns (error: Option<WriteError>)
      modifies this
      ensures Emit(writer, error) == Put(old(writer)).Then(EmitWrapped(items, dynamic))
      decreases items, 3
    {
      ghost var before := Put(writer);
      for i := 0 to |items|
        invariant Put(writer) == before.Then(EmitWrapped(items[..i], dynamic))
      {
        ThenAssociative(before, EmitWrapped(items[..i], dynamic), EmitWrap(items[i], dynamic));
        assert items[..i + 1][..i] == items[..i];
        error := WriteWrap(items[i]);
        if error != None {
          ItemsStop(items, i + 1, dynamic);
          return;
        }
      }
      assert items[..|items|] == items;
      error := None;
    }

    method WriteWrap(v: Value) returns (error: Option<WriteError>)
      modifies this
      ensures Emit(writer, error) == Put(old(writer)).Then(EmitWrap(v, dynamic))
      decreases v, 2
    {
      ThenAssociative(Put(writer), EmitTag(v.Id(), []), EmitValue(v, dynamic));
      ThenAssociative(Put(writer), EmitTag(v.Id(), []).Then(EmitValue(v, dynamic)), Put([0]));
      error := WriteTag(v.Id(), []);
      if error == None {
        error := WriteValue(v);
        if error == None {
          writer := writer + [0];
        }
      }
    }

    method WriteTag(id: byte, name: Text) returns (error: Option<WriteError>)
      modifies this
      ensures Emit(writer, error) == Put(old(writer)).Then(EmitTag(id, name))
    {
      writer := writer + [id];
      error := WriteString(name);
    }

    method WriteEntry(e: Entry) returns (error: Option<WriteError>)
      modifies this
      ensures Emit(writer, error) == Put(old(writer)).Then(EmitEntry(e, dynamic))
      decreases e, 3
    {
      ThenAssociative(Put(writer), EmitTag(e.value.Id(), e.name), EmitValue(e.value, dynamic));
      error := WriteTag(e.value.Id(), e.name);
      if error == None {
        error := WriteValue(e.value);
      }
    }

    method WriteEntries(entries: seq<Entry>) returns (error: Option<WriteError>)
      modifies this
      ensures Emit(writer, error) == Put(old(writer)).Then(EmitEntries(entries, dynamic))
      decreases entries, 3
    {
      ghost var before := Put(writer);
      for i := 0 to |entries|
        invariant Put(writer) == before.Then(EmitEntries(entries[..i], dynamic))
      {
        ThenAssociative(before, EmitEntries(entries[..i], dynamic), EmitEntry(entries[i], dynamic));
        assert entries[..i + 1][..i] == entries[..i];
        error := WriteEntry(entries[i]);
        if error != None {
          EntriesStop(entries, i + 1, dynamic);
          return;
        }
      }
      assert entries[..|entries|] == entries;
      error := None;
    }

    method WriteRoot(name: Text, v: Value) returns (error: Option<WriteError>)
      modifies this
      ensures Emit(writer, error) == Put(old(writer)).Then(EmitRoot(name, v, dynamic, nameless))
    {
      ThenAssociative(Put(writer), if nameless then Put([v.Id()]) else EmitTag(v.Id(), name), EmitValue(v, dynamic));
      error := None;
      if nameless {
        writer := writer + [v.Id()];
      } else {
        error := WriteTag(v.Id(), name);
      }
      if error == None {
        error := WriteValue(v);
      }
    }
  }
}
