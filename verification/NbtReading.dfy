/** The NBT binary reader. */
module NbtReading {
  import opened Prelude
  import opened NbtValues
  import opened Texts

  datatype ReadError = UnexpectedEof | InvalidTagId(id: byte) | NegativeLength | InvalidUtf8

  // A value read from the front of some bytes, and the bytes after it.
  datatype Result<+T> = Ok(value: T, rest: seq<byte>) | Err(error: ReadError) {
    predicate IsFailure() { Err? }

    function PropagateFailure<U>(): Result<U>
      requires Err?
    {
      Err(error)
    }

    function Extract(): (T, seq<byte>)
      requires Ok?
    {
      (value, rest)
    }
  }

  // ---- What reading from the front of a byte sequence yields ----------------------------------

  function TakeBytes(n: nat, s: seq<byte>): (r: Result<seq<byte>>)
    ensures r.Ok? ==> |r.rest| == |s| - n && |r.value| == n
  {
    if |s| < n then Err(UnexpectedEof) else Ok(s[..n], s[n..])
  }

  function TakeByte(s: seq<byte>): (r: Result<byte>)
    ensures r.Ok? ==> |r.rest| == |s| - 1
  {
    if s == [] then Err(UnexpectedEof) else Ok(s[0], s[1..])
  }

  function TakeSigned(width: nat, s: seq<byte>): (r: Result<int>)
    ensures r.Ok? ==> |r.rest| == |s| - width && -(Radix(width) as int) <= 2 * r.value < Radix(width)
  {
    var (bytes, rest) :- TakeBytes(width, s);
    FromSignedBytesBound(bytes);
    Ok(FromSignedBytes(bytes), rest)
  }

  function TakeUnsigned(width: nat, s: seq<byte>): (r: Result<nat>)
    ensures r.Ok? ==> |r.rest| == |s| - width && r.value < Radix(width)
  {
    var (bytes, rest) :- TakeBytes(width, s);
    FromBigEndianBound(bytes);
    Ok(FromBigEndian(bytes), rest)
  }

  function TakeLength(s: seq<byte>): (r: Result<nat>)
    ensures r.Ok? ==> |r.rest| == |s| - 4
  {
    var (n, rest) :- TakeSigned(4, s);
    if n < 0 then Err(NegativeLength) else Ok(n, rest)
  }

  function TakeText(s: seq<byte>): (r: Result<Text>)
    ensures r.Ok? ==> |r.rest| <= |s| - 2
  {
    var (n, rest) :- TakeUnsigned(2, s);
    var (bytes, rest) :- TakeBytes(n, rest);
    if IsUtf8(bytes) then Ok(bytes, rest) else Err(InvalidUtf8)
  }

  function TakeNumbers(n: nat, width: nat, s: seq<byte>): (r: Result<seq<int>>)
    ensures r.Ok? ==> |r.rest| <= |s|
    ensures r.Ok? ==> forall i :: 0 <= i < |r.value| ==> -(Radix(width) as int) <= 2 * r.value[i] < Radix(width)
  {
    if n == 0 then Ok([], s)
    else
      var (before, rest) :- TakeNumbers(n - 1, width, s);
      var (last, rest) :- TakeSigned(width, rest);
      Ok(before + [last], rest)
  }

  // Adds an entry to a compound: a name that is already there keeps its place and gets the new value.
  function Insert(entries: seq<Entry>, e: Entry): seq<Entry> {
    if entries == [] then [e]
    else if entries[0].name == e.name then [e] + entries[1..]
    else [entries[0]] + Insert(entries[1..], e)
  }

  // Values that hold no other values.
  function TakeLeaf(tag: byte, s: seq<byte>): (r: Result<Value>)
    ensures r.Ok? ==> |r.rest| < |s|
  {
    Radices();
    match tag
    case 1 => var (n, rest) :- TakeSigned(1, s); Ok(Byte(n), rest)
    case 2 => var (n, rest) :- TakeSigned(2, s); Ok(Short(n), rest)
    case 3 => var (n, rest) :- TakeSigned(4, s); Ok(Int(n), rest)
    case 4 => var (n, rest) :- TakeSigned(8, s); Ok(Long(n), rest)
    case 5 => var (n, rest) :- TakeUnsigned(4, s); Ok(Float(n), rest)
    case 6 => var (n, rest) :- TakeUnsigned(8, s); Ok(Double(n), rest)
    case 7 =>
      var (n, rest) :- TakeLength(s);
      var (bytes, rest) :- TakeBytes(n, rest);
      Ok(ByteArray(bytes), rest)
    case 8 => var (text, rest) :- TakeText(s); Ok(String(text), rest)
    case 11 =>
      var (n, rest) :- TakeLength(s);
      var (ns, rest) :- TakeNumbers(n, 4, rest);
      Ok(IntArray(ns), rest)
    case 12 =>
      var (n, rest) :- TakeLength(s);
      var (ns, rest) :- TakeNumbers(n, 8, rest);
      Ok(LongArray(ns), rest)
    case id => Err(InvalidTagId(id))
  }

  // The payload of a value with the given tag.
  function TakeValue(tag: byte, s: seq<byte>): (r: Result<Value>)
    ensures r.Ok? ==> |r.rest| < |s|
    decreases |s|, 2, 0
  {
    if tag == 9 then TakeList(s)
    else if tag == 10 then var (entries, rest) :- TakeEntries([], s); Ok(Compound(entries), rest)
    else TakeLeaf(tag, s)
  }

  function TakeList(s: seq<byte>): (r: Result<Value>)
    ensures r.Ok? ==> |r.rest| < |s|
    decreases |s|, 1, 0
  {
    var (elem, rest) :- TakeByte(s);
    var (n, rest) :- TakeLength(rest);
    var (items, rest) :- TakeItems(elem, n, rest);
    Ok(List(items), rest)
  }

  function TakeItems(tag: byte, n: nat, s: seq<byte>): (r: Result<seq<Value>>)
    ensures r.Ok? ==> |r.rest| <= |s|
    decreases |s|, 3, n
  {
    if n == 0 then Ok([], s)
    else
      var (before, rest) :- TakeItems(tag, n - 1, s);
      var (last, rest) :- TakeValue(tag, rest);
      Ok(before + [last], rest)
  }

  // Entries up to the end tag, added to those read before.
  function TakeEntries(before: seq<Entry>, s: seq<byte>): (r: Result<seq<Entry>>)
    ensures r.Ok? ==> |r.rest| < |s|
    decreases |s|, 0, 0
  {
    var (tag, rest) :- TakeByte(s);
    if tag == 0 then Ok(before, rest)
    else
      var (name, rest) :- TakeText(rest);
      var (value, rest) :- TakeValue(tag, rest);
      TakeEntries(Insert(before, Entry(name, value)), rest)
  }

  function TakeRoot(nameless: bool, s: seq<byte>): Result<Entry> {
    var (tag, rest) :- TakeByte(s);
    var (name, rest) :- if nameless then Ok([], rest) else TakeText(rest);
    var (value, rest) :- TakeValue(tag, rest);
    Ok(Entry(name, value), rest)
  }

  // A failed element ends the list.
  lemma {:induction false} ItemsStop(tag: byte, i: nat, n: nat, s: seq<byte>)
    requires i <= n && TakeItems(tag, i, s).Err?
    ensures TakeItems(tag, n, s) == TakeItems(tag, i, s)
  {
    if i == n {
    } else {
      ItemsStop(tag, i, n - 1, s);
    }
  }

  lemma {:induction false} NumbersStop(i: nat, n: nat, width: nat, s: seq<byte>)
    requires i <= n && TakeNumbers(i, width, s).Err?
    ensures TakeNumbers(n, width, s) == TakeNumbers(i, width, s)
  {
    if i == n {
    } else {
      NumbersStop(i, n - 1, width, s);
    }
  }

  // ---- The reader -----------------------------------------------------------------------------

  datatype Outcome<+T> = Done(value: T) | Failed(error: ReadError) {
    predicate IsFailure() { Failed? }

    function PropagateFailure<U>(): Outcome<U>
      requires Failed?
    {
      Failed(error)
    }

    function Extract(): T
      requires Done?
    {
      value
    }
  }

  // A read that came out as expected, and left what was expected if it succeeded.
  ghost predicate Came<T>(out: Outcome<T>, left: seq<byte>, expected: Result<T>) {
    match expected
    case Ok(v, rest) => out == Done(v) && left == rest
    case Err(e) => out == Failed(e)
  }

  class NbtReader {
    var reader: seq<byte>
    const nameless: bool

    constructor (reader: seq<byte>, nameless: bool)
      ensures this.reader == reader && this.nameless == nameless
    {
      this.reader, this.nameless := reader, nameless;
    }

    method ReadExact(n: nat) returns (out: Outcome<seq<byte>>)
      modifies this
      ensures Came(out, reader, TakeBytes(n, old(reader)))
    {
      if |reader| < n {
        return Failed(UnexpectedEof);
      }
      out := Done(reader[..n]);
      reader := reader[n..];
    }

    method ReadByte() returns (out: Outcome<byte>)
      modifies this
      ensures Came(out, reader, TakeByte(old(reader)))
    {
      var bytes :- ReadExact(1);
      out := Done(bytes[0]);
    }

    method ReadSigned(width: nat) returns (out: Outcome<int>)
      modifies this
      ensures Came(out, reader, TakeSigned(width, old(reader)))
    {
      var bytes :- ReadExact(width);
      out := Done(FromSignedBytes(bytes));
    }

    method ReadUnsigned(width: nat) returns (out: Outcome<nat>)
      modifies this
      ensures Came(out, reader, TakeUnsigned(width, old(reader)))
    {
      var bytes :- ReadExact(width);
      out := Done(FromBigEndian(bytes));
    }

    method ReadLength() returns (out: Outcome<nat>)
      modifies this
      ensures Came(out, reader, TakeLength(old(reader)))
    {
      var n :- ReadSigned(4);
      if n < 0 {
        return Failed(NegativeLength);
      }
      out := Done(n);
    }

    method ReadString() returns (out: Outcome<Text>)
      modifies this
      ensures Came(out, reader, TakeText(old(reader)))
    {
      var length :- ReadUnsigned(2);
      var bytes :- ReadExact(length);
      if !IsUtf8(bytes) {
        return Failed(InvalidUtf8);
      }
      out := Done(bytes);
    }

    // The elements of an array, one by one.
    method ReadNumbers(length: nat, width: nat) returns (out: Outcome<seq<int>>)
      modifies this
      ensures Came(out, reader, TakeNumbers(length, width, old(reader)))
    {
      ghost var start := reader;
      var list: seq<int> := [];
      for i := 0 to length
        invariant TakeNumbers(i, width, start) == Ok(list, reader)
      {
        var n := ReadSigned(width);
        if n.Failed? {
          NumbersStop(i + 1, length, width, start);
          return Failed(n.error);
        }
        list := list + [n.value];
      }
      out := Done(list);
    }

    method ReadLeaf(tag: byte) returns (out: Outcome<Value>)
      modifies this
      ensures Came(out, reader, TakeLeaf(tag, old(reader)))
    {
      Radices();
      match tag {
        case 1 => var n :- ReadSigned(1); out := Done(Byte(n));
        case 2 => var n :- ReadSigned(2); out := Done(Short(n));
        case 3 => var n :- ReadSigned(4); out := Done(Int(n));
        case 4 => var n :- ReadSigned(8); out := Done(Long(n));
        case 5 => var n :- ReadUnsigned(4); out := Done(Float(n));
        case 6 => var n :- ReadUnsigned(8); out := Done(Double(n));
        case 7 =>
          var length :- ReadLength();
          var bytes :- ReadExact(length);
          out := Done(ByteArray(bytes));
        case 8 => var text :- ReadString(); out := Done(String(text));
        case 11 =>
          var length :- ReadLength();
          var ints :- ReadNumbers(length, 4);
          out := Done(IntArray(ints));
        case 12 =>
          var length :- ReadLength();
          var longs :- ReadNumbers(length, 8);
          out := Done(LongArray(longs));
        case id => out := Failed(InvalidTagId(id));
      }
    }

    method ReadValue(tag: byte) returns (out: Outcome<Value>)
      modifies this
      ensures Came(out, reader, TakeValue(tag, old(reader)))
      decreases |reader|, 1
    {
      if tag == 9 {
        out := ReadList();
      } else if tag == 10 {
        out := ReadCompound();
      } else {
        out := ReadLeaf(tag);
      }
    }

    method ReadList() returns (out: Outcome<Value>)
      modifies this
      ensures Came(out, reader, TakeList(old(reader)))
      decreases |reader|, 0
    {
      var elem :- ReadByte();
      var length :- ReadLength();
      ghost var start := reader;
      var list: seq<Value> := [];
      for i := 0 to length
        invariant |reader| <= |start| < |old(reader)|
        invariant TakeItems(elem, i, start) == Ok(list, reader)
      {
        var value := ReadValue(elem);
        if value.Failed? {
          ItemsStop(elem, i + 1, length, start);
          return Failed(value.error);
        }
        list := list + [value.value];
      }
      out := Done(List(list));
    }

    method ReadCompound() returns (out: Outcome<Value>)
      modifies this
      ensures Came(out, reader, TakeValue(10, old(reader)))
      decreases |reader|, 0
    {
      var entries: seq<Entry> := [];
      ghost var start := reader;
      while true
        invariant |reader| <= |start|
        invariant TakeEntries([], start) == TakeEntries(entries, reader)
        decreases |reader|
      {
        var tag :- ReadByte();
        if tag == 0 {
          return Done(Compound(entries));
        }
        var name :- ReadString();
        var value :- ReadValue(tag);
        entries := Insert(entries, Entry(name, value));
      }
    }

    method ReadRoot() returns (out: Outcome<Entry>)
      modifies this
      ensures Came(out, reader, TakeRoot(nameless, old(reader)))
    {
      var tag :- ReadByte();
      var name: Text := [];
      if !nameless {
        name :- ReadString();
      }
      var value :- ReadValue(tag);
      out := Done(Entry(name, value));
    }
  }
}
