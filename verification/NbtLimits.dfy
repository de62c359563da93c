/** Which NBT values can be written, and why cut-off data is never accepted. */
module NbtLimits {
  import opened Prelude
  import opened NbtValues
  import opened Texts
  import opened NbtWriting
  import opened NbtReading
  import opened NbtRoundTrip

  // ---- Success ----------------------------------------------------------------------------------

  // The limits on one value, its parts aside.
  predicate Fits(v: Value, dynamic: bool) {
    match v
    case String(text) => |text| <= MAX_TEXT
    case ByteArray(bytes) => |bytes| <= I32_MAX
    case IntArray(ints) => |ints| <= I32_MAX
    case LongArray(longs) => |longs| <= I32_MAX
    case List(items) => |items| <= I32_MAX && (dynamic || !IsMixed(items))
    case Compound(entries) => forall i :: 0 <= i < |entries| ==> |entries[i].name| <= MAX_TEXT
    case _ => true
  }

  // The limits at every depth.
  predicate FitsThroughout(v: Value, dynamic: bool) {
    Fits(v, dynamic) &&
    match v
    case List(items) => forall i :: 0 <= i < |items| ==> FitsThroughout(items[i], dynamic)
    case Compound(entries) => forall i :: 0 <= i < |entries| ==> FitsThroughout(entries[i].value, dynamic)
    case _ => true
  }

  // Writing succeeds exactly for the values whose texts, arrays and lists fit their length fields, and whose
  // lists are uniform unless mixed lists are allowed.
  lemma {:induction false} WritesExactlyWhatFits(v: Value, dynamic: bool)
    ensures EmitValue(v, dynamic).error == None <==> FitsThroughout(v, dynamic)
    decreases v, 1
  {
    if v.List? {
      ItemsSucceed(v.items, dynamic);
    } else if v.Compound? {
      EntriesSucceed(v.entries, dynamic);
    } else {
      LeafSucceeds(v, dynamic);
    }
  }

  lemma LeafSucceeds(v: Value, dynamic: bool)
    requires !v.List? && !v.Compound?
    ensures EmitValue(v, dynamic).error == None <==> FitsThroughout(v, dynamic)
  {
  }

  lemma {:induction false} ItemsSucceed(items: seq<Value>, dynamic: bool)
    ensures EmitItems(items, dynamic).error == None <==>
              forall i :: 0 <= i < |items| ==> FitsThroughout(items[i], dynamic)
    ensures EmitWrapped(items, dynamic).error == None <==>
              forall i :: 0 <= i < |items| ==> FitsThroughout(items[i], dynamic)
    decreases items, 0
  {
    if items == [] {
    } else {
      var m := |items| - 1;
      ItemsSucceed(items[..m], dynamic);
      WritesExactlyWhatFits(items[m], dynamic);
      LastAndRest(items, dynamic);
    }
  }

  lemma LastAndRest(items: seq<Value>, dynamic: bool)
    requires items != []
    ensures var m := |items| - 1;
            (forall i :: 0 <= i < |items| ==> FitsThroughout(items[i], dynamic)) <==>
            (forall i :: 0 <= i < m ==> FitsThroughout(items[..m][i], dynamic)) && FitsThroughout(items[m], dynamic)
  {
    var m := |items| - 1;
    assert forall i :: 0 <= i < m ==> items[..m][i] == items[i];
  }

  lemma {:induction false} EntriesSucceed(entries: seq<Entry>, dynamic: bool)
    ensures EmitEntries(entries, dynamic).error == None <==>
              forall i :: 0 <= i < |entries| ==>
                |entries[i].name| <= MAX_TEXT && FitsThroughout(entries[i].value, dynamic)
    decreases entries, 0
  {
    if entries == [] {
    } else {
      var m := |entries| - 1;
      EntriesSucceed(entries[..m], dynamic);
      WritesExactlyWhatFits(entries[m].value, dynamic);
      assert forall i :: 0 <= i < m ==> entries[..m][i] == entries[i];
    }
  }

  // A root is written exactly if its value fits and its name does, where it has one.
  lemma RootWritesExactlyWhatFits(name: Text, v: Value, dynamic: bool, nameless: bool)
    ensures EmitRoot(name, v, dynamic, nameless).error == None <==>
              (nameless || |name| <= MAX_TEXT) && FitsThroughout(v, dynamic)
  {
    hide EmitValue, FitsThroughout;
    WritesExactlyWhatFits(v, dynamic);
  }

  // ---- Truncation -------------------------------------------------------------------------------

  // The same result with more bytes left over.
  function More<T>(r: Result<T>, extra: seq<byte>): Result<T> {
    match r case Ok(v, rest) => Ok(v, rest + extra) case Err(e) => Err(e)
  }

  lemma BytesExtend(n: nat, s: seq<byte>, extra: seq<byte>)
    requires TakeBytes(n, s).Ok?
    ensures TakeBytes(n, s + extra) == More(TakeBytes(n, s), extra)
  {
    assert (s + extra)[..n] == s[..n];
    assert (s + extra)[n..] == s[n..] + extra;
  }

  lemma ByteExtends(s: seq<byte>, extra: seq<byte>)
    requires TakeByte(s).Ok?
    ensures TakeByte(s + extra) == More(TakeByte(s), extra)
  {
  }

  lemma LengthExtends(s: seq<byte>, extra: seq<byte>)
    requires TakeLength(s).Ok?
    ensures TakeLength(s + extra) == More(TakeLength(s), extra)
  {
    BytesExtend(4, s, extra);
  }

  lemma TextExtends(s: seq<byte>, extra: seq<byte>)
    requires TakeText(s).Ok?
    ensures TakeText(s + extra) == More(TakeText(s), extra)
  {
    BytesExtend(2, s, extra);
    BytesExtend(TakeUnsigned(2, s).value, TakeUnsigned(2, s).rest, extra);
  }

  lemma {:induction false} NumbersExtend(n: nat, width: nat, s: seq<byte>, extra: seq<byte>)
    requires TakeNumbers(n, width, s).Ok?
    ensures TakeNumbers(n, width, s + extra) == More(TakeNumbers(n, width, s), extra)
  {
    if n == 0 {
    } else {
      NumbersExtend(n - 1, width, s, extra);
      BytesExtend(width, TakeNumbers(n - 1, width, s).rest, extra);
    }
  }

  lemma LeafExtends(tag: byte, s: seq<byte>, extra: seq<byte>)
    requires TakeLeaf(tag, s).Ok?
    ensures TakeLeaf(tag, s + extra) == More(TakeLeaf(tag, s), extra)
  {
    if tag == 7 || tag == 11 || tag == 12 {
      LengthExtends(s, extra);
      var length := TakeLength(s);
      if tag == 7 {
        BytesExtend(length.value, length.rest, extra);
      } else {
        NumbersExtend(length.value, if tag == 11 then 4 else 8, length.rest, extra);
      }
    } else if tag == 8 {
      TextExtends(s, extra);
    } else {
      BytesExtend(if tag == 1 then 1 else if tag == 2 then 2 else if tag == 3 || tag == 5 then 4 else 8, s, extra);
    }
  }

  // What is read does not depend on what follows.
  lemma {:induction false} ValueExtends(tag: byte, s: seq<byte>, extra: seq<byte>)
    requires TakeValue(tag, s).Ok?
    ensures TakeValue(tag, s + extra) == More(TakeValue(tag, s), extra)
    decreases |s|, 2, 0
  {
    if tag == 9 {
      ListExtends(s, extra);
    } else if tag == 10 {
      EntriesExtend([], s, extra);
    } else {
      LeafExtends(tag, s, extra);
    }
  }

  lemma {:induction false} ListExtends(s: seq<byte>, extra: seq<byte>)
    requires TakeList(s).Ok?
    ensures TakeList(s + extra) == More(TakeList(s), extra)
    decreases |s|, 1, 0
  {
    ByteExtends(s, extra);
    var elem := TakeByte(s);
    LengthExtends(elem.rest, extra);
    var length := TakeLength(elem.rest);
    ItemsExtend(elem.value, length.value, length.rest, extra);
  }

  lemma {:induction false} ItemsExtend(tag: byte, n: nat, s: seq<byte>, extra: seq<byte>)
    requires TakeItems(tag, n, s).Ok?
    ensures TakeItems(tag, n, s + extra) == More(TakeItems(tag, n, s), extra)
    decreases |s|, 3, n
  {
    if n == 0 {
    } else {
      ItemsExtend(tag, n - 1, s, extra);
      ValueExtends(tag, TakeItems(tag, n - 1, s).rest, extra);
    }
  }

  lemma {:induction false} EntriesExtend(before: seq<Entry>, s: seq<byte>, extra: seq<byte>)
    requires TakeEntries(before, s).Ok?
    ensures TakeEntries(before, s + extra) == More(TakeEntries(before, s), extra)
    decreases |s|, 0, 0
  {
    ByteExtends(s, extra);
    var tag := TakeByte(s);
    if tag.value != 0 {
      TextExtends(tag.rest, extra);
      var name := TakeText(tag.rest);
      ValueExtends(tag.value, name.rest, extra);
      var value := TakeValue(tag.value, name.rest);
      EntriesExtend(Insert(before, Entry(name.value, value.value)), value.rest, extra);
    }
  }

  // No strict prefix of a written root is accepted.
  lemma PrefixIsRejected(name: Text, v: Value, dynamic: bool, nameless: bool, cut: seq<byte>)
    requires WellFormed(v) && EmitRoot(name, v, dynamic, nameless).error == None
    requires cut < EmitRoot(name, v, dynamic, nameless).bytes
    ensures TakeRoot(nameless, cut).Err?
  {
    var whole := EmitRoot(name, v, dynamic, nameless).bytes;
    var missing := whole[|cut|..];
    assert cut + missing == whole == whole + [];
    RootRoundTrip(name, v, dynamic, nameless, []);
    if TakeRoot(nameless, cut).Ok? {
      RootExtends(nameless, cut, missing);
    }
  }

  lemma RootExtends(nameless: bool, s: seq<byte>, extra: seq<byte>)
    requires TakeRoot(nameless, s).Ok?
    ensures TakeRoot(nameless, s + extra) == More(TakeRoot(nameless, s), extra)
  {
    ByteExtends(s, extra);
    var tag := TakeByte(s);
    if nameless {
      ValueExtends(tag.value, tag.rest, extra);
    } else {
      TextExtends(tag.rest, extra);
      ValueExtends(tag.value, TakeText(tag.rest).rest, extra);
    }
  }
}
