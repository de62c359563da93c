/** What the NBT reader accepts can be written again, and is then read as the same value. */
module NbtRereading {
  import opened Prelude
  import opened NbtValues
  import opened Texts
  import opened NbtWriting
  import opened NbtReading
  import opened NbtRoundTrip
  import opened NbtLimits

  // A value as the reader gives it: of the tag asked for, names occur once, lists are uniform, and all lengths fit.
  predicate Canonical(v: Value, tag: byte) {
    v.Id() == tag && WellFormed(v) && HasNoMixedList(v) && FitsThroughout(v, false)
  }

  predicate AllCanonical(entries: seq<Entry>) {
    && DistinctNames(entries)
    && forall i :: 0 <= i < |entries| ==>
         |entries[i].name| <= MAX_TEXT && Canonical(entries[i].value, entries[i].value.Id())
  }

  // ---- What is read -----------------------------------------------------------------------------

  lemma TextFits(s: seq<byte>)
    ensures TakeText(s).Ok? ==> |TakeText(s).value| <= MAX_TEXT
  {
    Radices();
  }

  lemma LengthFits(s: seq<byte>)
    ensures TakeLength(s).Ok? ==> TakeLength(s).value <= I32_MAX
  {
    Radices();
  }

  lemma {:induction false} NumbersAreCounted(n: nat, width: nat, s: seq<byte>)
    ensures TakeNumbers(n, width, s).Ok? ==> |TakeNumbers(n, width, s).value| == n
  {
    if n == 0 {
    } else {
      NumbersAreCounted(n - 1, width, s);
    }
  }

  lemma LeafIsCanonical(tag: byte, s: seq<byte>)
    requires TakeLeaf(tag, s).Ok?
    ensures Canonical(TakeLeaf(tag, s).value, tag)
  {
    if tag == 8 {
      TextFits(s);
    } else if tag == 7 || tag == 11 || tag == 12 {
      ArrayIsCanonical(tag, s);
    } else {
      NumberIsCanonical(tag, s);
    }
  }

  lemma NumberIsCanonical(tag: byte, s: seq<byte>)
    requires TakeLeaf(tag, s).Ok? && tag != 7 && tag != 8 && tag != 11 && tag != 12
    ensures Canonical(TakeLeaf(tag, s).value, tag)
  {
    hide TakeSigned, TakeUnsigned;
    var v := TakeLeaf(tag, s).value;
    assert v.Id() == tag && !v.List? && !v.Compound?;
  }

  lemma ArrayIsCanonical(tag: byte, s: seq<byte>)
    requires TakeLeaf(tag, s).Ok? && (tag == 7 || tag == 11 || tag == 12)
    ensures Canonical(TakeLeaf(tag, s).value, tag)
  {
    hide TakeLength, TakeNumbers;
    LengthFits(s);
    if tag != 7 {
      NumbersAreCounted(TakeLength(s).value, if tag == 11 then 4 else 8, TakeLength(s).rest);
    }
  }

  // A name that is already there is not added a second time.
  lemma {:induction false} InsertedNames(entries: seq<Entry>, e: Entry)
    ensures forall x :: x in Insert(entries, e) ==> x == e || x in entries
    ensures forall x :: x in Insert(entries, e) && x.name == e.name && DistinctNames(entries) ==> x == e
  {
    if entries == [] {
    } else {
      InsertedNames(entries[1..], e);
      if DistinctNames(entries) && entries[0].name == e.name {
        assert forall x :: x in entries[1..] ==> x.name != e.name;
      } else if DistinctNames(entries) {
        assert DistinctNames(entries[1..]);
      }
    }
  }

  lemma {:induction false} InsertKeepsDistinct(entries: seq<Entry>, e: Entry)
    requires DistinctNames(entries)
    ensures DistinctNames(Insert(entries, e))
  {
    if entries == [] || entries[0].name == e.name {
    } else {
      var more := Insert(entries[1..], e);
      InsertKeepsDistinct(entries[1..], e);
      InsertedNames(entries[1..], e);
      forall j | 0 <= j < |more|
        ensures more[j].name != entries[0].name
      {
        assert more[j] in more;
      }
    }
  }

  lemma InsertIsCanonical(entries: seq<Entry>, e: Entry)
    requires AllCanonical(entries) && |e.name| <= MAX_TEXT && Canonical(e.value, e.value.Id())
    ensures AllCanonical(Insert(entries, e))
  {
    hide Canonical, DistinctNames;
    InsertKeepsDistinct(entries, e);
    InsertedNames(entries, e);
    var all := Insert(entries, e);
    forall i | 0 <= i < |all|
      ensures |all[i].name| <= MAX_TEXT && Canonical(all[i].value, all[i].value.Id())
    {
      assert all[i] in all;
    }
  }

  lemma {:induction false} ReadIsCanonical(tag: byte, s: seq<byte>)
    requires TakeValue(tag, s).Ok?
    ensures Canonical(TakeValue(tag, s).value, tag)
    decreases |s|, 2, 0
  {
    if tag == 9 {
      ListIsCanonical(s);
    } else if tag == 10 {
      EntriesAreCanonical([], s);
      CompoundIsCanonical(TakeEntries([], s).value);
    } else {
      LeafIsCanonical(tag, s);
    }
  }

  lemma CompoundIsCanonical(entries: seq<Entry>)
    requires AllCanonical(entries)
    ensures Canonical(Compound(entries), 10)
  {
  }

  lemma ItemsAreUniform(items: seq<Value>, tag: byte)
    requires |items| <= I32_MAX && forall i :: 0 <= i < |items| ==> Canonical(items[i], tag)
    ensures Canonical(List(items), 9)
  {
    assert !IsMixed(items);
  }

  lemma {:induction false} ListIsCanonical(s: seq<byte>)
    requires TakeList(s).Ok?
    ensures Canonical(TakeList(s).value, 9)
    decreases |s|, 1, 0
  {
    var elem := TakeByte(s);
    var n := TakeLength(elem.rest);
    LengthFits(elem.rest);
    ItemsAreCanonical(elem.value, n.value, n.rest);
    ItemsAreUniform(TakeItems(elem.value, n.value, n.rest).value, elem.value);
  }

  lemma {:induction false} ItemsAreCanonical(tag: byte, n: nat, s: seq<byte>)
    requires TakeItems(tag, n, s).Ok?
    ensures var items := TakeItems(tag, n, s).value;
            |items| == n && forall i :: 0 <= i < n ==> Canonical(items[i], tag)
    decreases |s|, 3, n
  {
    hide Canonical;
    if n == 0 {
    } else {
      ItemsAreCanonical(tag, n - 1, s);
      ReadIsCanonical(tag, TakeItems(tag, n - 1, s).rest);
    }
  }

  lemma {:induction false} EntriesAreCanonical(before: seq<Entry>, s: seq<byte>)
    requires AllCanonical(before) && TakeEntries(before, s).Ok?
    ensures AllCanonical(TakeEntries(before, s).value)
    decreases |s|, 0, 0
  {
    hide AllCanonical;
    var tag := TakeByte(s);
    if tag.value != 0 {
      var name := TakeText(tag.rest);
      var v := TakeValue(tag.value, name.rest);
      TextFits(tag.rest);
      ReadIsCanonical(tag.value, name.rest);
      InsertIsCanonical(before, Entry(name.value, v.value));
      EntriesAreCanonical(Insert(before, Entry(name.value, v.value)), v.rest);
    }
  }

  // ---- Writing it again -------------------------------------------------------------------------

  lemma {:induction false} FitsEitherWay(v: Value, dynamic: bool)
    requires FitsThroughout(v, false)
    ensures FitsThroughout(v, dynamic)
  {
    match v
    case List(items) =>
      forall i | 0 <= i < |items|
        ensures FitsThroughout(items[i], dynamic)
      {
        FitsEitherWay(items[i], dynamic);
      }
    case Compound(entries) =>
      forall i | 0 <= i < |entries|
        ensures FitsThroughout(entries[i].value, dynamic)
      {
        FitsEitherWay(entries[i].value, dynamic);
      }
    case _ =>
  }

  // Whatever root is read can be written, with the option for mixed lists or without, and is read back unchanged.
  lemma ReadIsWritable(nameless: bool, s: seq<byte>, dynamic: bool, rest: seq<byte>)
    requires TakeRoot(nameless, s).Ok?
    ensures var root := TakeRoot(nameless, s).value;
            var written := EmitRoot(root.name, root.value, dynamic, nameless);
            && WellFormed(root.value) && written.error == None
            && TakeRoot(nameless, written.bytes + rest) == Ok(root, rest)
  {
    var tag := TakeByte(s);
    var name := if nameless then Ok([], tag.rest) else TakeText(tag.rest);
    var root := TakeRoot(nameless, s).value;
    TextFits(tag.rest);
    ReadIsCanonical(tag.value, name.rest);
    hide TakeRoot, WellFormed, HasNoMixedList, FitsThroughout, EmitRoot;
    FitsEitherWay(root.value, dynamic);
    RootWritesExactlyWhatFits(root.name, root.value, dynamic, nameless);
    NormIsIdentity(root.value);
    RootRoundTrip(root.name, root.value, dynamic, nameless, rest);
  }
}
