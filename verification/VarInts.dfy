/** Variable-length integers: seven bits a byte, least significant first, high bit set on all but the last
    byte (unsigned LEB128, section 7.6 of DWARF Version 5, on the two's complement pattern). */
module VarInts {
  import opened Prelude
  import opened Bits

  // How a kind of integer is laid out: the bytes it may take and the bits of its register.
  datatype Kind = VarInt | VarLong {
    function Limit(): nat { if VarInt? then 5 else 10 }
    function Width(): nat { if VarInt? then 32 else 64 }
    predicate Holds(n: int) { -(Pow2(Width() - 1) as int) <= n < Pow2(Width() - 1) }
  }

  datatype Read = Done(value: int, rest: seq<byte>) | UnexpectedEof | TooBig

  // The unsigned pattern of a signed number and back.
  function ToUnsigned(n: int, width: nat): nat { TwosComplement(n, Pow2(width)) }

  function ToSigned(u: nat, width: nat): int { FromTwosComplement(u, Pow2(width)) }

  lemma SignedRoundTrip(n: int, k: Kind)
    requires k.Holds(n)
    ensures ToUnsigned(n, k.Width()) < Pow2(k.Width()) && ToSigned(ToUnsigned(n, k.Width()), k.Width()) == n
  {
    TwosComplementRoundTrip(n, Pow2(k.Width()));
  }

  // ---- The format ---------------------------------------------------------------------------

  // The bytes of an unsigned number.
  function Encode(u: nat): seq<byte> {
    if u < 128 then [u] else [u % 128 + 128] + Encode(u / 128)
  }

  function EncodeSigned(n: int, k: Kind): seq<byte> { Encode(ToUnsigned(n, k.Width())) }

  // The number spelled by all of `bytes`, whatever their high bits.
  function Value(bytes: seq<byte>): nat {
    if bytes == [] then 0 else bytes[0] % 128 + 128 * Value(bytes[1..])
  }

  // The position of the first byte without a continuation bit.
  function LastByte(s: seq<byte>): Option<nat> {
    if s == [] then None
    else if s[0] < 128 then Some(0)
    else match LastByte(s[1..]) case None => None case Some(i) => Some(i + 1)
  }

  // Byte i holds bits 7 * i to 7 * i + 6, and all but the last byte have their high bit set.
  lemma {:induction false} EncodedBytes(u: nat, i: nat)
    requires i < |Encode(u)|
    ensures Encode(u)[i] ==
              u / Pow2(7 * i) % 128 + if i < |Encode(u)| - 1 then 128 else 0
    ensures u / Pow2(7 * i) < 128 <==> i == |Encode(u)| - 1
  {
    if i == 0 {
      assert Pow2(0) == 1;
    } else {
      EncodedBytes(u / 128, i - 1);
      ShiftTwice(u, i);
    }
  }

  lemma ShiftTwice(u: nat, i: nat)
    requires i > 0
    ensures u / 128 / Pow2(7 * (i - 1)) == u / Pow2(7 * i)
  {
    SmallPowers();
    Pow2Add(7, 7 * (i - 1));
    var b := Pow2(7 * (i - 1));
    hide Pow2;
    assert u / 128 == u / 128 / b * b + u / 128 % b;
    DivTwice(u, 128, b, u / 128 / b, u / 128 % b, u % 128);
  }

  lemma DivTwice(u: nat, a: nat, b: nat, q: nat, r: nat, s: nat)
    requires r < b && s < a && u == (q * b + r) * a + s
    ensures a * b > 0 && u / a / b == q && u / (a * b) == q
  {
    DivModUnique(u, a, q * b + r, s);
    DivModUnique(q * b + r, b, q, r);
    BelowNext(s, a, r, b);
    Rebuild(q, b, r, a, s);
    DivModUnique(u, a * b, q, r * a + s);
  }

  lemma Rebuild(q: nat, b: nat, r: nat, a: nat, s: nat)
    ensures (q * b + r) * a + s == q * (a * b) + (r * a + s)
  {
  }

  // What reading from the front of s yields.
  function Decode(s: seq<byte>, k: Kind): Read {
    match LastByte(s)
    case Some(i) =>
      LastByteFacts(s);
      if i < k.Limit() then Done(ToSigned(Value(s[..i + 1]) % Pow2(k.Width()), k.Width()), s[i + 1..]) else TooBig
    case None => if |s| <= k.Limit() then UnexpectedEof else TooBig
  }

  lemma {:induction false} LastByteFacts(s: seq<byte>)
    ensures LastByte(s).Some? ==> LastByte(s).value < |s| && s[LastByte(s).value] < 128
    ensures forall j :: 0 <= j < |s| && (LastByte(s).Some? ==> j < LastByte(s).value) ==> s[j] >= 128
  {
    if s == [] || s[0] < 128 {
    } else {
      LastByteFacts(s[1..]);
      forall j | 0 <= j < |s| && (LastByte(s).Some? ==> j < LastByte(s).value)
        ensures s[j] >= 128
      {
        assert j > 0 ==> s[j] == s[1..][j - 1];
      }
    }
  }

  lemma {:induction false} LastByteIs(s: seq<byte>, i: nat)
    requires i < |s| && s[i] < 128 && forall j :: 0 <= j < i ==> s[j] >= 128
    ensures LastByte(s) == Some(i)
  {
    if i == 0 {
    } else {
      assert forall j :: 0 <= j < i - 1 ==> s[1..][j] == s[j + 1];
      LastByteIs(s[1..], i - 1);
    }
  }

  lemma {:induction false} NoLastByte(s: seq<byte>)
    requires forall j :: 0 <= j < |s| ==> s[j] >= 128
    ensures LastByte(s) == None
  {
    if s == [] {
    } else {
      NoLastByte(s[1..]);
    }
  }

  // ---- Round trip ---------------------------------------------------------------------------

  lemma {:induction false} EncodedEnds(u: nat, rest: seq<byte>)
    ensures LastByte(Encode(u) + rest) == Some(|Encode(u)| - 1)
    decreases u
  {
    if u < 128 {
    } else {
      EncodedEnds(u / 128, rest);
      assert (Encode(u) + rest)[1..] == Encode(u / 128) + rest;
    }
  }

  lemma {:induction false} EncodeFacts(u: nat, rest: seq<byte>)
    ensures LastByte(Encode(u) + rest) == Some(|Encode(u)| - 1)
    ensures Value(Encode(u)) == u
    decreases u
  {
    EncodedEnds(u, rest);
    hide LastByte;
    if u < 128 {
    } else {
      EncodeFacts(u / 128, rest);
      assert Encode(u)[1..] == Encode(u / 128);
    }
  }

  lemma {:induction false} EncodeLength(u: nat, m: nat)
    requires m > 0
    ensures |Encode(u)| <= m <==> u < Pow2(7 * m)
    decreases u
  {
    SmallPowers();
    if m == 1 {
    } else {
      Pow2Add(7, 7 * (m - 1));
      assert 7 * m == 7 + 7 * (m - 1);
      if u >= 128 {
        EncodeLength(u / 128, m - 1);
      } else {
        assert Pow2(7 * m) >= 128;
      }
    }
  }

  // VarInts are the 32-bit numbers, VarLongs the 64-bit ones.
  lemma KindsAre(n: int)
    ensures VarInt.Holds(n) <==> -0x8000_0000 <= n <= 0x7FFF_FFFF
    ensures VarLong.Holds(n) <==> -0x8000_0000_0000_0000 <= n <= 0x7FFF_FFFF_FFFF_FFFF
  {
    SmallPowers();
    Pow2Add(8, 7);
    Pow2Add(16, 15);
    WordPowers();
    Pow2Add(32, 31);
  }

  // Reading fails exactly if the bytes end before the number does, or five bytes, or ten, have not ended it and there
  // are more.
  lemma ReadFailsWhen(s: seq<byte>, k: Kind)
    ensures var limit := if k == VarInt then 5 else 10;
            && (Decode(s, k) == UnexpectedEof <==> |s| <= limit && forall j :: 0 <= j < |s| ==> s[j] >= 128)
            && (Decode(s, k) == TooBig <==> |s| > limit && forall j :: 0 <= j < limit ==> s[j] >= 128)
  {
    LastByteFacts(s);
  }

  // Every number is read back from its own bytes, leaving what follows, and takes at most 5 or 10 bytes.
  lemma RoundTrip(n: int, k: Kind, rest: seq<byte>)
    requires k.Holds(n)
    ensures Decode(EncodeSigned(n, k) + rest, k) == Done(n, rest)
    ensures |EncodeSigned(n, k)| <= k.Limit()
  {
    var u := ToUnsigned(n, k.Width());
    SignedRoundTrip(n, k);
    Pow2Monotone(k.Width(), 7 * k.Limit());
    EncodeLength(u, k.Limit());
    EncodeFacts(u, rest);
    var s := Encode(u) + rest;
    assert s[..|Encode(u)|] == Encode(u) && s[|Encode(u)|..] == rest;
    DivModUnique(u, Pow2(k.Width()), 0, u);
  }

  lemma {:induction false} ValueBound(bytes: seq<byte>)
    ensures Value(bytes) < Pow2(7 * |bytes|)
  {
    if bytes == [] {
    } else {
      ValueBound(bytes[1..]);
      SmallPowers();
      Pow2Add(7, 7 * |bytes[1..]|);
      assert 7 * |bytes| == 7 + 7 * |bytes[1..]|;
    }
  }

  lemma UnsignedRoundTrip(u: nat, k: Kind)
    requires u < Pow2(k.Width())
    ensures k.Holds(ToSigned(u, k.Width())) && ToUnsigned(ToSigned(u, k.Width()), k.Width()) == u
  {
    var p := Pow2(k.Width());
    assert p == 2 * Pow2(k.Width() - 1);
    if u < Pow2(k.Width() - 1) {
      DivModUnique(u, p, 0, u);
    } else {
      DivModUnique(u - p, p, -1, u);
    }
  }

  lemma ModAtMost(v: nat, p: nat)
    requires p > 0
    ensures 0 <= v % p <= v && v % p < p
  {
  }

  // No shorter spelling is read as the same number.
  lemma EncodeIsShortest(s: seq<byte>, k: Kind)
    requires Decode(s, k).Done?
    ensures k.Holds(Decode(s, k).value)
    ensures |EncodeSigned(Decode(s, k).value, k)| <= |s| - |Decode(s, k).rest|
  {
    LastByteFacts(s);
    var m := LastByte(s).value + 1;
    var v := Value(s[..m]);
    ModAtMost(v, Pow2(k.Width()));
    UnsignedRoundTrip(v % Pow2(k.Width()), k);
    ValueBound(s[..m]);
    EncodeLength(v % Pow2(k.Width()), m);
  }

  // ---- Reading and writing ------------------------------------------------------------------

  // Bytes read so far spell a value below 2^(7 * count).
  lemma {:induction false} ValueSnoc(bytes: seq<byte>, b: byte)
    ensures Value(bytes + [b]) == Value(bytes) + (b % 128) * Pow2(7 * |bytes|)
  {
    if bytes == [] {
      assert Value([b]) == b % 128 + 128 * Value([]);
    } else {
      assert (bytes + [b])[1..] == bytes[1..] + [b];
      ValueSnoc(bytes[1..], b);
      SmallPowers();
      assert 7 * |bytes| == 7 + 7 * |bytes[1..]|;
      Pow2Add(7, 7 * |bytes[1..]|);
      Regroup(Value(bytes[1..]), b % 128, Pow2(7 * |bytes[1..]|));
    }
  }

  lemma Regroup(v: nat, g: nat, q: nat)
    ensures 128 * (v + g * q) == 128 * v + g * (128 * q)
  {
  }

  // One more byte: its seven bits are or-ed in above those already there, and bits past the register are lost.
  lemma AddSegment(bytes: seq<byte>, b: byte, width: nat)
    requires 7 * |bytes| <= width
    ensures Or(Value(bytes) % Pow2(width), Shl(And(b, 0x7F), 7 * |bytes|, width)) == Value(bytes + [b]) % Pow2(width)
  {
    hide Or, And, Shl, Value;
    SmallPowers();
    AndMask(b, 7);
    ValueSnoc(bytes, b);
    ValueBound(bytes);
    OrShifted(Value(bytes), b % 128, 7 * |bytes|, width);
  }

  lemma OrShifted(v: nat, g: nat, shift: nat, width: nat)
    requires v < Pow2(shift) && shift <= width
    ensures Or(v % Pow2(width), Shl(g, shift, width)) == (v + g * Pow2(shift)) % Pow2(width)
  {
    Pow2Monotone(shift, width);
    DivModUnique(v, Pow2(width), 0, v);
    ShiftedPart(v, g, shift, width);
    OrDisjoint(v, Shl(g, shift, width), shift);
  }

  lemma ShiftedPart(v: nat, g: nat, shift: nat, width: nat)
    requires v < Pow2(shift) && shift <= width
    ensures Shl(g, shift, width) % Pow2(shift) == 0
    ensures v + Shl(g, shift, width) == (v + g * Pow2(shift)) % Pow2(width)
  {
    var p, q := Pow2(shift), Pow2(width - shift);
    Pow2Add(shift, width - shift);
    ShiftMod(0, g, p, q);
    ShiftMod(v, g, p, q);
    DivModUnique((g % q) * p, p, g % q, 0);
  }

  lemma ShiftMod(v: nat, g: nat, p: nat, q: nat)
    requires v < p && q > 0
    ensures p * q > 0 && (v + g * p) % (p * q) == v + (g % q) * p
  {
    var high, low := g / q, g % q;
    Reassociate(g, high, low, p, q);
    BelowNext(v, p, low, q);
    DivModUnique(v + g * p, p * q, high, v + low * p);
  }

  lemma Reassociate(g: nat, high: nat, low: nat, p: nat, q: nat)
    requires g == high * q + low
    ensures g * p == high * (p * q) + low * p
  {
  }

  // A cursor over received bytes.
  class BinaryReader {
    const data: seq<byte>
    var position: nat

    ghost predicate Valid()
      reads this
    {
      position <= |data|
    }

    function Remaining(): seq<byte>
      requires Valid()
      reads this
    {
      data[position..]
    }

    constructor (data: seq<byte>)
      ensures Valid() && Remaining() == data
    {
      this.data, position := data, 0;
    }

    method ReadByte() returns (b: Option<byte>)
      requires Valid()
      modifies this
      ensures Valid()
      ensures if old(Remaining()) == [] then b == None && unchanged(this)
              else b == Some(old(Remaining())[0]) && Remaining() == old(Remaining())[1..]
    {
      if position == |data| {
        return None;
      }
      b := Some(data[position]);
      position := position + 1;
    }

    // VarInt::read and VarLong::read. Both give up on the byte after the last one allowed; VarInt::read or-s
    // that byte's segment into a result it then drops.
    method ReadVar(k: Kind) returns (r: Read)
      requires Valid()
      modifies this
      ensures Valid() && r == Decode(old(Remaining()), k)
      ensures r.Done? ==> Remaining() == r.rest
    {
      ghost var s := Remaining();
      var numRead := 0;
      var result := 0;
      NothingRead(s, k);
      while true
        invariant Valid() && numRead <= k.Limit() && numRead <= |s| && Remaining() == s[numRead..]
        invariant forall j :: 0 <= j < numRead ==> s[j] >= 128
        invariant IsRegister(result, s, numRead, k)
        decreases k.Limit() - numRead
      {
        var b := ReadByte();
        if b == None {
          RunsOut(s, k);
          return UnexpectedEof;
        }
        if numRead >= k.Limit() {
          GivesUp(s, k);
          return TooBig;
        }
        result := OrSegment(result, b.value, numRead, k, s);
        numRead := numRead + 1;
        if b.value < 0x80 {
          Finishes(result, s, numRead, k);
          return Done(ToSigned(result, k.Width()), Remaining());
        }
      }
    }
  }

  // The register after n bytes.
  ghost predicate IsRegister(u: nat, s: seq<byte>, n: nat, k: Kind) {
    n <= |s| && u == Value(s[..n]) % Pow2(k.Width())
  }

  // Adds the seven bits of byte n of s to the register.
  method OrSegment(result: nat, b: byte, n: nat, k: Kind, ghost s: seq<byte>) returns (r: nat)
    requires n < |s| && n < k.Limit() && b == s[n] && IsRegister(result, s, n, k)
    ensures IsRegister(r, s, n + 1, k)
  {
    hide Or, And, Shl, Value;
    assert s[..n + 1] == s[..n] + [s[n]];
    AddSegment(s[..n], s[n], k.Width());
    r := Or(result, Shl(And(b, 0x7F), 7 * n, k.Width()));
  }

  lemma NothingRead(s: seq<byte>, k: Kind)
    ensures IsRegister(0, s, 0, k)
  {
    DivModUnique(0, Pow2(k.Width()), 0, 0);
  }

  lemma Finishes(u: nat, s: seq<byte>, n: nat, k: Kind)
    requires 0 < n <= |s| && n <= k.Limit() && s[n - 1] < 128 && forall j :: 0 <= j < n - 1 ==> s[j] >= 128
    requires IsRegister(u, s, n, k)
    ensures Decode(s, k) == Done(ToSigned(u, k.Width()), s[n..])
  {
    LastByteIs(s, n - 1);
  }

  lemma RunsOut(s: seq<byte>, k: Kind)
    requires |s| <= k.Limit() && forall j :: 0 <= j < |s| ==> s[j] >= 128
    ensures Decode(s, k) == UnexpectedEof
  {
    NoLastByte(s);
  }

  lemma GivesUp(s: seq<byte>, k: Kind)
    requires |s| > k.Limit() && forall j :: 0 <= j < k.Limit() ==> s[j] >= 128
    ensures Decode(s, k) == TooBig
  {
    LastByteFacts(s);
  }

  // VarInt::write_to and VarLong::write_to.
  method WriteVar(n: int, k: Kind) returns (bytes: seq<byte>)
    requires k.Holds(n)
    ensures bytes == EncodeSigned(n, k)
  {
    var value := ToUnsigned(n, k.Width());
    ghost var all := Encode(value);
    bytes := [];
    while value >= 0x80
      invariant bytes + Encode(value) == all
      decreases value
    {
      ContinuationByte(value);
      bytes := bytes + [Or(value % 256, 0x80)];
      value := value / 128;
    }
    bytes := bytes + [value];
  }

  lemma ContinuationByte(value: nat)
    ensures Or(value % 256, 0x80) == value % 128 + 128
  {
    LowSeven(value);
    SetHighBit(value % 256);
  }

  lemma LowSeven(value: nat)
    ensures (value % 256) % 128 == value % 128
  {
  }

  lemma SetHighBit(b: nat)
    requires b < 256
    ensures Or(b, 0x80) == b % 128 + 128
  {
    hide Or;
    SmallPowers();
    if b < 128 {
      OrDisjoint(b, 128, 7);
    } else {
      OrAbsorbs(b - 128, 7);
    }
  }

  // Or-ing in a bit that is already set changes nothing.
  lemma {:induction false} OrAbsorbs(low: nat, k: nat)
    requires low < Pow2(k)
    ensures Or(low + Pow2(k), Pow2(k)) == low + Pow2(k)
  {
    if k > 0 {
      OrAbsorbs(low / 2, k - 1);
      assert (low + Pow2(k)) / 2 == low / 2 + Pow2(k - 1);
    } else {
      assert Or(1, 1) == 1;
    }
  }

  // ---- Arrays of VarInts, as schematic files store block data --------------------------------

  datatype ArrayRead = Items(items: seq<int>) | Truncated | TooLarge

  // The items of a byte array: VarInts one after the other, to the end.
  function DecodeArray(s: seq<byte>): ArrayRead
    decreases |s|
  {
    if s == [] then Items([])
    else
      match Decode(s, VarInt)
      case Done(value, rest) =>
        DecodeConsumes(s, VarInt);
        (match DecodeArray(rest) case Items(items) => Items([value] + items) case e => e)
      case _ => if |s| < 5 then Truncated else TooLarge
  }

  lemma DecodeConsumes(s: seq<byte>, k: Kind)
    requires Decode(s, k).Done?
    ensures |Decode(s, k).rest| < |s|
  {
    LastByteFacts(s);
  }

  function EncodeArray(items: seq<int>): seq<byte> {
    if items == [] then [] else EncodeSigned(items[0], VarInt) + EncodeArray(items[1..])
  }

  // Any list of 32-bit numbers is read back from the concatenation of its encodings.
  lemma {:induction false} ArrayRoundTrip(items: seq<int>)
    requires forall i :: 0 <= i < |items| ==> VarInt.Holds(items[i])
    ensures DecodeArray(EncodeArray(items)) == Items(items)
  {
    if items == [] {
    } else {
      RoundTrip(items[0], VarInt, EncodeArray(items[1..]));
      ArrayRoundTrip(items[1..]);
      assert items == [items[0]] + items[1..];
      EncodeNonEmpty(ToUnsigned(items[0], 32));
    }
  }

  // After any items, a number that does not end within five bytes fails the array.
  lemma {:induction false} ArrayFailsWhen(items: seq<int>, tail: seq<byte>)
    requires forall i :: 0 <= i < |items| ==> VarInt.Holds(items[i])
    requires tail != [] && forall j :: 0 <= j < |tail| && j < 5 ==> tail[j] >= 128
    ensures DecodeArray(EncodeArray(items) + tail) == if |tail| < 5 then Truncated else TooLarge
  {
    if items == [] {
      assert EncodeArray(items) + tail == tail;
      TailFails(tail);
    } else {
      hide DecodeArray, Decode, EncodeSigned;
      var rest := EncodeArray(items[1..]) + tail;
      ArrayFailsWhen(items[1..], tail);
      ItemAndRest(items, tail);
      RoundTrip(items[0], VarInt, rest);
      FirstItem(EncodeSigned(items[0], VarInt) + rest, items[0], rest);
    }
  }

  lemma TailFails(tail: seq<byte>)
    requires tail != [] && forall j :: 0 <= j < |tail| && j < 5 ==> tail[j] >= 128
    ensures DecodeArray(tail) == if |tail| < 5 then Truncated else TooLarge
  {
    LastByteFacts(tail);
  }

  lemma ItemAndRest(items: seq<int>, tail: seq<byte>)
    requires items != []
    ensures EncodeArray(items) + tail == EncodeSigned(items[0], VarInt) + (EncodeArray(items[1..]) + tail)
    ensures EncodeSigned(items[0], VarInt) != []
  {
    EncodeNonEmpty(ToUnsigned(items[0], 32));
    hide Encode, EncodeSigned;
    var first, more := EncodeSigned(items[0], VarInt), EncodeArray(items[1..]);
    assert first + more + tail == first + (more + tail);
  }

  lemma FirstItem(s: seq<byte>, value: int, rest: seq<byte>)
    requires s != [] && Decode(s, VarInt) == Done(value, rest)
    ensures DecodeArray(s) == match DecodeArray(rest) case Items(items) => Items([value] + items) case e => e
  {
    hide Decode;
  }

  lemma EncodeNonEmpty(u: nat)
    ensures |Encode(u)| > 0
  {
  }

  // One item of deserialize_var_int_array. It stops at the fifth continuation byte, where VarInt::read would
  // still fetch a sixth.
  method DeserializeItem(s: seq<byte>) returns (value: nat, n: nat, failure: Option<ArrayRead>)
    requires s != []
    ensures match failure
            case None => n <= |s| && Decode(s, VarInt) == Done(ToSigned(value, 32), s[n..])
            case Some(e) => !Decode(s, VarInt).Done? && e == if |s| < 5 then Truncated else TooLarge
  {
    value, n, failure := 0, 0, None;
    NothingRead(s, VarInt);
    hide Decode, IsRegister, ToSigned;
    while true
      invariant n < 5 && n <= |s| && failure == None
      invariant forall j :: 0 <= j < n ==> s[j] >= 128
      invariant IsRegister(value, s, n, VarInt)
      decreases 5 - n
    {
      if n == |s| {
        RunsOut(s, VarInt);
        failure := Some(Truncated);
        return;
      }
      var b := s[n];
      value := OrSegment(value, b, n, VarInt, s);
      n := n + 1;
      if b < 0x80 {
        Finishes(value, s, n, VarInt);
        return;
      }
      if 7 * n >= 32 {
        NotWithinFive(s);
        failure := Some(TooLarge);
        return;
      }
    }
  }

  method DeserializeVarIntArray(bytes: seq<byte>) returns (r: ArrayRead)
    ensures r == DecodeArray(bytes)
  {
    var integers: seq<int> := [];
    var rest := bytes;
    while |rest| > 0
      invariant DecodeArray(bytes) == Prepend(integers, DecodeArray(rest))
      decreases |rest|
    {
      var value, n, failure := DeserializeItem(rest);
      if failure.Some? {
        return failure.value;
      }
      DecodeConsumes(rest, VarInt);
      PrependItem(integers, ToSigned(value, 32), DecodeArray(rest[n..]));
      integers := integers + [ToSigned(value, 32)];
      rest := rest[n..];
    }
    r := Items(integers);
  }

  function Prepend(items: seq<int>, r: ArrayRead): ArrayRead {
    match r case Items(more) => Items(items + more) case e => e
  }

  lemma PrependItem(items: seq<int>, v: int, r: ArrayRead)
    ensures Prepend(items + [v], r) == Prepend(items, Prepend([v], r))
  {
  }

  lemma NotWithinFive(s: seq<byte>)
    requires |s| >= 5 && forall j :: 0 <= j < 5 ==> s[j] >= 128
    ensures !Decode(s, VarInt).Done?
  {
    LastByteFacts(s);
  }
}
