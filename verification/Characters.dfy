/** Which byte sequences are texts: the encodings of Unicode scalar values, one after the other (section 3 of RFC
    3629). */
module Characters {
  import opened Prelude
  import opened Texts
  import opened NbtValues
  import opened NbtReading

  // Code points, the surrogates left out.
  type Scalar = c: nat | c < 0x11_0000 && !(0xD800 <= c < 0xE000)

  function EncodeChar(c: Scalar): (s: seq<byte>)
    ensures s != []
  {
    if c < 0x80 then [c]
    else if c < 0x800 then [0xC0 + c / 0x40, 0x80 + c % 0x40]
    else if c < 0x1_0000 then [0xE0 + c / 0x1000, 0x80 + c / 0x40 % 0x40, 0x80 + c % 0x40]
    else [0xF0 + c / 0x4_0000, 0x80 + c / 0x1000 % 0x40, 0x80 + c / 0x40 % 0x40, 0x80 + c % 0x40]
  }

  function EncodeText(cs: seq<Scalar>): seq<byte> {
    if cs == [] then [] else EncodeChar(cs[0]) + EncodeText(cs[1..])
  }

  // ---- One character ----------------------------------------------------------------------------

  // The length of a character is recognised, whatever follows it.
  lemma CharIsRecognised(c: Scalar, rest: seq<byte>)
    ensures CharLength(EncodeChar(c) + rest) == |EncodeChar(c)|
  {
  }

  // A number with the six bits of one more byte.
  function Tail(v: int, b: int): int { v * 0x40 + b - 0x80 }

  lemma TailParts(v: nat, b: byte)
    requires IsTail(b)
    ensures Tail(v, b) >= 0 && Tail(v, b) / 0x40 == v && 0x80 + Tail(v, b) % 0x40 == b
  {
  }

  lemma TailWhole(c: nat)
    ensures Tail(c / 0x40, 0x80 + c % 0x40) == c
  {
  }

  function ScalarAt(s: seq<byte>): int
    requires s != [] && 0 < CharLength(s)
  {
    var lead: int := s[0];
    match CharLength(s)
    case 1 => lead
    case 2 => Tail(lead - 0xC0, s[1])
    case 3 => Tail(Tail(lead - 0xE0, s[1]), s[2])
    case _ => Tail(Tail(Tail(lead - 0xF0, s[1]), s[2]), s[3])
  }

  predicate IsScalar(c: int) { 0 <= c < 0x11_0000 && !(0xD800 <= c < 0xE000) }

  // What is recognised is a character.
  lemma RecognisedIsChar(s: seq<byte>)
    requires s != [] && 0 < CharLength(s)
    ensures IsScalar(ScalarAt(s)) && CharLength(s) <= |s| && EncodeChar(ScalarAt(s)) == s[..CharLength(s)]
  {
    hide EncodeChar, Tail;
    if CharLength(s) == 1 {
      OneByte(s[0]);
    } else if CharLength(s) == 2 {
      TwoBytes(s[0] - 0xC0, s[1]);
    } else if CharLength(s) == 3 {
      ThreeBytes(s[0] - 0xE0, s[1], s[2]);
    } else if CharLength(s) == 4 {
      FourBytes(s[0] - 0xF0, s[1], s[2], s[3]);
    }
  }

  lemma OneByte(a: byte)
    requires a < 0x80
    ensures EncodeChar(a) == [a]
  {
  }

  lemma TwoBytes(a: nat, b: byte)
    requires 2 <= a < 0x20 && IsTail(b)
    ensures 0x80 <= Tail(a, b) < 0x800 && EncodeChar(Tail(a, b)) == [0xC0 + a, b]
  {
    hide Tail;
    TailParts(a, b);
  }

  lemma ThreeBytes(a: nat, b: byte, c: byte)
    requires a < 0x10 && IsTail(b) && IsTail(c) && (a == 0 ==> b >= 0xA0) && (a == 0xD ==> b <= 0x9F)
    ensures var v := Tail(Tail(a, b), c); 0x800 <= v < 0x1_0000 && IsScalar(v) && EncodeChar(v) == [0xE0 + a, b, c]
  {
    TailParts(a, b);
    TailParts(Tail(a, b), c);
    assert Tail(Tail(a, b), c) / 0x1000 == Tail(a, b) / 0x40;
    assert Tail(a, b) == a * 0x40 + b - 0x80;
  }

  lemma FourBytes(a: nat, b: byte, c: byte, d: byte)
    requires a <= 4 && IsTail(b) && IsTail(c) && IsTail(d) && (a == 0 ==> b >= 0x90) && (a == 4 ==> b <= 0x8F)
    ensures var v := Tail(Tail(Tail(a, b), c), d);
            0x1_0000 <= v < 0x11_0000 && EncodeChar(v) == [0xF0 + a, b, c, d]
  {
    TailParts(a, b);
    TailParts(Tail(a, b), c);
    TailParts(Tail(Tail(a, b), c), d);
    var v := Tail(Tail(Tail(a, b), c), d);
    assert v / 0x1000 == Tail(a, b) && v / 0x4_0000 == a;
    assert 0x10 <= Tail(a, b) < 0x110;
  }

  lemma ScalarOfChar(c: Scalar, rest: seq<byte>)
    ensures CharLength(EncodeChar(c) + rest) > 0 && ScalarAt(EncodeChar(c) + rest) == c
  {
    CharIsRecognised(c, rest);
    TailWhole(c);
    TailWhole(c / 0x40);
    TailWhole(c / 0x1000);
    assert c / 0x40 / 0x40 == c / 0x1000 && c / 0x1000 / 0x40 == c / 0x4_0000;
    hide CharLength, Tail;
  }

  // ---- Texts ------------------------------------------------------------------------------------

  lemma {:induction false} EncodedIsUtf8(cs: seq<Scalar>)
    ensures IsUtf8(EncodeText(cs))
  {
    if cs == [] {
    } else {
      var s, more := EncodeText(cs), EncodeText(cs[1..]);
      CharIsRecognised(cs[0], more);
      EncodedIsUtf8(cs[1..]);
      assert s[|EncodeChar(cs[0])|..] == more;
    }
  }

  lemma {:induction false} Utf8IsEncoded(s: seq<byte>) returns (cs: seq<Scalar>)
    requires IsUtf8(s)
    ensures s == EncodeText(cs)
  {
    if s == [] {
      cs := [];
    } else {
      RecognisedIsChar(s);
      var c: Scalar := ScalarAt(s);
      var more := Utf8IsEncoded(s[CharLength(s)..]);
      cs := [c] + more;
      assert cs[1..] == more;
    }
  }

  // Exactly the encodings of scalar values are texts.
  lemma TextsAreEncodings(s: seq<byte>)
    ensures IsUtf8(s) <==> exists cs :: s == EncodeText(cs)
  {
    if IsUtf8(s) {
      var _ := Utf8IsEncoded(s);
    }
    forall cs | s == EncodeText(cs)
      ensures IsUtf8(s)
    {
      EncodedIsUtf8(cs);
    }
  }

  // A text is the encoding of one list of scalar values only.
  lemma {:induction false} EncodingIsUnique(a: seq<Scalar>, b: seq<Scalar>)
    requires EncodeText(a) == EncodeText(b)
    ensures a == b
  {
    if a == [] || b == [] {
    } else {
      var s := EncodeText(a);
      CharIsRecognised(a[0], EncodeText(a[1..]));
      CharIsRecognised(b[0], EncodeText(b[1..]));
      ScalarOfChar(a[0], EncodeText(a[1..]));
      ScalarOfChar(b[0], EncodeText(b[1..]));
      assert EncodeText(a[1..]) == s[|EncodeChar(a[0])|..] == EncodeText(b[1..]);
      EncodingIsUnique(a[1..], b[1..]);
    }
  }

  // A length below 2^16.
  function LengthBytes(n: nat): seq<nat> { [n / 0x100, n % 0x100] }

  lemma FromTwoBytes(a: byte, b: byte)
    ensures FromBigEndian([a, b]) == (a as int) * 0x100 + b && LengthBytes((a as int) * 0x100 + b) == [a, b]
  {
    assert [a, b][..1] == [a] && [a][..0] == [];
    assert FromBigEndian([a]) == a;
  }

  lemma TextTaken(s: seq<byte>)
    requires |s| >= 2
    ensures var n := (s[0] as int) * 0x100 + s[1];
            TakeText(s) == if |s| - 2 < n then Err(UnexpectedEof)
                           else if IsUtf8(s[2..][..n]) then Ok(s[2..][..n], s[2..][n..])
                           else Err(InvalidUtf8)
  {
    hide IsUtf8, FromBigEndian;
    assert s[..2] == [s[0], s[1]];
    FromTwoBytes(s[0], s[1]);
  }

  // A string is read exactly if its length is there, that many bytes are, and they encode scalar values.
  lemma StringIsReadWhen(s: seq<byte>, text: seq<byte>, rest: seq<byte>)
    ensures (TakeText(s).Ok? && TakeText(s).value == text && TakeText(s).rest == rest) <==>
              (exists cs :: text == EncodeText(cs)) && |text| < 0x1_0000 && s == LengthBytes(|text|) + text + rest
  {
    TextsAreEncodings(text);
    if |s| >= 2 {
      TextTaken(s);
      FromTwoBytes(s[0], s[1]);
      hide TakeText, IsUtf8, EncodeText;
      PartsOfString(s, text, rest);
    }
  }

  lemma PartsOfString(s: seq<byte>, text: seq<byte>, rest: seq<byte>)
    requires |s| >= 2
    ensures var n := (s[0] as int) * 0x100 + s[1];
            n <= |s| - 2 && s[2..][..n] == text && s[2..][n..] == rest <==>
              |text| < 0x1_0000 && s == LengthBytes(|text|) + text + rest
  {
    var n := (s[0] as int) * 0x100 + s[1];
    FromTwoBytes(s[0], s[1]);
    assert s == [s[0], s[1]] + s[2..];
    if s == LengthBytes(|text|) + text + rest {
      assert s[0] == |text| / 0x100 && s[1] == |text| % 0x100;
      assert s[2..] == text + rest;
    }
    if n <= |s| - 2 && s[2..][..n] == text && s[2..][n..] == rest {
      assert s[2..] == text + rest;
    }
  }
}
