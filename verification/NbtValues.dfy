/** NBT values, and the big-endian numbers and strings they are written with. */
module NbtValues {
  import opened Prelude
  import opened Bits
  import opened Texts

  type i8 = n: int | -0x80 <= n < 0x80
  type i16 = n: int | -0x8000 <= n < 0x8000
  type i32 = n: int | -0x8000_0000 <= n < 0x8000_0000
  type i64 = n: int | -0x8000_0000_0000_0000 <= n < 0x8000_0000_0000_0000
  type u32 = n: nat | n < 0x1_0000_0000
  type u64 = n: nat | n < 0x1_0000_0000_0000_0000

  // ---- Values -------------------------------------------------------------------------------

  // Floating-point numbers are kept as their bit patterns; a compound lists its entries in insertion order.
  datatype Value =
    | Byte(b: i8)
    | Short(s: i16)
    | Int(i: i32)
    | Long(l: i64)
    | Float(f: u32)
    | Double(d: u64)
    | String(text: Text)
    | List(items: seq<Value>)
    | Compound(entries: seq<Entry>)
    | IntArray(ints: seq<i32>)
    | LongArray(longs: seq<i64>)
    | ByteArray(bytes: seq<byte>)
  {
    function Id(): (id: byte)
      ensures 1 <= id <= 12
    {
      match this
      case Byte(_) => 1
      case Short(_) => 2
      case Int(_) => 3
      case Long(_) => 4
      case Float(_) => 5
      case Double(_) => 6
      case ByteArray(_) => 7
      case String(_) => 8
      case List(_) => 9
      case Compound(_) => 10
      case IntArray(_) => 11
      case LongArray(_) => 12
    }
  }

  datatype Entry = Entry(name: Text, value: Value)

  predicate DistinctNames(entries: seq<Entry>) {
    forall i, j :: 0 <= i < j < |entries| ==> entries[i].name != entries[j].name
  }

  // Compounds are maps: no name occurs twice, at any depth.
  predicate WellFormed(v: Value) {
    match v
    case List(items) => forall i :: 0 <= i < |items| ==> WellFormed(items[i])
    case Compound(entries) =>
      DistinctNames(entries) && forall i :: 0 <= i < |entries| ==> WellFormed(entries[i].value)
    case _ => true
  }

  // A list whose elements do not all have the tag of the first.
  predicate IsMixed(items: seq<Value>) {
    exists i :: 0 <= i < |items| && items[i].Id() != items[0].Id()
  }

  // ---- Big-endian numbers ---------------------------------------------------------------------

  function Radix(width: nat): (r: nat)
    ensures r > 0
  {
    if width == 0 then 1 else 256 * Radix(width - 1)
  }

  function BigEndian(n: nat, width: nat): (s: seq<byte>)
    ensures |s| == width
  {
    if width == 0 then [] else BigEndian(n / 256, width - 1) + [n % 256]
  }

  function FromBigEndian(s: seq<byte>): nat {
    if s == [] then 0 else 256 * FromBigEndian(s[..|s| - 1]) + s[|s| - 1]
  }

  lemma {:induction false} BigEndianRoundTrip(n: nat, width: nat)
    requires n < Radix(width)
    ensures FromBigEndian(BigEndian(n, width)) == n
  {
    if width == 0 {
    } else {
      BigEndianRoundTrip(n / 256, width - 1);
      assert BigEndian(n, width)[..width - 1] == BigEndian(n / 256, width - 1);
    }
  }

  // The most significant byte comes first.
  lemma {:induction false} FromBigEndianFirst(s: seq<byte>)
    requires s != []
    ensures FromBigEndian(s) == s[0] * Radix(|s| - 1) + FromBigEndian(s[1..])
  {
    if |s| == 1 {
      assert s[..0] == [] && s[1..] == [];
    } else {
      var front := s[..|s| - 1];
      FromBigEndianFirst(front);
      assert front[1..] == s[1..][..|s| - 2];
      var a, b, r := s[0], FromBigEndian(front[1..]), Radix(|s| - 2);
      assert 256 * (a * r + b) == a * (256 * r) + 256 * b;
    }
  }

  lemma {:induction false} FromBigEndianBound(s: seq<byte>)
    ensures FromBigEndian(s) < Radix(|s|)
  {
    if s == [] {
    } else {
      FromBigEndianBound(s[..|s| - 1]);
    }
  }

  lemma Radices()
    ensures Radix(1) == 0x100 && Radix(2) == 0x1_0000 && Radix(4) == 0x1_0000_0000
    ensures Radix(8) == 0x1_0000_0000_0000_0000
  {
  }

  // A number of the given width as bytes, and the number some bytes spell.
  function SignedBytes(n: int, width: nat): (s: seq<byte>)
    ensures |s| == width
  {
    BigEndian(TwosComplement(n, Radix(width)), width)
  }

  function FromSignedBytes(s: seq<byte>): int { FromTwosComplement(FromBigEndian(s), Radix(|s|)) }

  lemma SignedBytesRoundTrip(n: int, width: nat)
    requires -(Radix(width) as int) <= 2 * n < Radix(width)
    ensures FromSignedBytes(SignedBytes(n, width)) == n
  {
    TwosComplementRoundTrip(n, Radix(width));
    BigEndianRoundTrip(TwosComplement(n, Radix(width)), width);
  }

  lemma FromSignedBytesBound(s: seq<byte>)
    ensures -(Radix(|s|) as int) <= 2 * FromSignedBytes(s) < Radix(|s|)
  {
    FromBigEndianBound(s);
  }
}
