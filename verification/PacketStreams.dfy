/** Framing of packets on the wire: a length prefix, and once compression is on a second length and a zlib body. */
module PacketStreams {
  import opened Prelude
  import opened Bits
  import opened VarInts

  const MAXIMUM_PACKET_LENGTH: nat := 2_097_151

  datatype Error =
    | Io
    | NegativeLength
    | LengthTooLarge
    | VarIntTooLong
    | VarIntTooBig
    | ZeroLengthPacket
    | MissingPacketId
    | BadDataLength
    | NegativeDataLength
    | DecompressionFailed
    | SizeMismatch(expected: nat, actual: nat)
    | TooManyBytes

  // zlib (RFC 1950) as a pair of functions: whatever was compressed, at any level, decompresses to itself.
  datatype Zlib = Zlib(compress: (seq<byte>, nat) -> seq<byte>, decompress: seq<byte> -> Option<seq<byte>>) {
    ghost predicate Valid() {
      forall data, level :: decompress(compress(data, level)) == Some(data)
    }
  }

  datatype Settings = Settings(threshold: nat, level: nat)

  // ---- The length prefix --------------------------------------------------------------------

  datatype LengthParse = Parsed(length: nat) | NeedMore | Malformed(error: Error)

  // get_packet_length, on the bytes received so far.
  function GetPacketLength(bytes: seq<byte>): LengthParse {
    match Decode(bytes, VarInt)
    case Done(n, _) =>
      if n < 0 then Malformed(NegativeLength)
      else if n > MAXIMUM_PACKET_LENGTH then Malformed(LengthTooLarge)
      else Parsed(n)
    case UnexpectedEof => NeedMore
    case TooBig => Malformed(VarIntTooBig)
  }

  datatype LengthRead = Length(length: nat, rest: seq<byte>) | NoLength(error: Error, rest: seq<byte>)

  // The length at the front of a whole stream, decoded in one go.
  function ReadLength(s: seq<byte>): LengthRead {
    match Decode(s, VarInt)
    case Done(n, rest) =>
      if n < 0 then NoLength(NegativeLength, rest)
      else if n > MAXIMUM_PACKET_LENGTH then NoLength(LengthTooLarge, rest)
      else Length(n, rest)
    case UnexpectedEof => if |s| == 5 then NoLength(VarIntTooLong, []) else NoLength(Io, [])
    case TooBig => NoLength(VarIntTooLong, if |s| >= 5 then s[5..] else [])
  }

  // A length is short enough exactly if it takes at most three bytes.
  lemma MaximumTakesThreeBytes(n: nat)
    requires n <= I32_MAX
    ensures |EncodeSigned(n, VarInt)| <= 3 <==> n <= MAXIMUM_PACKET_LENGTH
  {
    VarIntHolds(n);
    SignedRoundTrip(n, VarInt);
    EncodedLength(n);
    EncodedLength(n / 128);
    EncodedLength(n / 128 / 128);
    EncodedLength(n / 128 / 128 / 128);
  }

  lemma EncodedLength(u: nat)
    ensures |Encode(u)| == if u < 128 then 1 else 1 + |Encode(u / 128)|
    ensures |Encode(u)| > 0
  {
  }

  // ---- Frames -------------------------------------------------------------------------------

  datatype FrameRead = Packet(packet: seq<byte>, rest: seq<byte>) | Failure(error: Error, rest: seq<byte>)

  datatype FrameWrite = Frame(bytes: seq<byte>) | Refused(error: Error)

  // The packet inside the content of a frame, without its id-less empty form.
  function OpenFrame(content: seq<byte>, compressed: bool, z: Zlib, rest: seq<byte>): FrameRead {
    if !compressed then RawPacket(content, rest)
    else
      match Decode(content, VarInt)
      case Done(dataLength, payload) =>
        if dataLength < 0 then Failure(NegativeDataLength, rest)
        else if dataLength == 0 then RawPacket(payload, rest)
        else
          (match z.decompress(payload)
           case None => Failure(DecompressionFailed, rest)
           case Some(data) =>
             if |data| != dataLength then Failure(SizeMismatch(dataLength, |data|), rest) else RawPacket(data, rest))
      case _ => Failure(BadDataLength, rest)
  }

  function RawPacket(data: seq<byte>, rest: seq<byte>): FrameRead {
    if data == [] then Failure(MissingPacketId, rest) else Packet(data, rest)
  }

  // What reading one packet from the front of s yields.
  function ReadFrame(s: seq<byte>, compressed: bool, z: Zlib): FrameRead {
    match ReadLength(s)
    case NoLength(e, rest) => Failure(e, rest)
    case Length(n, rest) =>
      if n == 0 then Failure(ZeroLengthPacket, rest)
      else if |rest| < n then Failure(Io, [])
      else OpenFrame(rest[..n], compressed, z, rest[n..])
  }

  // What follows the length prefix when a packet is written.
  function FrameContent(packet: seq<byte>, c: Option<Settings>, z: Zlib): seq<byte> {
    match c
    case None => packet
    case Some(settings) =>
      if |packet| >= settings.threshold then EncodeSigned(|packet|, VarInt) + z.compress(packet, settings.level)
      else EncodeSigned(0, VarInt) + packet
  }

  function WriteFrame(packet: seq<byte>, c: Option<Settings>, z: Zlib): FrameWrite {
    var content := FrameContent(packet, c, z);
    if c.None? && |packet| > MAXIMUM_PACKET_LENGTH then Refused(LengthTooLarge)
    else if c.Some? && |packet| >= c.value.threshold && |packet| > I32_MAX then Refused(TooManyBytes)
    else if |content| > I32_MAX then Refused(TooManyBytes)
    else Frame(EncodeSigned(|content|, VarInt) + content)
  }

  lemma VarIntHolds(n: nat)
    ensures VarInt.Holds(n) <==> n <= I32_MAX
  {
    SmallPowers();
    Pow2Add(16, 15);
    Pow2Add(8, 7);
    WordPowers();
  }

  lemma ContentOpens(packet: seq<byte>, c: Option<Settings>, z: Zlib, rest: seq<byte>)
    requires z.Valid() && packet != [] && WriteFrame(packet, c, z).Frame?
    ensures FrameContent(packet, c, z) != []
    ensures OpenFrame(FrameContent(packet, c, z), c.Some?, z, rest) == Packet(packet, rest)
  {
    if c.Some? {
      VarIntHolds(0);
      EncodeNonEmpty(ToUnsigned(0, 32));
      if |packet| >= c.value.threshold {
        VarIntHolds(|packet|);
        RoundTrip(|packet|, VarInt, z.compress(packet, c.value.level));
        EncodeNonEmpty(ToUnsigned(|packet|, 32));
      } else {
        RoundTrip(0, VarInt, packet);
      }
    }
  }

  lemma FrameParts(packet: seq<byte>, c: Option<Settings>, z: Zlib)
    requires WriteFrame(packet, c, z).Frame?
    ensures var content := FrameContent(packet, c, z);
            && WriteFrame(packet, c, z).bytes == EncodeSigned(|content|, VarInt) + content
            && |content| <= (if c.None? then MAXIMUM_PACKET_LENGTH else I32_MAX)
  {
  }

  lemma LengthIsRead(content: seq<byte>, rest: seq<byte>)
    requires |content| <= I32_MAX
    ensures ReadLength(EncodeSigned(|content|, VarInt) + (content + rest)) ==
              if |content| <= MAXIMUM_PACKET_LENGTH then Length(|content|, content + rest)
              else NoLength(LengthTooLarge, content + rest)
  {
    hide EncodeSigned, Decode;
    VarIntHolds(|content|);
    RoundTrip(|content|, VarInt, content + rest);
  }

  // A written frame is read back as its packet, leaving what follows, exactly when its content does not exceed
  // the maximum the reader accepts. The compressed writer does not check that; the plain one does.
  lemma FrameRoundTrip(packet: seq<byte>, c: Option<Settings>, z: Zlib, rest: seq<byte>)
    requires z.Valid() && packet != [] && WriteFrame(packet, c, z).Frame?
    ensures ReadFrame(WriteFrame(packet, c, z).bytes + rest, c.Some?, z) ==
              if |FrameContent(packet, c, z)| <= MAXIMUM_PACKET_LENGTH then Packet(packet, rest)
              else Failure(LengthTooLarge, FrameContent(packet, c, z) + rest)
    ensures c.None? ==> |FrameContent(packet, c, z)| <= MAXIMUM_PACKET_LENGTH
  {
    hide WriteFrame, FrameContent, OpenFrame, EncodeSigned, ReadLength;
    var content := FrameContent(packet, c, z);
    var prefix := EncodeSigned(|content|, VarInt);
    FrameParts(packet, c, z);
    ContentOpens(packet, c, z, rest);
    LengthIsRead(content, rest);
    assert prefix + content + rest == prefix + (content + rest);
    if |content| <= MAXIMUM_PACKET_LENGTH {
      ContentIsTaken(prefix + (content + rest), content, c.Some?, z, rest);
    }
  }

  lemma ContentIsTaken(s: seq<byte>, content: seq<byte>, compressed: bool, z: Zlib, rest: seq<byte>)
    requires content != [] && ReadLength(s) == Length(|content|, content + rest)
    ensures ReadFrame(s, compressed, z) == OpenFrame(content, compressed, z, rest)
  {
    hide OpenFrame, ReadLength;
    assert (content + rest)[..|content|] == content && (content + rest)[|content|..] == rest;
  }

  // A packet is compressed exactly if it is as long as the threshold; the length in front of one that is not is zero.
  lemma CompressedWhen(packet: seq<byte>, settings: Settings, z: Zlib)
    requires packet != [] && |packet| <= I32_MAX
    ensures var content := FrameContent(packet, Some(settings), z);
            && (|packet| < settings.threshold ==> content == [0] + packet)
            && (|packet| >= settings.threshold ==>
                  content != [] && content[0] != 0
                  && Decode(content, VarInt) == Done(|packet|, z.compress(packet, settings.level)))
  {
    VarIntHolds(|packet|);
    assert Encode(0) == [0];
    assert EncodeSigned(0, VarInt) == [0];
    SignedRoundTrip(|packet|, VarInt);
    EncodedLength(ToUnsigned(|packet|, 32));
    RoundTrip(|packet|, VarInt, z.compress(packet, settings.level));
  }

  // The content of a compressed frame is a packet exactly if it is either zero and that packet, which is not empty, or
  // its length and bytes that decompress to it.
  lemma ContentIsPacketWhen(content: seq<byte>, z: Zlib, packet: seq<byte>, rest: seq<byte>)
    ensures OpenFrame(content, true, z, rest) == Packet(packet, rest) <==>
              && packet != [] && Decode(content, VarInt).Done?
              && var (n, body) := (Decode(content, VarInt).value, Decode(content, VarInt).rest);
                 (n == 0 && body == packet) || (n == |packet| && z.decompress(body) == Some(packet))
  {
    hide Decode;
  }

  // A packet of the greatest length, below the compression threshold, gets a frame that no reader accepts: the length
  // in front of the packet makes the content too long.
  lemma LongFrameIsRefused(z: Zlib, level: nat)
    requires z.Valid()
    ensures var packet := seq(MAXIMUM_PACKET_LENGTH, _ => 1);
            var settings := Some(Settings(MAXIMUM_PACKET_LENGTH + 1, level));
            && WriteFrame(packet, settings, z).Frame?
            && ReadFrame(WriteFrame(packet, settings, z).bytes, true, z) ==
                 Failure(LengthTooLarge, FrameContent(packet, settings, z))
  {
    var packet: seq<byte> := seq(MAXIMUM_PACKET_LENGTH, _ => 1);
    var settings := Some(Settings(MAXIMUM_PACKET_LENGTH + 1, level));
    VarIntHolds(0);
    assert EncodeSigned(0, VarInt) == [0];
    var content := FrameContent(packet, settings, z);
    assert |content| == MAXIMUM_PACKET_LENGTH + 1;
    FrameRoundTrip(packet, settings, z, []);
    assert content + [] == content;
    assert WriteFrame(packet, settings, z).bytes + [] == WriteFrame(packet, settings, z).bytes;
  }

  // ---- Streams of frames --------------------------------------------------------------------

  // A packet, and the compression settings the writer switches to right after it, if any.
  datatype Item = Item(packet: seq<byte>, enable: Option<Settings>)

  function After(c: Option<Settings>, item: Item): Option<Settings> {
    if item.enable.Some? then item.enable else c
  }

  // The writer makes a frame of every packet.
  predicate Framed(items: seq<Item>, c: Option<Settings>, z: Zlib) {
    items == [] ||
    (&& items[0].packet != [] && WriteFrame(items[0].packet, c, z).Frame?
     && Framed(items[1..], After(c, items[0]), z))
  }

  // No frame is longer than a reader takes.
  predicate Sendable(items: seq<Item>, c: Option<Settings>, z: Zlib) {
    items == [] ||
    (&& |FrameContent(items[0].packet, c, z)| <= MAXIMUM_PACKET_LENGTH
     && Sendable(items[1..], After(c, items[0]), z))
  }

  function WriteAll(items: seq<Item>, c: Option<Settings>, z: Zlib): seq<byte> {
    if items == [] then []
    else
      (match WriteFrame(items[0].packet, c, z) case Frame(bytes) => bytes case Refused(_) => [])
      + WriteAll(items[1..], After(c, items[0]), z)
  }

  datatype StreamRead = Packets(packets: seq<seq<byte>>, rest: seq<byte>) | Broken(error: Error)

  // Reads one packet per flag, turning compression on after the packets whose flag is set.
  function ReadAll(switches: seq<bool>, s: seq<byte>, compressed: bool, z: Zlib): StreamRead {
    if switches == [] then Packets([], s)
    else
      match ReadFrame(s, compressed, z)
      case Failure(e, _) => Broken(e)
      case Packet(p, rest) =>
        match ReadAll(switches[1..], rest, compressed || switches[0], z)
        case Broken(e) => Broken(e)
        case Packets(ps, rest) => Packets([p] + ps, rest)
  }

  function SwitchesOf(items: seq<Item>): seq<bool> {
    if items == [] then [] else [items[0].enable.Some?] + SwitchesOf(items[1..])
  }

  function PacketsOf(items: seq<Item>): seq<seq<byte>> {
    if items == [] then [] else [items[0].packet] + PacketsOf(items[1..])
  }

  // What was written is recovered packet by packet across the switch to compression exactly if no frame is too long,
  // as both sides switch after the same packet; the reader's own threshold and level play no part.
  lemma {:induction false} StreamRoundTrip(items: seq<Item>, c: Option<Settings>, z: Zlib, rest: seq<byte>)
    requires z.Valid() && Framed(items, c, z)
    ensures var read := ReadAll(SwitchesOf(items), WriteAll(items, c, z) + rest, c.Some?, z);
            read == Packets(PacketsOf(items), rest) <==> Sendable(items, c, z)
  {
    if items == [] {
      assert WriteAll(items, c, z) + rest == rest;
    } else {
      hide WriteFrame, ReadFrame, FrameContent, WriteAll;
      var c' := After(c, items[0]);
      var more := WriteAll(items[1..], c', z) + rest;
      StreamRoundTrip(items[1..], c', z, rest);
      WriteSplits(items, c, z, rest);
      FrameRoundTrip(items[0].packet, c, z, more);
      if |FrameContent(items[0].packet, c, z)| <= MAXIMUM_PACKET_LENGTH {
        ReadOne(SwitchesOf(items), WriteAll(items, c, z) + rest, c.Some?, z, items[0].packet, more);
        var read := ReadAll(SwitchesOf(items[1..]), more, c'.Some?, z);
        if read.Packets? {
          FirstCancels(items[0].packet, read, PacketsOf(items[1..]), rest);
        }
      }
    }
  }

  lemma FirstCancels(packet: seq<byte>, read: StreamRead, packets: seq<seq<byte>>, rest: seq<byte>)
    requires read.Packets?
    ensures Packets([packet] + read.packets, read.rest) == Packets([packet] + packets, rest) <==>
              read == Packets(packets, rest)
  {
    assert ([packet] + read.packets)[1..] == read.packets && ([packet] + packets)[1..] == packets;
  }

  lemma WriteSplits(items: seq<Item>, c: Option<Settings>, z: Zlib, rest: seq<byte>)
    requires items != [] && WriteFrame(items[0].packet, c, z).Frame?
    ensures WriteAll(items, c, z) + rest ==
              WriteFrame(items[0].packet, c, z).bytes + (WriteAll(items[1..], After(c, items[0]), z) + rest)
    ensures SwitchesOf(items)[1..] == SwitchesOf(items[1..])
  {
    hide WriteFrame;
    var bytes, more := WriteFrame(items[0].packet, c, z).bytes, WriteAll(items[1..], After(c, items[0]), z);
    assert WriteAll(items, c, z) == bytes + more;
    assert bytes + more + rest == bytes + (more + rest);
  }

  lemma ReadOne(switches: seq<bool>, s: seq<byte>, compressed: bool, z: Zlib, packet: seq<byte>, more: seq<byte>)
    requires switches != [] && ReadFrame(s, compressed, z) == Packet(packet, more)
    ensures ReadAll(switches, s, compressed, z) ==
              match ReadAll(switches[1..], more, compressed || switches[0], z)
              case Broken(e) => Broken(e)
              case Packets(ps, rest) => Packets([packet] + ps, rest)
  {
  }

  // ---- The stream ---------------------------------------------------------------------------

  class PacketStream {
    var input: seq<byte>
    var output: seq<byte>
    var compression: Option<Settings>
    const zlib: Zlib

    constructor (input: seq<byte>, zlib: Zlib)
      ensures this.input == input && this.zlib == zlib && output == [] && compression == None
    {
      this.input, this.zlib, output, compression := input, zlib, [], None;
    }

    method SetCompression(threshold: nat, level: nat)
      modifies this`compression
      ensures compression == Some(Settings(threshold, if level > 9 then 9 else level))
    {
      compression := Some(Settings(threshold, if level > 9 then 9 else level));
    }

    // Reads exactly n bytes; a stream that ends before that is used up.
    method ReadExact(n: nat) returns (bytes: Option<seq<byte>>)
      modifies this`input
      ensures if |old(input)| < n then bytes == None && input == []
              else bytes == Some(old(input)[..n]) && input == old(input)[n..]
    {
      if |input| < n {
        input := [];
        return None;
      }
      bytes := Some(input[..n]);
      input := input[n..];
    }

    // Re-parses the growing prefix after every byte; the result is that of decoding the stream at once.
    method ReadVarInt() returns (r: LengthRead)
      modifies this`input
      ensures r == ReadLength(old(input)) && input == r.rest
    {
      ghost var s := input;
      var buffer: seq<byte> := [];
      for i := 0 to 5
        invariant i <= |s| && buffer == s[..i] && input == s[i..]
        invariant forall j :: 0 <= j < i ==> s[j] >= 128
      {
        var b := ReadExact(1);
        if b == None {
          RunsOut(s, VarInt);
          return NoLength(Io, []);
        }
        buffer := buffer + b.value;
        assert buffer == s[..i + 1];
        PrefixDecides(s, i + 1);
        match GetPacketLength(buffer) {
          case Parsed(n) => return Length(n, input);
          case NeedMore =>
          case Malformed(e) => return NoLength(e, input);
        }
      }
      FiveContinuations(s);
      r := NoLength(VarIntTooLong, input);
    }

    method ReadPacket() returns (r: FrameRead)
      modifies this`input
      ensures r == ReadFrame(old(input), compression.Some?, zlib) && input == r.rest
    {
      var length := ReadVarInt();
      if length.NoLength? {
        return Failure(length.error, length.rest);
      }
      if length.length == 0 {
        return Failure(ZeroLengthPacket, length.rest);
      }
      var content := ReadExact(length.length);
      if content == None {
        return Failure(Io, []);
      }
      r := OpenFrame(content.value, compression.Some?, zlib, input);
    }

    method WritePacket(packet: seq<byte>) returns (failure: Option<Error>)
      modifies this`output
      ensures match WriteFrame(packet, compression, zlib)
              case Frame(bytes) => failure == None && output == old(output) + bytes
              case Refused(e) => failure == Some(e) && output == old(output)
    {
      match compression
      case None =>
        if |packet| > MAXIMUM_PACKET_LENGTH {
          return Some(LengthTooLarge);
        }
        failure := WriteContent(packet);
      case Some(settings) =>
        VarIntHolds(0);
        if |packet| >= settings.threshold {
          if |packet| > I32_MAX {
            return Some(TooManyBytes);
          }
          VarIntHolds(|packet|);
          var dataLength := WriteVar(|packet|, VarInt);
          failure := WriteContent(dataLength + zlib.compress(packet, settings.level));
        } else {
          var dataLength := WriteVar(0, VarInt);
          failure := WriteContent(dataLength + packet);
        }
    }

    method WriteContent(content: seq<byte>) returns (failure: Option<Error>)
      modifies this`output
      ensures if |content| > I32_MAX then failure == Some(TooManyBytes) && output == old(output)
              else failure == None && output == old(output) + (EncodeSigned(|content|, VarInt) + content)
    {
      if |content| > I32_MAX {
        return Some(TooManyBytes);
      }
      VarIntHolds(|content|);
      var prefix := WriteVar(|content|, VarInt);
      output := output + prefix + content;
      failure := None;
    }
  }

  // A number that ends within the prefix.
  lemma PrefixEnds(s: seq<byte>, n: nat) returns (v: int)
    requires 0 < n <= |s| && n <= 5 && s[n - 1] < 128 && forall j :: 0 <= j < n - 1 ==> s[j] >= 128
    ensures Decode(s[..n], VarInt) == Done(v, []) && Decode(s, VarInt) == Done(v, s[n..])
  {
    hide Decode, ToSigned, Value, Pow2;
    assert s[..n][..n] == s[..n];
    var u := Value(s[..n]) % Pow2(VarInt.Width());
    v := ToSigned(u, VarInt.Width());
    Finishes(u, s[..n], n, VarInt);
    Finishes(u, s, n, VarInt);
  }

  // After n bytes of which only the last may end the number, the prefix already decides the whole stream.
  lemma PrefixDecides(s: seq<byte>, n: nat)
    requires 0 < n <= |s| && n <= 5 && forall j :: 0 <= j < n - 1 ==> s[j] >= 128
    ensures if s[n - 1] >= 128 then GetPacketLength(s[..n]) == NeedMore
            else match GetPacketLength(s[..n])
                 case Parsed(length) => ReadLength(s) == Length(length, s[n..])
                 case Malformed(e) => ReadLength(s) == NoLength(e, s[n..])
                 case NeedMore => false
  {
    var prefix := s[..n];
    if s[n - 1] >= 128 {
      RunsOut(prefix, VarInt);
    } else {
      hide Decode;
      var _ := PrefixEnds(s, n);
    }
  }

  lemma FiveContinuations(s: seq<byte>)
    requires |s| >= 5 && forall j :: 0 <= j < 5 ==> s[j] >= 128
    ensures ReadLength(s) == NoLength(VarIntTooLong, s[5..])
  {
    if |s| == 5 {
      RunsOut(s, VarInt);
    } else {
      GivesUp(s, VarInt);
    }
  }
}
