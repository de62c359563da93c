/** Exactly how a recording comes out, from the upstream's packets alone. */
module ForgeRecordings {
  import opened Prelude
  import opened ForgeReplay
  import opened VarInts
  import opened ForgeRecorder
  import Handlers
  import Characters
  import opened Texts

  // ---- One packet -------------------------------------------------------------------------------

  predicate Starts(raw: Raw, id: byte) { raw != [] && raw[0] == id }

  // A packet the login goes on after: compression that can be read, or a request that can be read and answered.
  predicate GoesOn(raw: Raw, secret: Secret) {
    || (Starts(raw, 0x03) && Decode(raw[1..], VarInt).Done?)
    || (Starts(raw, 0x04) && ReadRequest(raw[1..]).Some?
        && (IsVelocity(ReadRequest(raw[1..]).value.step.channel) ==> secret.Secret? && secret.signs))
  }

  // What the first other packet makes of the steps captured before it.
  predicate EndsAs(raw: Raw, captured: seq<Step>, o: Outcome) {
    match o
    case Recorded(steps) => steps == captured && (Starts(raw, 0x02) || (Starts(raw, 0x00) && captured != []))
    case Failed(LoginDisconnect) => Starts(raw, 0x00) && captured == []
    case Failed(OnlineModeRequired) => Starts(raw, 0x01)
    case Failed(Undecodable) => Starts(raw, 0x03) || (Starts(raw, 0x04) && ReadRequest(raw[1..]).None?)
    case Failed(Malformed) => Starts(raw, 0x04) && ReadRequest(raw[1..]).Some?
    case Failed(UnexpectedPacket(id)) => if raw == [] then id == 0xFF else id == raw[0] > 0x04
    case Failed(Unreadable) => false
  }

  lemma ObserveGoesOn(r: Recorder, raw: Raw, secret: Secret)
    ensures Observe(r, raw, secret).Going? <==> GoesOn(raw, secret)
  {
    hide Decode, ReadRequest, IsVelocity;
  }

  lemma ObserveEndsAs(r: Recorder, raw: Raw, secret: Secret, o: Outcome)
    requires !GoesOn(raw, secret)
    ensures Observe(r, raw, secret) == Ended(o) <==> EndsAs(raw, r.steps, o)
  {
    hide Decode, ReadRequest, IsVelocity;
  }

  // ---- A login ----------------------------------------------------------------------------------

  // Packet m is the first that the login does not go on after.
  predicate StopsAt(packets: seq<Raw>, m: nat, secret: Secret) {
    && m < |packets| && !GoesOn(packets[m], secret)
    && forall i :: 0 <= i < m ==> GoesOn(packets[i], secret)
  }

  // The steps of the requests before packet m, but for the proxy's.
  function Captured(packets: seq<Raw>, m: nat): seq<Step>
    requires m <= |packets|
  {
    ForgeSteps(Requests(packets[..m]))
  }

  // While every packet lets the login go on, all requests so far are recorded and answered.
  lemma {:induction false} LoginGoesOn(packets: seq<Raw>, secret: Secret)
    requires forall i :: 0 <= i < |packets| ==> GoesOn(packets[i], secret)
    ensures Record(packets, secret).Going? && InStep(Record(packets, secret).recorder, packets)
  {
    hide GoesOn, InStep;
    RecordsForgeRequests(packets, secret);
    if packets == [] {
    } else {
      var n := |packets| - 1;
      LoginGoesOn(packets[..n], secret);
      ObserveGoesOn(Record(packets[..n], secret).recorder, packets[n], secret);
    }
  }

  lemma StopIsFollowed(packets: seq<Raw>, m: nat, secret: Secret)
    requires StopsAt(packets, m, secret)
    ensures var r := Record(packets[..m], secret);
            && r.Going? && r.recorder.steps == Captured(packets, m)
            && Record(packets, secret) == Observe(r.recorder, packets[m], secret)
  {
    hide GoesOn, Observe;
    var r := Record(packets[..m], secret);
    LoginGoesOn(packets[..m], secret);
    ObserveGoesOn(r.recorder, packets[m], secret);
    RecordLast(packets[..m], packets[m], secret);
    assert packets[..m] + [packets[m]] == packets[..m + 1];
    EndStays(packets, m + 1, secret);
  }

  lemma FirstStop(packets: seq<Raw>, secret: Secret) returns (m: nat)
    requires exists i :: 0 <= i < |packets| && !GoesOn(packets[i], secret)
    ensures StopsAt(packets, m, secret)
  {
    hide GoesOn;
    m := 0;
    while GoesOn(packets[m], secret)
      invariant m < |packets| && forall i :: 0 <= i < m ==> GoesOn(packets[i], secret)
      decreases |packets| - m
    {
      m := m + 1;
    }
  }

  // A recording goes on exactly as long as every packet lets it. Else it comes out as the first other packet says: with
  // the steps captured so far at a success packet, or at a disconnect if there are any, and with its error at any
  // other.
  lemma RecordEndsWhen(packets: seq<Raw>, secret: Secret, o: Outcome)
    ensures Record(packets, secret).Going? <==> forall i :: 0 <= i < |packets| ==> GoesOn(packets[i], secret)
    ensures Record(packets, secret) == Ended(o) <==>
              exists m: nat :: StopsAt(packets, m, secret) && EndsAs(packets[m], Captured(packets, m), o)
  {
    hide GoesOn, Observe, Record, EndsAs;
    if forall i :: 0 <= i < |packets| ==> GoesOn(packets[i], secret) {
      LoginGoesOn(packets, secret);
    } else {
      var m := FirstStop(packets, secret);
      StopIsFollowed(packets, m, secret);
      var r := Record(packets[..m], secret).recorder;
      ObserveGoesOn(r, packets[m], secret);
      ObserveEndsAs(r, packets[m], secret, o);
      assert forall k: nat :: StopsAt(packets, k, secret) ==> k == m;
    }
  }

  // The proxy's question is on the channel the server itself asks the proxy on.
  lemma ProxyChannel()
    ensures IsVelocity(Handlers.VELOCITY_INFO.Shown()) && IsVelocity(Handlers.VELOCITY_INFO.Shown() + [0x20])
  {
    assert Handlers.VELOCITY_INFO.Shown() == VELOCITY;
  }

  // The last threshold announced that turns compression on.
  function Announced(packets: seq<Raw>): Option<nat> {
    if packets == [] then None
    else
      var raw := packets[|packets| - 1];
      if Starts(raw, 0x03) && Decode(raw[1..], VarInt).Done? && Decode(raw[1..], VarInt).value >= 0
      then Some(Decode(raw[1..], VarInt).value)
      else Announced(packets[..|packets| - 1])
  }

  // While the login goes on, the recorder compresses as it was told last.
  lemma {:induction false} CompressionIsFollowed(packets: seq<Raw>, secret: Secret)
    requires Record(packets, secret).Going?
    ensures Record(packets, secret).recorder.compression == Announced(packets)
  {
    hide Decode, ReadRequest, IsVelocity;
    if packets == [] {
    } else {
      CompressionIsFollowed(packets[..|packets| - 1], secret);
    }
  }

  // A name that is no text is read as one replacement character, U+FFFD, for each of its bytes.
  lemma {:induction false} ReplacedName(bytes: seq<byte>, n: nat)
    ensures AsText(bytes) == if IsUtf8(bytes) then bytes else Replacement(|bytes|)
    ensures Replacement(n) == Characters.EncodeText(seq(n, _ => 0xFFFD))
  {
    var cs := seq(n, _ => 0xFFFD as Characters.Scalar);
    if n > 0 {
      ReplacedName(bytes, n - 1);
      assert cs[1..] == seq(n - 1, _ => 0xFFFD as Characters.Scalar);
    }
  }
}
