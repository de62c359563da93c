/** Recording a Forge handshake from an upstream server, and its relation to playing one back. */
module ForgeRecorder {
  import opened Prelude
  import opened Texts
  import opened ForgeReplay
  import opened VarInts

  type Raw = seq<byte>

  // The recorder's answer to a request: empty, or signed for the proxy's question.
  datatype Response = Response(id: int, signed: bool)

  datatype UpstreamError = Unreadable | Undecodable | Malformed
    | LoginDisconnect | OnlineModeRequired | UnexpectedPacket(id: byte)

  datatype Outcome = Recorded(steps: seq<Step>) | Failed(error: UpstreamError)

  // What the recorder holds while it waits for the next packet.
  datatype Recorder = Recorder(steps: seq<Step>, compression: Option<nat>, responses: seq<Response>)

  datatype Progress = Going(recorder: Recorder) | Ended(outcome: Outcome)

  // The secret shared with the proxy, and whether a payload can be signed with it.
  datatype Secret = NoSecret | Secret(signs: bool)

  const SET_COMPRESSION: byte := 3
  const PLUGIN_REQUEST: byte := 4
  const LOGIN_SUCCESS: byte := 2
  const DISCONNECT: byte := 0
  const ENCRYPTION_REQUEST: byte := 1

  function PacketId(raw: Raw): byte { if raw == [] then 0xFF else raw[0] }

  function Data(raw: Raw): seq<byte> { if raw == [] then [] else raw[1..] }

  // ---- Plugin requests --------------------------------------------------------------------------

  // U+FFFD, n times.
  function Replacement(n: nat): (t: Text) {
    if n == 0 then [] else ReplacementIsText(Replacement(n - 1)); [0xEF, 0xBF, 0xBD] + Replacement(n - 1)
  }

  lemma ReplacementIsText(t: Text)
    ensures IsUtf8([0xEF, 0xBF, 0xBD] + t)
  {
  }

  // A string that is not valid is read as replacement characters, one for each of its bytes.
  function AsText(bytes: seq<byte>): Text { if IsUtf8(bytes) then bytes else Replacement(|bytes|) }

  datatype NamedBytes = NamedBytes(name: Text, rest: seq<byte>)

  function ReadString(s: seq<byte>): Option<NamedBytes> {
    match Decode(s, VarInt)
    case Done(n, rest) =>
      if n < 0 || n > |rest| then None
      else Some(NamedBytes(AsText(rest[..n]), rest[n..]))
    case _ => None
  }

  datatype Request = Request(id: int, step: Step)

  function ReadRequest(data: seq<byte>): Option<Request> {
    match Decode(data, VarInt)
    case Done(id, rest) =>
      (match ReadString(rest)
       case Some(NamedBytes(channel, payload)) => Some(Request(id, Step(channel, payload)))
       case None => None)
    case _ => None
  }

  function WriteRequest(id: int, channel: seq<byte>, payload: seq<byte>): seq<byte> {
    EncodeSigned(id, VarInt) + EncodeSigned(|channel|, VarInt) + channel + payload
  }

  // A request is read back from its bytes.
  lemma RequestRoundTrip(id: int, channel: Text, payload: seq<byte>)
    requires VarInt.Holds(id) && VarInt.Holds(|channel|)
    ensures ReadRequest(WriteRequest(id, channel, payload)) == Some(Request(id, Step(channel, payload)))
  {
    var length := EncodeSigned(|channel|, VarInt);
    assert WriteRequest(id, channel, payload) == EncodeSigned(id, VarInt) + (length + (channel + payload));
    RoundTrip(id, VarInt, length + (channel + payload));
    RoundTrip(|channel|, VarInt, channel + payload);
    assert (channel + payload)[..|channel|] == channel && (channel + payload)[|channel|..] == payload;
  }

  // ---- The proxy's question ---------------------------------------------------------------------

  // velocity:player_info
  const VELOCITY: seq<byte> := [0x76, 0x65, 0x6C, 0x6F, 0x63, 0x69, 0x74, 0x79, COLON,
                                0x70, 0x6C, 0x61, 0x79, 0x65, 0x72, 0x5F, 0x69, 0x6E, 0x66, 0x6F]

  predicate IsVelocity(channel: seq<byte>) { channel == VELOCITY || channel == VELOCITY + [0x20] }

  // ---- The recorder -----------------------------------------------------------------------------

  // What one packet does.
  function Observe(r: Recorder, raw: Raw, secret: Secret): Progress {
    var data := Data(raw);
    if PacketId(raw) == SET_COMPRESSION then
      match Decode(data, VarInt)
      case Done(threshold, _) => Going(if threshold >= 0 then r.(compression := Some(threshold)) else r)
      case _ => Ended(Failed(Undecodable))
    else if PacketId(raw) == PLUGIN_REQUEST then
      match ReadRequest(data)
      case Some(Request(id, step)) =>
        if !IsVelocity(step.channel) then
          Going(r.(steps := r.steps + [step], responses := r.responses + [Response(id, false)]))
        else if secret.Secret? && secret.signs then Going(r.(responses := r.responses + [Response(id, true)]))
        else Ended(Failed(Malformed))
      case None => Ended(Failed(Undecodable))
    else if PacketId(raw) == LOGIN_SUCCESS then Ended(Recorded(r.steps))
    else if PacketId(raw) == DISCONNECT then Ended(if r.steps != [] then Recorded(r.steps) else Failed(LoginDisconnect))
    else if PacketId(raw) == ENCRYPTION_REQUEST then Ended(Failed(OnlineModeRequired))
    else Ended(Failed(UnexpectedPacket(PacketId(raw))))
  }

  // Nothing is read any more after the end.
  function Follow(p: Progress, raw: Raw, secret: Secret): Progress {
    if p.Going? then Observe(p.recorder, raw, secret) else p
  }

  function Record(packets: seq<Raw>, secret: Secret): Progress {
    if packets == [] then Going(Recorder([], None, []))
    else Follow(Record(packets[..|packets| - 1], secret), packets[|packets| - 1], secret)
  }

  // Records from the packets an upstream sends, up to the one that ends the login, if there is one.
  method RecordLoginPhase(packets: seq<Raw>, secret: Secret) returns (progress: Progress)
    ensures progress == Record(packets, secret)
  {
    var steps: seq<Step> := [];
    var compression: Option<nat> := None;
    var responses: seq<Response> := [];
    for i := 0 to |packets|
      invariant Record(packets[..i], secret) == Going(Recorder(steps, compression, responses))
    {
      var raw := packets[i];
      assert packets[..i + 1][..i] == packets[..i];
      var packetId := PacketId(raw);
      if packetId == SET_COMPRESSION {
        var threshold := Decode(Data(raw), VarInt);
        if !threshold.Done? {
          EndStays(packets, i + 1, secret);
          return Ended(Failed(Undecodable));
        }
        if threshold.value >= 0 {
          compression := Some(threshold.value);
        }
      } else if packetId == PLUGIN_REQUEST {
        var request := ReadRequest(Data(raw));
        if request.None? {
          EndStays(packets, i + 1, secret);
          return Ended(Failed(Undecodable));
        }
        var id, step := request.value.id, request.value.step;
        if IsVelocity(step.channel) {
          if secret.NoSecret? || !secret.signs {
            EndStays(packets, i + 1, secret);
            return Ended(Failed(Malformed));
          }
          responses := responses + [Response(id, true)];
        } else {
          steps := steps + [step];
          responses := responses + [Response(id, false)];
        }
      } else {
        EndStays(packets, i + 1, secret);
        if packetId == LOGIN_SUCCESS {
          return Ended(Recorded(steps));
        } else if packetId == DISCONNECT {
          return Ended(if steps != [] then Recorded(steps) else Failed(LoginDisconnect));
        } else if packetId == ENCRYPTION_REQUEST {
          return Ended(Failed(OnlineModeRequired));
        }
        return Ended(Failed(UnexpectedPacket(packetId)));
      }
    }
    assert packets[..|packets|] == packets;
    progress := Going(Recorder(steps, compression, responses));
  }

  lemma {:induction false} EndStays(packets: seq<Raw>, k: nat, secret: Secret)
    requires k <= |packets| && Record(packets[..k], secret).Ended?
    ensures Record(packets, secret) == Record(packets[..k], secret)
  {
    if k == |packets| {
      assert packets[..k] == packets;
    } else {
      assert packets[..|packets| - 1][..k] == packets[..k];
      EndStays(packets[..|packets| - 1], k, secret);
    }
  }

  // ---- What is recorded -------------------------------------------------------------------------

  // The plugin requests among some packets, in order.
  function Requests(packets: seq<Raw>): seq<Request> {
    if packets == [] then []
    else
      var raw := packets[|packets| - 1];
      var before := Requests(packets[..|packets| - 1]);
      if PacketId(raw) == PLUGIN_REQUEST && ReadRequest(Data(raw)).Some? then before + [ReadRequest(Data(raw)).value]
      else before
  }

  // The steps of the requests that are not the proxy's.
  function ForgeSteps(requests: seq<Request>): seq<Step> {
    if requests == [] then []
    else
      var last := requests[|requests| - 1];
      var before := ForgeSteps(requests[..|requests| - 1]);
      if IsVelocity(last.step.channel) then before else before + [last.step]
  }

  predicate EndsRecording(raw: Raw) { PacketId(raw) == LOGIN_SUCCESS || PacketId(raw) == DISCONNECT }

  // So far, every request was answered under its own id, and all but the proxy's were recorded in order.
  predicate InStep(r: Recorder, packets: seq<Raw>) {
    var requests := Requests(packets);
    && r.steps == ForgeSteps(requests)
    && |r.responses| == |requests|
    && forall i :: 0 <= i < |requests| ==>
         r.responses[i] == Response(requests[i].id, IsVelocity(requests[i].step.channel))
  }

  lemma RequestsAppend(packets: seq<Raw>, raw: Raw)
    ensures Requests(packets + [raw]) ==
              if PacketId(raw) == PLUGIN_REQUEST && ReadRequest(Data(raw)).Some?
              then Requests(packets) + [ReadRequest(Data(raw)).value]
              else Requests(packets)
  {
    assert (packets + [raw])[..|packets|] == packets;
  }

  lemma ForgeStepsAppend(requests: seq<Request>, last: Request)
    ensures ForgeSteps(requests + [last]) ==
              if IsVelocity(last.step.channel) then ForgeSteps(requests) else ForgeSteps(requests) + [last.step]
  {
    assert (requests + [last])[..|requests|] == requests;
  }

  lemma ObserveKeepsStep(r: Recorder, packets: seq<Raw>, raw: Raw, secret: Secret)
    requires InStep(r, packets) && Observe(r, raw, secret).Going?
    ensures InStep(Observe(r, raw, secret).recorder, packets + [raw])
  {
    hide Requests, ForgeSteps, ReadRequest, IsVelocity;
    RequestsAppend(packets, raw);
    if PacketId(raw) == PLUGIN_REQUEST && ReadRequest(Data(raw)).Some? {
      ForgeStepsAppend(Requests(packets), ReadRequest(Data(raw)).value);
    }
  }

  lemma ObserveEnds(r: Recorder, raw: Raw, secret: Secret)
    requires Observe(r, raw, secret).Ended? && Observe(r, raw, secret).outcome.Recorded?
    ensures EndsRecording(raw) && Observe(r, raw, secret).outcome.steps == r.steps
  {
  }

  // The recording ended at packet m, with the Forge requests before it.
  predicate EndedAt(m: nat, packets: seq<Raw>, steps: seq<Step>) {
    m < |packets| && EndsRecording(packets[m]) && steps == ForgeSteps(Requests(packets[..m]))
  }

  ghost predicate Projects(p: Progress, packets: seq<Raw>) {
    match p
    case Going(r) => InStep(r, packets)
    case Ended(Recorded(steps)) => exists m :: EndedAt(m, packets, steps)
    case Ended(Failed(_)) => true
  }

  lemma EndStaysThere(m: nat, packets: seq<Raw>, raw: Raw, steps: seq<Step>)
    requires EndedAt(m, packets, steps)
    ensures EndedAt(m, packets + [raw], steps)
  {
    assert (packets + [raw])[..m] == packets[..m];
    assert (packets + [raw])[m] == packets[m];
  }

  lemma EndKeepsProjecting(steps: seq<Step>, packets: seq<Raw>, raw: Raw)
    requires exists m: nat :: EndedAt(m, packets, steps)
    ensures exists m: nat :: EndedAt(m, packets + [raw], steps)
  {
    var m: nat :| EndedAt(m, packets, steps);
    EndStaysThere(m, packets, raw, steps);
  }

  lemma ObserveProjects(r: Recorder, packets: seq<Raw>, raw: Raw, secret: Secret)
    requires InStep(r, packets)
    ensures Projects(Observe(r, raw, secret), packets + [raw])
  {
    var p := Observe(r, raw, secret);
    if p.Going? {
      ObserveKeepsStep(r, packets, raw, secret);
    } else if p.outcome.Recorded? {
      ObserveEnds(r, raw, secret);
      assert (packets + [raw])[..|packets|] == packets;
      assert EndedAt(|packets|, packets + [raw], r.steps);
    }
  }

  // A recording is the in-order projection of the upstream's requests before the packet that ended it; while it goes
  // on, every request has been answered.
  lemma {:induction false} RecordsForgeRequests(packets: seq<Raw>, secret: Secret)
    ensures Projects(Record(packets, secret), packets)
  {
    if packets == [] {
    } else {
      hide Follow, Projects, Record;
      var n := |packets| - 1;
      RecordsForgeRequests(packets[..n], secret);
      FollowProjects(Record(packets[..n], secret), packets[..n], packets[n], secret);
      RecordLast(packets[..n], packets[n], secret);
      assert packets == packets[..n] + [packets[n]];
    }
  }

  lemma RecordLast(packets: seq<Raw>, raw: Raw, secret: Secret)
    ensures Record(packets + [raw], secret) == Follow(Record(packets, secret), raw, secret)
  {
    assert (packets + [raw])[..|packets|] == packets;
  }

  lemma FollowProjects(p: Progress, packets: seq<Raw>, raw: Raw, secret: Secret)
    requires Projects(p, packets)
    ensures Projects(Follow(p, raw, secret), packets + [raw])
  {
    hide Observe, InStep, EndedAt;
    if p.Going? {
      ObserveProjects(p.recorder, packets, raw, secret);
    } else if p.outcome.Recorded? {
      EndKeepsProjecting(p.outcome.steps, packets, raw);
    }
  }
}
