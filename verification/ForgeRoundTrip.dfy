/** A recorder that connects to a server playing a recording back, frame by frame. */
module ForgeRoundTrip {
  import Bits
  import ConnectionTraces
  import opened Prelude
  import opened Texts
  import opened ForgeReplay
  import opened VarInts
  import opened PacketStreams
  import opened Packets
  import opened ClientStates
  import opened Handlers
  import opened ForgeSessions
  import opened ForgeRecorder

  // ---- The wire ---------------------------------------------------------------------------------

  // How the two sides are connected: zlib, the level the server compresses at, and the bodies of the packets the
  // recorder does not look into.
  datatype Network = Network(zlib: Zlib, level: nat, body: Clientbound -> seq<byte>)

  // The bytes of a packet.
  function Wire(p: Clientbound, net: Network): Raw {
    match p
    case CustomQuery(id, channel, data) => [PLUGIN_REQUEST] + WriteRequest(id, channel.Shown(), data)
    case SetCompression(threshold) => [SET_COMPRESSION] + EncodeSigned(threshold, VarInt)
    case LoginSuccess(_) => [LOGIN_SUCCESS] + net.body(p)
    case GameProfile(_) => [LOGIN_SUCCESS] + net.body(p)
    case _ => net.body(p)
  }

  function SettingsAfter(p: Clientbound, s: Server, c: Option<Settings>, net: Network): Option<Settings> {
    if p.SetCompression? && s.compression.Some? then Some(Settings(s.compression.value, net.level)) else c
  }

  // The frames of a batch. A frame that is refused ends the batch, but not the connection.
  function Send(batch: seq<Clientbound>, s: Server, c: Option<Settings>, net: Network): (seq<byte>, Option<Settings>) {
    if batch == [] then ([], c)
    else
      match WriteFrame(Wire(batch[0], net), c, net.zlib)
      case Refused(_) => ([], c)
      case Frame(bytes) =>
        var (more, c) := Send(batch[1..], s, SettingsAfter(batch[0], s, c, net), net);
        (bytes + more, c)
  }

  lemma FrameIsShorter(bytes: seq<byte>, compressed: bool, z: Zlib)
    requires ReadFrame(bytes, compressed, z).Packet?
    ensures |ReadFrame(bytes, compressed, z).rest| < |bytes|
  {
    DecodeConsumes(bytes, VarInt);
  }

  // ---- The conversation -------------------------------------------------------------------------

  function StepsLeft(c: Client, s: Server): nat {
    if c.session.None? then 0
    else if s.fml2.Some? && c.session.value.nextStep < |s.fml2.value| then 1 + |s.fml2.value| - c.session.value.nextStep
    else 1
  }

  // What the server sends for an answer.
  function Reaction(c: Client, s: Server, id: int): (Client, seq<Clientbound>) {
    if c.state != Login then (c, [])
    else
      var (d, reply) := OnCustomQueryAnswer(c, s, id, None);
      (d, if reply.Queued? then reply.batch else [])
  }

  lemma ReactionUsesUp(c: Client, s: Server, id: int)
    requires !s.modernForwarding
    ensures var (d, batch) := Reaction(c, s, id);
            StepsLeft(d, s) <= StepsLeft(c, s) && (batch != [] ==> StepsLeft(d, s) < StepsLeft(c, s))
  {
  }

  // The server and what it compresses with, the bytes under way, and the recorder.
  datatype Talk = Talk(client: Client, settings: Option<Settings>, wire: seq<byte>, recorder: Recorder)

  // The recorder reads frame by frame, and the server takes each answer as it comes. With nothing under way the
  // recorder waits.
  function Converse(t: Talk, s: Server, secret: Secret, net: Network): Progress
    requires !s.modernForwarding
    decreases StepsLeft(t.client, s), |t.wire|
  {
    var r := t.recorder;
    if t.wire == [] then Going(r)
    else
      match ReadFrame(t.wire, r.compression.Some?, net.zlib)
      case Failure(_, _) => Ended(Failed(Unreadable))
      case Packet(raw, rest) =>
        FrameIsShorter(t.wire, r.compression.Some?, net.zlib);
        var p := Observe(r, raw, secret);
        if p.Ended? then p
        else if |p.recorder.responses| <= |r.responses| then
          Converse(t.(wire := rest, recorder := p.recorder), s, secret, net)
        else
          var id := p.recorder.responses[|r.responses|].id;
          var (d, batch) := Reaction(t.client, s, id);
          ReactionUsesUp(t.client, s, id);
          var (bytes, settings) := Send(batch, s, t.settings, net);
          Converse(Talk(d, settings, rest + bytes, p.recorder), s, secret, net)
  }

  const NOTHING := Recorder([], None, [])

  function RecordReplay(c: Client, s: Server, login: Profile, secret: Secret, net: Network): Progress
    requires !s.modernForwarding
  {
    var (d, sent) := Replay(c, s, login, []);
    var (bytes, settings) := Send(sent, s, None, net);
    Converse(Talk(d, settings, bytes, NOTHING), s, secret, net)
  }

  // ---- What is heard ----------------------------------------------------------------------------

  // Queries go out before compression, and the plain writer refuses long frames.
  predicate Fits(id: int, step: Step, net: Network) { |Wire(QueryFor(id, step), net)| <= MAXIMUM_PACKET_LENGTH }

  // What becomes of a step: recorded, answered for the proxy only, the end of the recording, or never sent.
  datatype Fate = Kept(step: Step) | Signed | Rejected | Unsent

  function ShownStep(step: Step): Step {
    ShownIsText(step.channel);
    ForgeReplay.Step(ShownChannel(step.channel), step.payload)
  }

  function FateOf(id: int, step: Step, secret: Secret, net: Network): Fate {
    if !Fits(id, step, net) then Unsent
    else if !IsVelocity(ShownStep(step).channel) then Kept(ShownStep(step))
    else if secret.Secret? && secret.signs then Signed
    else Rejected
  }

  function Fates(steps: seq<Step>, secret: Secret, net: Network): (fates: seq<Fate>)
    ensures |fates| == |steps| && forall i :: 0 <= i < |steps| ==> fates[i] == FateOf(1 + i, steps[i], secret, net)
  {
    seq(|steps|, i requires 0 <= i < |steps| => FateOf(1 + i, steps[i], secret, net))
  }

  // What is heard of some steps, after others: nothing more once a step is not sent.
  function Heard(fates: seq<Fate>, kept: seq<Step>): Option<Outcome> {
    if fates == [] then Some(Recorded(kept))
    else match fates[0]
      case Kept(step) => Heard(fates[1..], kept + [step])
      case Signed => Heard(fates[1..], kept)
      case Rejected => Some(Failed(UpstreamError.Malformed))
      case Unsent => None
  }

  lemma {:induction false} AsciiIsText(s: seq<byte>)
    requires forall i :: 0 <= i < |s| ==> s[i] < 0x80
    ensures IsUtf8(s)
  {
    if s == [] {
    } else {
      AsciiIsText(s[1..]);
    }
  }

  lemma ShownIsText(channel: Text)
    ensures IsUtf8(ShownChannel(channel))
  {
    SplitOnceIsShown(channel);
    if SplitOnce(channel).None? {
      AsciiIsText(PLACEHOLDER.Shown());
    }
  }

  // A recording that is played to a recorder. Ids are 32-bit numbers.
  ghost predicate Playable(c: Client, s: Server, net: Network) {
    && c.state == Login && c.kick == None && ShouldReplay(c.forgeKind) && s.fml2.Some? && !s.modernForwarding
    && |s.fml2.value| <= I32_MAX && net.zlib.Valid()
  }

  // ---- The end of the login ---------------------------------------------------------------------

  predicate LogsIn(version: int, s: Server) {
    && (Compresses(version, s) ==> s.compression.value <= I32_MAX)
    && (SupportsConfiguration(version) ||
        (JoinError(version, s).None? && (version < V1_16 || (s.spawnChunk.Some? && s.finds(version, DimensionInfo)))))
  }

  predicate Arrives(raw: Raw, c: Option<Settings>, z: Zlib) {
    WriteFrame(raw, c, z).Frame? && |FrameContent(raw, c, z)| <= MAXIMUM_PACKET_LENGTH
  }

  function SuccessPacket(version: int, p: Profile): Clientbound {
    if version >= V1_21_2 then LoginSuccess(p) else GameProfile(p)
  }

  // The success packet is queued, and its frame is one the recorder reads.
  predicate LoginArrives(version: int, s: Server, p: Profile, net: Network) {
    LogsIn(version, s) &&
    Arrives(Wire(SuccessPacket(version, p), net),
            if Compresses(version, s) then Some(Settings(s.compression.value, net.level)) else None, net.zlib)
  }

  lemma LoginIsQueuedWhen(c: Client, s: Server, p: Profile)
    ensures FireLoginSuccess([], c, s, p).1.Queued? <==> LogsIn(c.version, s)
  {
  }

  lemma LoginStartsWithSuccess(c: Client, s: Server, p: Profile)
    requires LogsIn(c.version, s)
    ensures var reply := FireLoginSuccess([], c, s, p).1;
            var b := SuccessPackets([], c.version, s, p);
            reply.Queued? && |b| <= |reply.batch| && reply.batch[..|b|] == b
  {
    var b := SuccessPackets([], c.version, s, p);
    LoginIsQueuedWhen(c, s, p);
    if !SupportsConfiguration(c.version) {
      ConnectionTraces.PlayAdds(b, c.WithProfile(p), s);
    }
  }

  lemma CompressionIsRead(r: Recorder, threshold: nat, secret: Secret, net: Network)
    requires threshold <= I32_MAX
    ensures Observe(r, Wire(SetCompression(threshold), net), secret) == Going(r.(compression := Some(threshold)))
    ensures |Wire(SetCompression(threshold), net)| <= 6
  {
    VarIntHolds(threshold);
    RoundTrip(threshold, VarInt, []);
    assert EncodeSigned(threshold, VarInt) + [] == EncodeSigned(threshold, VarInt);
    assert Data(Wire(SetCompression(threshold), net)) == EncodeSigned(threshold, VarInt);
  }

  // A frame that was written first is read first.
  lemma FirstFrame(raw: Raw, c: Option<Settings>, z: Zlib, rest: seq<byte>)
    requires z.Valid() && raw != [] && Arrives(raw, c, z)
    ensures var bytes := WriteFrame(raw, c, z).bytes + rest;
            bytes != [] && ReadFrame(bytes, c.Some?, z) == Packet(raw, rest)
  {
    FrameRoundTrip(raw, c, z, rest);
    EncodeNonEmpty(ToUnsigned(|FrameContent(raw, c, z)|, 32));
  }

  lemma PlainFrame(raw: Raw, z: Zlib)
    ensures Arrives(raw, None, z) <==> |raw| <= MAXIMUM_PACKET_LENGTH
    ensures !Arrives(raw, None, z) ==> WriteFrame(raw, None, z).Refused?
  {
  }

  // Once only the success packet is to be read.
  lemma SuccessEnds(d: Client, s: Server, batch: seq<Clientbound>, c: Option<Settings>, r: Recorder, secret: Secret,
                    net: Network)
    requires !s.modernForwarding && net.zlib.Valid() && c.Some? == r.compression.Some?
    requires batch != [] && batch[0].EndsLogin()
    ensures var (bytes, settings) := Send(batch, s, c, net);
            var p := Converse(Talk(d, settings, bytes, r), s, secret, net);
            if Arrives(Wire(batch[0], net), c, net.zlib) then p == Ended(Recorded(r.steps))
            else !(p.Ended? && p.outcome.Recorded?)
  {
    hide OnCustomQueryAnswer, SettingsAfter, WriteFrame, ReadFrame, FrameContent;
    var raw := Wire(batch[0], net);
    if WriteFrame(raw, c, net.zlib).Frame? {
      var more := Send(batch[1..], s, SettingsAfter(batch[0], s, c, net), net).0;
      FrameRoundTrip(raw, c, net.zlib, more);
      if Arrives(raw, c, net.zlib) {
        FirstFrame(raw, c, net.zlib, more);
      }
    }
  }

  // Once the login packets are to be read: the recording ends exactly if the success packet arrives.
  lemma LoginEnds(d: Client, s: Server, batch: seq<Clientbound>, r: Recorder, secret: Secret, net: Network,
                  version: int, p: Profile)
    requires !s.modernForwarding && net.zlib.Valid() && r.compression == None && LogsIn(version, s)
    requires var b := SuccessPackets([], version, s, p); |b| <= |batch| && batch[..|b|] == b
    ensures var (bytes, settings) := Send(batch, s, None, net);
            var end := Converse(Talk(d, settings, bytes, r), s, secret, net);
            if LoginArrives(version, s, p, net) then end == Ended(Recorded(r.steps))
            else !(end.Ended? && end.outcome.Recorded?)
  {
    var b := SuccessPackets([], version, s, p);
    assert batch[0] == batch[..|b|][0] == b[0];
    if Compresses(version, s) {
      assert batch[1..][0] == batch[1] == batch[..|b|][1] == b[1];
      SwitchIsRead(d, s, batch, r, secret, net);
      SuccessEnds(d, s, batch[1..], Some(Settings(s.compression.value, net.level)),
                  r.(compression := Some(s.compression.value)), secret, net);
    } else {
      SuccessEnds(d, s, batch, None, r, secret, net);
    }
  }

  // Both sides switch to compression with the packet that announces it.
  lemma SwitchIsRead(d: Client, s: Server, batch: seq<Clientbound>, r: Recorder, secret: Secret, net: Network)
    requires !s.modernForwarding && net.zlib.Valid() && r.compression == None
    requires s.compression.Some? && s.compression.value <= I32_MAX
    requires batch != [] && batch[0] == SetCompression(s.compression.value)
    ensures var (bytes, settings) := Send(batch, s, None, net);
            var c := Some(Settings(s.compression.value, net.level));
            var (more, settings') := Send(batch[1..], s, c, net);
            Converse(Talk(d, settings, bytes, r), s, secret, net) ==
              Converse(Talk(d, settings', more, r.(compression := Some(s.compression.value))), s, secret, net)
  {
    var raw := Wire(batch[0], net);
    var c := Some(Settings(s.compression.value, net.level));
    CompressionIsRead(r, s.compression.value, secret, net);
    PlainFrame(raw, net.zlib);
    FirstFrame(raw, None, net.zlib, Send(batch[1..], s, c, net).0);
  }

  // ---- The steps --------------------------------------------------------------------------------

  // The recorder after a step that it answers.
  function Taken(r: Recorder, id: int, fate: Fate): Recorder {
    r.(steps := if fate.Kept? then r.steps + [fate.step] else r.steps,
      responses := r.responses + [Response(id, fate.Signed?)])
  }

  lemma QueryIsRead(r: Recorder, id: int, step: Step, secret: Secret, net: Network)
    requires VarInt.Holds(id) && Fits(id, step, net)
    ensures var fate := FateOf(id, step, secret, net);
            Observe(r, Wire(QueryFor(id, step), net), secret) ==
              if fate.Rejected? then Ended(Failed(UpstreamError.Malformed)) else Going(Taken(r, id, fate))
  {
    ShownIsText(step.channel);
    VarIntHolds(|ShownChannel(step.channel)|);
    RequestRoundTrip(id, ShownChannel(step.channel), step.payload);
    hide ReadRequest, WriteRequest, IsVelocity, ShownChannel, ParseChannel;
    assert Data(Wire(QueryFor(id, step), net)) == WriteRequest(id, ShownChannel(step.channel), step.payload);
  }

  // The client while the answer to step k is awaited.
  function Awaiting(c: Client, login: Profile, k: nat): Client
    requires k > 0
  {
    c.WithProfile(login).(session := Some(Session(k, k, map[k := k - 1])))
  }

  lemma AnswerAsksNext(c: Client, s: Server, login: Profile, k: nat, net: Network)
    requires Playable(c, s, net) && 1 <= k < |s.fml2.value|
    ensures Reaction(Awaiting(c, login, k), s, k) == (Awaiting(c, login, k + 1), [QueryFor(k + 1, s.fml2.value[k])])
  {
    var session := Session(k, k, map[k := k - 1]);
    AnsweredThenComplete(session, k, s.fml2.value);
    assert session.Consume(k).0 == Session(k, k, map[]);
    assert map[][k + 1 := k] == map[k + 1 := k];
  }

  lemma AnswerGraduates(c: Client, s: Server, login: Profile, k: nat, net: Network)
    requires Playable(c, s, net) && k == |s.fml2.value| >= 1
    ensures Reaction(Awaiting(c, login, k), s, k) == Graduate(c, s, login)
  {
    AnsweredThenComplete(Session(k, k, map[k := k - 1]), k, s.fml2.value);
  }

  // What the server sends next, once the recorder has taken step k.
  function GoOn(c: Client, s: Server, login: Profile, k: nat, r: Recorder, net: Network): Talk
    requires k > 0
  {
    var (d, batch) := Reaction(Awaiting(c, login, k), s, k);
    var (bytes, settings) := Send(batch, s, None, net);
    Talk(d, settings, bytes, r)
  }

  // A query on its way to the recorder.
  function Asked(c: Client, s: Server, login: Profile, k: nat, step: Step, r: Recorder, net: Network): Talk
    requires k > 0
  {
    var (bytes, settings) := Send([QueryFor(k, step)], s, None, net);
    Talk(Awaiting(c, login, k), settings, bytes, r)
  }

  lemma UnsentQuery(c: Client, s: Server, login: Profile, k: nat, step: Step, r: Recorder, secret: Secret, net: Network)
    requires k > 0 && !s.modernForwarding && !Fits(k, step, net)
    ensures Converse(Asked(c, s, login, k, step, r, net), s, secret, net) == Going(r)
  {
    PlainFrame(Wire(QueryFor(k, step), net), net.zlib);
  }

  lemma OneFrame(p: Clientbound, s: Server, c: Option<Settings>, net: Network)
    requires WriteFrame(Wire(p, net), c, net.zlib).Frame?
    ensures Send([p], s, c, net) == (WriteFrame(Wire(p, net), c, net.zlib).bytes, SettingsAfter(p, s, c, net))
  {
    assert [p][1..] == [];
    assert WriteFrame(Wire(p, net), c, net.zlib).bytes + [] == WriteFrame(Wire(p, net), c, net.zlib).bytes;
  }

  lemma SentQuery(s: Server, k: nat, step: Step, net: Network)
    requires net.zlib.Valid() && Fits(k, step, net)
    ensures var (bytes, settings) := Send([QueryFor(k, step)], s, None, net);
            && bytes != [] && settings == None
            && ReadFrame(bytes, false, net.zlib) == Packet(Wire(QueryFor(k, step), net), [])
  {
    var raw := Wire(QueryFor(k, step), net);
    PlainFrame(raw, net.zlib);
    OneFrame(QueryFor(k, step), s, None, net);
    FirstFrame(raw, None, net.zlib, []);
    assert WriteFrame(raw, None, net.zlib).bytes + [] == WriteFrame(raw, None, net.zlib).bytes;
  }

  // Sending one query, and going on from there.
  lemma QueryIsTaken(c: Client, s: Server, login: Profile, k: nat, step: Step, r: Recorder,
      secret: Secret, net: Network)
    requires 0 < k <= I32_MAX && !s.modernForwarding && net.zlib.Valid() && r.compression == None && Fits(k, step, net)
    ensures var fate := FateOf(k, step, secret, net);
            Converse(Asked(c, s, login, k, step, r, net), s, secret, net) ==
              if fate.Rejected? then Ended(Failed(UpstreamError.Malformed))
              else Converse(GoOn(c, s, login, k, Taken(r, k, fate), net), s, secret, net)
  {
    VarIntHolds(k);
    QueryIsRead(r, k, step, secret, net);
    SentQuery(s, k, step, net);
    var next := GoOn(c, s, login, k, r, net).wire;
    assert [] + next == next;
  }

  // How a conversation comes out, given what is heard of the steps.
  predicate ComesOut(p: Progress, heard: Option<Outcome>, arrives: bool) {
    match heard
    case None => p.Going?
    case Some(Failed(e)) => p == Ended(Failed(e))
    case Some(Recorded(steps)) =>
      if arrives then p == Ended(Recorded(steps)) else !(p.Ended? && p.outcome.Recorded?)
  }

  lemma LastAnswerEnds(c: Client, s: Server, login: Profile, r: Recorder, secret: Secret, net: Network)
    requires Playable(c, s, net) && s.fml2.value != [] && r.compression == None
    ensures ComesOut(Converse(GoOn(c, s, login, |s.fml2.value|, r, net), s, secret, net), Some(Recorded(r.steps)),
                     LoginArrives(c.version, s, c.WithProfile(login).profile.value, net))
  {
    var p := c.WithProfile(login).profile.value;
    AnswerGraduates(c, s, login, |s.fml2.value|, net);
    LoginIsQueuedWhen(c.WithProfile(login).(session := None), s, p);
    if LogsIn(c.version, s) {
      LoginStartsWithSuccess(c.WithProfile(login).(session := None), s, p);
      LoginEnds(Graduate(c, s, login).0, s, Graduate(c, s, login).1, r, secret, net, c.version, p);
    }
  }

  lemma NextIsAsked(c: Client, s: Server, login: Profile, k: nat, r: Recorder, net: Network)
    requires Playable(c, s, net) && 1 <= k < |s.fml2.value|
    ensures GoOn(c, s, login, k, r, net) == Asked(c, s, login, k + 1, s.fml2.value[k], r, net)
  {
    AnswerAsksNext(c, s, login, k, net);
  }

  // While the answer to step k is awaited.
  lemma {:induction false} ConversationGoesOn(c: Client, s: Server, login: Profile, k: nat, r: Recorder, secret: Secret,
                                              net: Network)
    requires Playable(c, s, net) && 1 <= k <= |s.fml2.value| && r.compression == None
    ensures ComesOut(Converse(Asked(c, s, login, k, s.fml2.value[k - 1], r, net), s, secret, net),
                     Heard(Fates(s.fml2.value, secret, net)[k - 1..], r.steps),
                     LoginArrives(c.version, s, c.WithProfile(login).profile.value, net))
    decreases |s.fml2.value| - k
  {
    hide Converse, Asked, GoOn, LoginArrives, Wire, IsVelocity;
    var steps, fates := s.fml2.value, Fates(s.fml2.value, secret, net);
    var fate := fates[k - 1];
    assert fates[k - 1..][1..] == fates[k..];
    if fate.Unsent? {
      UnsentQuery(c, s, login, k, steps[k - 1], r, secret, net);
    } else {
      QueryIsTaken(c, s, login, k, steps[k - 1], r, secret, net);
      if fate.Rejected? {
      } else if k < |steps| {
        NextIsAsked(c, s, login, k, Taken(r, k, fate), net);
        ConversationGoesOn(c, s, login, k + 1, Taken(r, k, fate), secret, net);
      } else {
        LastAnswerEnds(c, s, login, Taken(r, k, fate), secret, net);
      }
    }
  }

  // Whom the success packet names: without steps the login is not merged with a forwarded identity.
  function Named(c: Client, s: Server, login: Profile): Profile
    requires s.fml2.Some?
  {
    if s.fml2.value == [] then login else c.WithProfile(login).profile.value
  }

  // Recording a server that plays a recording back gives what is heard of it.
  lemma ReplayIsHeard(c: Client, s: Server, login: Profile, secret: Secret, net: Network)
    requires Playable(c, s, net)
    ensures ComesOut(RecordReplay(c, s, login, secret, net), Heard(Fates(s.fml2.value, secret, net), []),
                     LoginArrives(c.version, s, Named(c, s, login), net))
  {
    var steps := s.fml2.value;
    var (d, sent) := Replay(c, s, login, []);
    if steps == [] {
      LoginIsQueuedWhen(c, s, login);
      if LogsIn(c.version, s) {
        LoginStartsWithSuccess(c, s, login);
        LoginEnds(d, s, sent, NOTHING, secret, net, c.version, login);
      }
    } else {
      ReplayFollowsAnswers(c, s, login, []);
      assert Queries(steps, 1) == [QueryFor(1, steps[0])];
      ConversationGoesOn(c, s, login, 1, NOTHING, secret, net);
      assert Fates(steps, secret, net)[0..] == Fates(steps, secret, net);
    }
  }

  // ---- Faithful recordings ----------------------------------------------------------------------

  predicate Survives(step: Step) { COLON in step.channel && !IsVelocity(step.channel) }

  lemma FateIsKept(id: int, step: Step, secret: Secret, net: Network)
    ensures FateOf(id, step, secret, net) == Kept(step) <==> Survives(step) && Fits(id, step, net)
  {
    ShownIsText(step.channel);
    ChannelIsKept(step.channel);
  }

  lemma {:induction false} HeardKeeps(fates: seq<Fate>, kept: seq<Step>)
    ensures match Heard(fates, kept)
            case Some(Recorded(all)) => |kept| <= |all| <= |kept| + |fates| && all[..|kept|] == kept
            case _ => true
  {
    if fates == [] {
    } else if fates[0].Kept? {
      HeardKeeps(fates[1..], kept + [fates[0].step]);
      match Heard(fates, kept)
      case Some(Recorded(all)) => assert all[..|kept|] == all[..|kept| + 1][..|kept|];
      case _ =>
    } else {
      HeardKeeps(fates[1..], kept);
    }
  }

  lemma {:induction false} HeardIsSaid(fates: seq<Fate>, steps: seq<Step>, kept: seq<Step>)
    requires |fates| == |steps|
    ensures Heard(fates, kept) == Some(Recorded(kept + steps))
            <==> forall i :: 0 <= i < |steps| ==> fates[i] == Kept(steps[i])
  {
    if steps == [] {
      assert kept + steps == kept;
    } else {
      HeardKeeps(fates[1..], kept);
      HeardIsSaid(fates[1..], steps[1..], kept + [steps[0]]);
      assert kept + [steps[0]] + steps[1..] == kept + steps;
      assert fates == [fates[0]] + fates[1..] && steps == [steps[0]] + steps[1..];
      if fates[0].Kept? && Heard(fates, kept) == Some(Recorded(kept + steps)) {
        HeardKeeps(fates[1..], kept + [fates[0].step]);
        assert (kept + [fates[0].step])[|kept|] == (kept + steps)[..|kept| + 1][|kept|] == steps[0];
      }
    }
  }

  lemma AllAreKept(steps: seq<Step>, secret: Secret, net: Network)
    ensures Heard(Fates(steps, secret, net), []) == Some(Recorded(steps)) <==>
              forall i :: 0 <= i < |steps| ==> Survives(steps[i]) && Fits(1 + i, steps[i], net)
  {
    hide FateOf, Fits, Survives;
    var fates := Fates(steps, secret, net);
    HeardIsSaid(fates, steps, []);
    assert [] + steps == steps;
    forall i | 0 <= i < |steps|
      ensures fates[i] == Kept(steps[i]) <==> Survives(steps[i]) && Fits(1 + i, steps[i], net)
    {
      FateIsKept(1 + i, steps[i], secret, net);
    }
  }

  // Recording a replay gives the recording back exactly when every channel holds a colon and none is the proxy's,
  // every query fits a frame, and the login at the end arrives.
  lemma RecordingInvertsReplay(c: Client, s: Server, login: Profile, secret: Secret, net: Network)
    requires Playable(c, s, net)
    ensures RecordReplay(c, s, login, secret, net) == Ended(Recorded(s.fml2.value)) <==>
              && LoginArrives(c.version, s, Named(c, s, login), net)
              && forall i :: 0 <= i < |s.fml2.value| ==>
                   Survives(s.fml2.value[i]) && Fits(1 + i, s.fml2.value[i], net)
  {
    hide RecordReplay, LoginArrives, Fates, Fits, Survives, Heard;
    ReplayIsHeard(c, s, login, secret, net);
    AllAreKept(s.fml2.value, secret, net);
  }

  lemma EmptyChannelIsReplaced(payload: seq<byte>, net: Network)
    requires Fits(1, ForgeReplay.Step([], payload), net)
    ensures IsUtf8(PLACEHOLDER.Shown())
    ensures FateOf(1, ForgeReplay.Step([], payload), NoSecret, net) ==
              Kept(ForgeReplay.Step(PLACEHOLDER.Shown(), payload))
  {
    hide Fits;
    ShownIsText([]);
    assert PLACEHOLDER.Shown()[0] != VELOCITY[0];
  }

  lemma OneIsHeard(fates: seq<Fate>)
    requires |fates| == 1 && fates[0].Kept?
    ensures Heard(fates, []) == Some(Recorded([fates[0].step]))
  {
    assert fates[1..] == [] && [] + [fates[0].step] == [fates[0].step];
  }

  // A recording whose one channel is empty comes back with the placeholder in its place.
  lemma EmptyChannelIsLost(c: Client, s: Server, login: Profile, payload: seq<byte>, net: Network)
    requires Playable(c, s, net) && s.fml2 == Some([ForgeReplay.Step([], payload)])
    requires LoginArrives(c.version, s, Named(c, s, login), net) && Fits(1, s.fml2.value[0], net)
    ensures IsUtf8(PLACEHOLDER.Shown())
    ensures RecordReplay(c, s, login, NoSecret, net) ==
              Ended(Recorded([ForgeReplay.Step(PLACEHOLDER.Shown(), payload)]))
  {
    hide RecordReplay, LoginArrives, Fits, FateOf, Heard;
    ReplayIsHeard(c, s, login, NoSecret, net);
    EmptyChannelIsReplaced(payload, net);
    OneIsHeard(Fates(s.fml2.value, NoSecret, net));
  }

  // a:b
  const SHORT_CHANNEL: seq<byte> := [0x61, COLON, 0x62]

  // A step whose payload alone fills a frame is never sent, and the recorder waits for ever.
  lemma OversizedStepIsNotSent(c: Client, s: Server, login: Profile, payload: seq<byte>, secret: Secret, net: Network)
    requires Playable(c, s, net) && |payload| == MAXIMUM_PACKET_LENGTH
    requires |s.fml2.value| == 1 && s.fml2.value[0].channel == SHORT_CHANNEL && s.fml2.value[0].payload == payload
    ensures Survives(s.fml2.value[0]) && RecordReplay(c, s, login, secret, net).Going?
  {
    ReplayIsHeard(c, s, login, secret, net);
    assert |Wire(QueryFor(1, s.fml2.value[0]), net)| > |payload|;
    assert SHORT_CHANNEL[1] == COLON && SHORT_CHANNEL[0] != VELOCITY[0];
  }
}
