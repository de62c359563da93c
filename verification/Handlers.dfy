/** How the server answers each packet a client sends. */
module Handlers {
  import opened Prelude
  import opened ForgeReplay
  import opened Packets
  import opened ClientStates

  // The registry look-ups that can fail for a version.
  datatype Lookup = RegistryCodec | DimensionCodec | DimensionInfo | TaggedRegistries | RegistryEntries

  datatype Title = TitleOnly | SubtitleOnly | Both

  datatype Server = Server(
    allowUnsupported: bool,
    repliesToStatus: bool,
    acceptsTransfers: bool,
    modernForwarding: bool,
    compression: Option<nat>,
    fml2: Option<seq<Step>>,
    welcome: bool,
    teleportMessage: bool,
    actionBar: bool,
    tabList: bool,
    bossBar: bool,
    title: Option<Title>,
    spawnChunk: Option<(int, int)>,
    chunks: nat,
    finds: (int, Lookup) -> bool,
    registries: int -> nat
  )

  // What a handler gives back: packets to send, or an error that may end the connection.
  datatype Reply = Queued(batch: seq<Clientbound>) | Refused(fatal: bool)

  function When(batch: seq<Clientbound>, condition: bool, p: Clientbound): seq<Clientbound> {
    if condition then batch + [p] else batch
  }

  function Copies(p: Clientbound, n: nat): seq<Clientbound> { seq(n, _ => p) }

  // ---- Handshake --------------------------------------------------------------------------------

  function BeginLogin(c: Client, marker: ForgeKind, forwarding: Forwarding): (Client, Reply) {
    var c := c.(state := Login, forgeKind := marker);
    if c.version == UNSUPPORTED then (c, Refused(true))
    else match forwarding
      case Invalid => (c.(kick := Some(ProxyRequired)), Refused(true))
      case Anonymous(p) => (c.WithProfile(p), Queued([]))
      case NoForwarding => (c, Queued([]))
  }

  function OnIntention(c: Client, s: Server, protocol: int, nextState: int, marker: ForgeKind, forwarding: Forwarding)
    : (Client, Reply)
  {
    var c := c.(version := SpokenVersion(protocol, s.allowUnsupported));
    if nextState == 1 then (c.(state := Status), if s.repliesToStatus then Queued([]) else Refused(true))
    else if nextState == 2 || (nextState == 3 && s.acceptsTransfers) then BeginLogin(c, marker, forwarding)
    else if nextState == 3 then (c.(state := Transfer), Refused(true))
    else (c, Refused(true))
  }

  method HandleIntention(client: ClientState, s: Server, protocol: int, nextState: int, marker: ForgeKind,
                         forwarding: Forwarding) returns (reply: Reply)
    modifies client
    ensures client.forgeSession == old(client.forgeSession)
    ensures (client.View(), reply) == OnIntention(old(client.View()), s, protocol, nextState, marker, forwarding)
  {
    hide SpokenVersion;
    client.protocolVersion := SpokenVersion(protocol, s.allowUnsupported);
    if nextState < 1 || nextState > 3 {
      return Refused(true);
    }
    client.state := if nextState == 1 then Status else if nextState == 2 then Login else Transfer;
    if client.state == Status {
      return if s.repliesToStatus then Queued([]) else Refused(true);
    }
    if client.state == Transfer {
      if !s.acceptsTransfers {
        return Refused(true);
      }
      client.state := Login;
    }
    client.forgeKind := marker;
    if client.protocolVersion == UNSUPPORTED {
      return Refused(true);
    }
    match forwarding {
      case Invalid =>
        client.kickMessage := Some(ProxyRequired);
        reply := Refused(true);
      case Anonymous(profile) =>
        client.SetGameProfile(profile);
        reply := Queued([]);
      case NoForwarding => reply := Queued([]);
    }
  }

  // ---- Entering play ----------------------------------------------------------------------------

  // Why the join packet cannot be built, if it cannot: true is an error that ends the connection.
  function JoinError(version: int, s: Server): Option<bool> {
    if V1_7_2 <= version <= 578 || V1_20_2 <= version <= V1_20_3 then None
    else if V1_16 <= version <= 736 || V1_19 <= version <= V1_20 then
      if s.finds(version, RegistryCodec) then None else Some(false)
    else if V1_16_2 <= version <= 758 then
      if s.finds(version, RegistryCodec) && s.finds(version, DimensionCodec) then None else Some(false)
    else if version >= V1_20_5 then
      if s.finds(version, DimensionInfo) then None else Some(false)
    else Some(true)
  }

  function TitlePackets(title: Option<Title>, version: int): seq<Clientbound> {
    if title.None? then []
    else if version >= V1_17 then
      [TitlesAnimation] + (if title.value.SubtitleOnly? then [] else [TitleText])
                        + (if title.value.TitleOnly? then [] else [SubtitleText])
    else Copies(LegacySetTitle, if title.value.Both? then 3 else 2)
  }

  function ActionBarPacket(version: int): Clientbound {
    if version >= V1_17 then ActionBarText else if version >= V1_11 then LegacySetTitle else LegacyChat
  }

  function MessagePacket(version: int): Clientbound { if version >= V1_19 then SystemChat else LegacyChat }

  // What a fresh player is told first.
  function SpawnPackets(batch: seq<Clientbound>, v: int): seq<Clientbound> {
    When(batch + [JoinGame] + [PlayerAbilities], v >= V1_19, DefaultSpawnPosition) + [PlayerPosition]
  }

  function JoinPackets(batch: seq<Clientbound>, v: int, s: Server): seq<Clientbound> {
    var b := When(When(SpawnPackets(batch, v), v >= V1_13, Commands), V1_13 <= v <= V1_20, PlayBrand);
    When(b, s.welcome, MessagePacket(v)) + [UpdateTime]
  }

  function SkinPackets(batch: seq<Clientbound>, c: Client, s: Server): seq<Clientbound> {
    var b := When(batch, s.actionBar, ActionBarPacket(c.version));
    When(b, c.profile.Some? && c.profile.value.uuid != 0, PlayerInfo) + [EntityMetadata]
  }

  function ListPackets(batch: seq<Clientbound>, v: int, s: Server): seq<Clientbound> {
    When(When(batch, s.tabList, TabList) + TitlePackets(s.title, v), v >= V1_9 && s.bossBar, BossBar)
  }

  // The action bar, skin, tab list, title and boss bar.
  function OverlayPackets(batch: seq<Clientbound>, c: Client, s: Server): seq<Clientbound> {
    if c.version < V1_8 then batch else ListPackets(SkinPackets(batch, c, s), c.version, s)
  }

  function ChunkPackets(batch: seq<Clientbound>, v: int, s: Server): Reply {
    if v < V1_16 then Queued(batch)
    else if s.spawnChunk.None? then Refused(true)
    else if !s.finds(v, DimensionInfo) then Refused(false)
    else Queued(When(When(batch, v >= V1_20_3, GameEvent), v >= V1_19, CenterChunk) + Copies(ChunkData, s.chunks))
  }

  function PlayPackets(batch: seq<Clientbound>, c: Client, s: Server): Reply {
    if JoinError(c.version, s).Some? then Refused(JoinError(c.version, s).value)
    else ChunkPackets(OverlayPackets(JoinPackets(batch, c.version, s), c, s), c.version, s)
  }

  method SendPlayPackets(batch: seq<Clientbound>, client: ClientState, s: Server) returns (reply: Reply)
    modifies client
    ensures client.forgeSession == old(client.forgeSession)
    ensures reply == PlayPackets(batch, old(client.View()), s)
    ensures client.View() == if reply.Queued? then old(client.View()).InPlay() else old(client.View())
  {
    var version := client.protocolVersion;
    var failure := JoinError(version, s);
    if failure.Some? {
      return Refused(failure.value);
    }
    var b := SendJoin(batch, version, s);
    b := SendOverlays(b, client, s);
    reply := SendChunks(b, version, s);
    if reply.Queued? {
      client.state := Play;
      client.SetKeepAliveShouldEnable();
    }
  }

  method SendJoin(batch: seq<Clientbound>, version: int, s: Server) returns (b: seq<Clientbound>)
    ensures b == JoinPackets(batch, version, s)
  {
    b := batch + [JoinGame];
    b := b + [PlayerAbilities];
    if version >= V1_19 {
      b := b + [DefaultSpawnPosition];
    }
    b := b + [PlayerPosition];
    if version >= V1_13 {
      b := b + [Commands];
    }
    if V1_13 <= version <= V1_20 {
      b := b + [PlayBrand];
    }
    if s.welcome {
      b := b + [MessagePacket(version)];
    }
    b := b + [UpdateTime];
  }

  method SendOverlays(batch: seq<Clientbound>, client: ClientState, s: Server) returns (b: seq<Clientbound>)
    ensures b == OverlayPackets(batch, client.View(), s)
  {
    b := batch;
    var version := client.protocolVersion;
    if version >= V1_8 {
      if s.actionBar {
        b := b + [ActionBarPacket(version)];
      }
      if client.gameProfile.Some? && client.gameProfile.value.uuid != 0 {
        b := b + [PlayerInfo];
      }
      b := b + [EntityMetadata];
      if s.tabList {
        b := b + [TabList];
      }
      b := b + TitlePackets(s.title, version);
    }
    if version >= V1_9 && s.bossBar {
      b := b + [BossBar];
    }
  }

  method SendChunks(batch: seq<Clientbound>, version: int, s: Server) returns (reply: Reply)
    ensures reply == ChunkPackets(batch, version, s)
  {
    if version < V1_16 {
      return Queued(batch);
    }
    var b := batch;
    if version >= V1_20_3 {
      b := b + [GameEvent];
    }
    if s.spawnChunk.None? {
      return Refused(true);
    }
    if version >= V1_19 {
      b := b + [CenterChunk];
    }
    if !s.finds(version, DimensionInfo) {
      return Refused(false);
    }
    reply := Queued(b + Copies(ChunkData, s.chunks));
  }

  // ---- Login ------------------------------------------------------------------------------------

  predicate Compresses(version: int, s: Server) { version >= V1_8 && s.compression.Some? }

  // What tells a client that its login is done.
  function SuccessPackets(batch: seq<Clientbound>, version: int, s: Server, p: Profile): seq<Clientbound> {
    (if Compresses(version, s) then batch + [SetCompression(s.compression.value)] else batch)
    + [if version >= V1_21_2 then LoginSuccess(p) else GameProfile(p)]
  }

  function FireLoginSuccess(batch: seq<Clientbound>, c: Client, s: Server, p: Profile): (Client, Reply) {
    if Compresses(c.version, s) && s.compression.value > I32_MAX then (c, Refused(false))
    else
      var b := SuccessPackets(batch, c.version, s, p);
      var c := c.WithProfile(p);
      if SupportsConfiguration(c.version) then (c, Queued(b))
      else
        var reply := PlayPackets(b, c, s);
        (if reply.Queued? then c.InPlay() else c, reply)
  }

  method SendLoginSuccess(batch: seq<Clientbound>, client: ClientState, s: Server, profile: Profile)
    returns (reply: Reply)
    modifies client
    ensures client.forgeSession == old(client.forgeSession)
    ensures (client.View(), reply) == FireLoginSuccess(batch, old(client.View()), s, profile)
  {
    var b := batch;
    if client.protocolVersion >= V1_8 && s.compression.Some? {
      if s.compression.value > I32_MAX {
        return Refused(false);
      }
      b := b + [SetCompression(s.compression.value)];
    }
    b := b + [if client.protocolVersion >= V1_21_2 then LoginSuccess(profile) else GameProfile(profile)];
    client.SetGameProfile(profile);
    if SupportsConfiguration(client.protocolVersion) {
      return Queued(b);
    }
    reply := SendPlayPackets(b, client, s);
  }

  function QueryFor(id: int, step: Step): Clientbound {
    CustomQuery(id, ParseChannel(step.channel), step.payload)
  }

  method EnqueueNextForgeStep(batch: seq<Clientbound>, session: Fml2ReplaySession, steps: seq<Step>)
    returns (b: seq<Clientbound>, queued: bool)
    modifies session
    ensures session.View() == old(session.View()).Take(steps).0
    ensures match old(session.View()).Take(steps).1
            case Some((id, step)) => queued && b == batch + [QueryFor(id, step)]
            case None => !queued && b == batch
  {
    var next := session.TakeNextStep(steps);
    if next.None? {
      return batch, false;
    }
    b, queued := batch + [QueryFor(next.value.0, next.value.1)], true;
  }

  predicate ShouldReplay(kind: ForgeKind) { kind.Fml2? || kind.Fml3? }

  predicate Replays(c: Client, s: Server) {
    ShouldReplay(c.forgeKind) && s.fml2.Some? && s.fml2.value != []
  }

  function OnLoginStart(c: Client, s: Server, login: Profile, nonce: int): (Client, Reply) {
    if Replays(c, s) then
      var (session, next) := Session(0, 0, map[]).Take(s.fml2.value);
      (c.WithProfile(login).(session := Some(session)), Queued([QueryFor(next.value.0, next.value.1)]))
    else if !s.modernForwarding then FireLoginSuccess([], c, s, login)
    else if c.version >= V1_13 then
      (c.(velocityId := nonce), Queued([CustomQuery(nonce, VELOCITY_INFO, [])]))
    else (c.(kick := Some(ModernForwardingNotSupported)), Queued([]))
  }

  // velocity:player_info
  const VELOCITY_INFO := Identifier([0x76, 0x65, 0x6C, 0x6F, 0x63, 0x69, 0x74, 0x79],
                                    [0x70, 0x6C, 0x61, 0x79, 0x65, 0x72, 0x5F, 0x69, 0x6E, 0x66, 0x6F])

  // `nonce` is the random id of a question to the proxy.
  method HandleLoginStart(client: ClientState, s: Server, login: Profile, nonce: int) returns (reply: Reply)
    modifies client
    ensures client.forgeSession == old(client.forgeSession) || fresh(client.forgeSession)
    ensures (client.View(), reply) == OnLoginStart(old(client.View()), s, login, nonce)
  {
    if ShouldReplay(client.forgeKind) && s.fml2.Some? && s.fml2.value != [] {
      client.SetGameProfile(login);
      client.StartForgeReplay();
      var batch, _ := EnqueueNextForgeStep([], client.forgeSession, s.fml2.value);
      assert batch == [batch[0]];
      return Queued(batch);
    }
    if s.modernForwarding {
      if client.protocolVersion >= V1_13 {
        client.messageId := nonce;
        return Queued([CustomQuery(nonce, VELOCITY_INFO, [])]);
      }
      client.kickMessage := Some(ModernForwardingNotSupported);
      return Queued([]);
    }
    reply := SendLoginSuccess([], client, s, login);
  }

  // `proxied` is who the proxy vouches for, if its signature is right.
  function OnCustomQueryAnswer(c: Client, s: Server, id: int, proxied: Option<Profile>): (Client, Reply) {
    if c.session.Some? && id in c.session.value.pending then
      var session := c.session.value.Consume(id).0;
      var (advanced, next) := if s.fml2.Some? then session.Take(s.fml2.value) else (session, None);
      if next.Some? then
        (c.(session := Some(advanced)), Queued([QueryFor(next.value.0, next.value.1)]))
      else
        var c := c.(session := None);
        if c.profile.Some? then FireLoginSuccess([], c, s, c.profile.value) else (c, Refused(false))
    else if s.modernForwarding && id == c.velocityId then
      if proxied.Some? then FireLoginSuccess([], c, s, proxied.value)
      else (c.(kick := Some(ProxyRequired)), Queued([]))
    else (c, Queued([]))
  }

  method HandleCustomQueryAnswer(client: ClientState, s: Server, id: int, proxied: Option<Profile>)
    returns (reply: Reply)
    modifies client, client.forgeSession
    ensures client.forgeSession == old(client.forgeSession) || client.forgeSession == null
    ensures (client.View(), reply) == OnCustomQueryAnswer(old(client.View()), s, id, proxied)
  {
    if client.forgeSession != null {
      ghost var before := client.forgeSession.View();
      var stepIndex := client.forgeSession.ConsumeResponse(id);
      if stepIndex.Some? {
        if s.fml2.Some? {
          var batch, advanced := EnqueueNextForgeStep([], client.forgeSession, s.fml2.value);
          if advanced {
            assert batch == [batch[0]];
            return Queued(batch);
          }
        }
        client.FinishForgeReplay();
        if client.gameProfile.None? {
          return Refused(false);
        }
        reply := SendLoginSuccess([], client, s, client.gameProfile.value);
        return;
      }
      assert before.pending - {id} == before.pending;
    }
    if s.modernForwarding && id == client.messageId {
      if proxied.Some? {
        reply := SendLoginSuccess([], client, s, proxied.value);
        return;
      }
      client.kickMessage := Some(ProxyRequired);
    }
    reply := Queued([]);
  }

  // ---- Configuration ----------------------------------------------------------------------------

  function ConfigurationPackets(version: int, s: Server): Reply {
    var b := When(When([Brand], version >= V1_20_5, KnownPacks), version >= V1_21_6, UpdateTags);
    if version >= V1_21_6 && !s.finds(version, TaggedRegistries) then Refused(false)
    else if !s.finds(version, if version >= V1_20_5 then RegistryEntries else RegistryCodec) then Refused(false)
    else Queued(b + Copies(RegistryData, if version >= V1_20_5 then s.registries(version) else 1)
                + [FinishConfiguration])
  }

  function OnLoginAcknowledged(c: Client, s: Server): (Client, Reply) {
    if SupportsConfiguration(c.version) then (c.(state := Configuration), ConfigurationPackets(c.version, s))
    else (c, Refused(true))
  }

  method HandleLoginAcknowledged(client: ClientState, s: Server) returns (reply: Reply)
    modifies client
    ensures client.forgeSession == old(client.forgeSession)
    ensures (client.View(), reply) == OnLoginAcknowledged(old(client.View()), s)
  {
    var version := client.protocolVersion;
    if !SupportsConfiguration(version) {
      return Refused(true);
    }
    client.state := Configuration;
    var b := [Brand];
    if version >= V1_20_5 {
      b := b + [KnownPacks];
    }
    if version >= V1_21_6 {
      if !s.finds(version, TaggedRegistries) {
        return Refused(false);
      }
      b := b + [UpdateTags];
    }
    if version >= V1_20_5 {
      if !s.finds(version, RegistryEntries) {
        return Refused(false);
      }
      b := b + Copies(RegistryData, s.registries(version));
    } else {
      if !s.finds(version, RegistryCodec) {
        return Refused(false);
      }
      assert Copies(RegistryData, 1) == [RegistryData];
      b := b + [RegistryData];
    }
    reply := Queued(b + [FinishConfiguration]);
  }

  function OnAcknowledgeConfiguration(c: Client, s: Server): (Client, Reply) {
    var reply := PlayPackets([], c, s);
    (if reply.Queued? then c.InPlay() else c, reply)
  }

  // ---- Play -------------------------------------------------------------------------------------

  function OnMove(c: Client, s: Server, fell: bool): Reply {
    Queued(if fell then When([PlayerPosition], s.teleportMessage, MessagePacket(c.version)) else [])
  }

  function OnChat(c: Client, command: Option<Command>): Reply {
    match command
    case None => Queued([])
    case Some(Spawn) => Queued([PlayerPosition])
    case Some(TransferTo) => Queued(if c.version >= V1_20_5 then [TransferPacket] else [])
    case Some(_) => Queued([PlayerAbilities])
  }

  // ---- Dispatch ---------------------------------------------------------------------------------

  function OnPacket(c: Client, s: Server, p: Serverbound, nonce: int): (Client, Reply) {
    match p
    case Intention(protocol, nextState, marker, forwarding) =>
      OnIntention(c, s, protocol, nextState, marker, forwarding)
    case StatusRequest => (c, Queued([StatusResponse]))
    case PingRequest => (c, Queued([PongResponse]))
    case LoginStart(login) => OnLoginStart(c, s, login, nonce)
    case CustomQueryAnswer(id, proxied) => OnCustomQueryAnswer(c, s, id, proxied)
    case LoginAcknowledged => OnLoginAcknowledged(c, s)
    case AcknowledgeConfiguration => OnAcknowledgeConfiguration(c, s)
    case ConfigurationPluginMessage => (c, Queued([]))
    case MovePlayer(fell) => (c, OnMove(c, s, fell))
    case Chat(command) => (c, OnChat(c, command))
    case AbilitiesChanged => (c, Queued([]))
  }

  method HandlePacket(client: ClientState, s: Server, p: Serverbound, nonce: int) returns (reply: Reply)
    modifies client, client.forgeSession
    ensures client.forgeSession == old(client.forgeSession) || client.forgeSession == null || fresh(client.forgeSession)
    ensures (client.View(), reply) == OnPacket(old(client.View()), s, p, nonce)
  {
    match p {
      case Intention(protocol, nextState, marker, forwarding) =>
        reply := HandleIntention(client, s, protocol, nextState, marker, forwarding);
      case StatusRequest => reply := Queued([StatusResponse]);
      case PingRequest => reply := Queued([PongResponse]);
      case LoginStart(login) => reply := HandleLoginStart(client, s, login, nonce);
      case CustomQueryAnswer(id, proxied) => reply := HandleCustomQueryAnswer(client, s, id, proxied);
      case LoginAcknowledged => reply := HandleLoginAcknowledged(client, s);
      case AcknowledgeConfiguration => reply := SendPlayPackets([], client, s);
      case ConfigurationPluginMessage => reply := Queued([]);
      case MovePlayer(fell) => reply := OnMove(client.View(), s, fell);
      case Chat(command) => reply := OnChat(client.View(), command);
      case AbilitiesChanged => reply := Queued([]);
    }
  }
}
