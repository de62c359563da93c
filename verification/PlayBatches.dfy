/** What a client is sent on its way into play, packet by packet, with the protocol numbers of the versions written
    out. */
module PlayBatches {
  import opened Prelude
  import opened Packets
  import opened ClientStates
  import opened Handlers

  // ---- Tables -----------------------------------------------------------------------------------

  function If(condition: bool, p: Clientbound): seq<Clientbound> { if condition then [p] else [] }

  // The join itself: 1.19 is 759, 1.13 is 393 and 1.20 is 763.
  function JoinTable(v: int, s: Server): seq<Clientbound> {
    [JoinGame, PlayerAbilities] + If(v >= 759, DefaultSpawnPosition) + [PlayerPosition]
    + (If(v >= 393, Commands) + If(393 <= v <= 763, PlayBrand))
    + (If(s.welcome, if v >= 759 then SystemChat else LegacyChat) + [UpdateTime])
  }

  // The action bar and the skin, from 1.8 (47) on; 1.17 is 755 and 1.11 is 315.
  function SkinTable(v: int, uuid: nat, s: Server): seq<Clientbound> {
    If(s.actionBar, if v >= 755 then ActionBarText else if v >= 315 then LegacySetTitle else LegacyChat)
    + (If(uuid != 0, PlayerInfo) + [EntityMetadata])
  }

  // Titles are one packet that tells how, and one for each text; before 1.17 they share one kind of packet.
  function TitleTable(v: int, title: bool, subtitle: bool): seq<Clientbound> {
    if !title && !subtitle then []
    else if v >= 755 then [TitlesAnimation] + If(title, TitleText) + If(subtitle, SubtitleText)
    else [LegacySetTitle] + If(title, LegacySetTitle) + If(subtitle, LegacySetTitle)
  }

  function ListTable(v: int, s: Server): seq<Clientbound> {
    If(s.tabList, TabList)
    + TitleTable(v, s.title == Some(TitleOnly) || s.title == Some(Both),
                 s.title == Some(SubtitleOnly) || s.title == Some(Both))
    + If(v >= 107 && s.bossBar, BossBar)
  }

  // Chunks, from 1.16 (735) on; 1.20.3 is 765.
  function ChunkTable(v: int, s: Server): seq<Clientbound> {
    if v < 735 then [] else If(v >= 765, GameEvent) + If(v >= 759, CenterChunk) + Copies(ChunkData, s.chunks)
  }

  function Uuid(c: Client): nat { if c.profile.Some? then c.profile.value.uuid else 0 }

  function PlayTable(c: Client, s: Server): seq<Clientbound> {
    JoinTable(c.version, s)
    + (if c.version >= 47 then SkinTable(c.version, Uuid(c), s) + ListTable(c.version, s) else [])
    + ChunkTable(c.version, s)
  }

  // ---- The batch --------------------------------------------------------------------------------

  lemma JoinIsListed(b: seq<Clientbound>, v: int, s: Server)
    ensures JoinPackets(b, v, s) == b + JoinTable(v, s)
  {
    var spawn := [JoinGame, PlayerAbilities] + If(v >= 759, DefaultSpawnPosition) + [PlayerPosition];
    assert SpawnPackets(b, v) == b + spawn;
    hide SpawnPackets;
    var brand := If(v >= 393, Commands) + If(393 <= v <= 763, PlayBrand);
    assert When(When(SpawnPackets(b, v), v >= V1_13, Commands), V1_13 <= v <= V1_20, PlayBrand) == b + (spawn + brand);
    hide If;
    assert JoinTable(v, s) == spawn + brand + (If(s.welcome, MessagePacket(v)) + [UpdateTime]);
    EndOfJoin(b + (spawn + brand), v, s.welcome);
  }

  lemma EndOfJoin(b: seq<Clientbound>, v: int, welcome: bool)
    ensures When(b, welcome, MessagePacket(v)) + [UpdateTime] == b + (If(welcome, MessagePacket(v)) + [UpdateTime])
  {
  }

  lemma SkinIsListed(b: seq<Clientbound>, c: Client, s: Server)
    ensures SkinPackets(b, c, s) == b + SkinTable(c.version, Uuid(c), s)
  {
  }

  lemma TitleIsListed(v: int, s: Server)
    ensures TitlePackets(s.title, v) == TitleTable(v, s.title == Some(TitleOnly) || s.title == Some(Both),
                                                   s.title == Some(SubtitleOnly) || s.title == Some(Both))
  {
  }

  lemma ListIsListed(b: seq<Clientbound>, v: int, s: Server)
    ensures ListPackets(b, v, s) == b + ListTable(v, s)
  {
    TitleIsListed(v, s);
    hide TitlePackets, TitleTable;
  }

  lemma ChunksAreListed(b: seq<Clientbound>, v: int, s: Server)
    requires ChunkPackets(b, v, s).Queued?
    ensures ChunkPackets(b, v, s).batch == b + ChunkTable(v, s)
  {
  }

  // A fresh player is sent exactly these packets, in this order.
  lemma PlayIsListed(b: seq<Clientbound>, c: Client, s: Server)
    requires PlayPackets(b, c, s).Queued?
    ensures PlayPackets(b, c, s).batch == b + PlayTable(c, s)
  {
    hide JoinPackets, SkinPackets, ListPackets, ChunkPackets, JoinTable, SkinTable, ListTable, ChunkTable;
    var join := JoinPackets(b, c.version, s);
    var overlay := OverlayPackets(join, c, s);
    JoinIsListed(b, c.version, s);
    SkinIsListed(join, c, s);
    ListIsListed(SkinPackets(join, c, s), c.version, s);
    ChunksAreListed(overlay, c.version, s);
  }

  // ---- Who can enter play -----------------------------------------------------------------------

  // The look-ups the join packet of a version needs.
  predicate JoinFinds(v: int, s: Server) {
    && (735 <= v <= 763 ==> s.finds(v, RegistryCodec))
    && (751 <= v <= 758 ==> s.finds(v, DimensionCodec))
    && (v >= 766 ==> s.finds(v, DimensionInfo))
  }

  lemma OldVersions(v: int)
    ensures IsBefore113(v) ==> 4 <= v < 393
    ensures IsBefore113(4)
  {
  }

  lemma MiddleVersions(v: int)
    ensures IsFrom113(v) ==> 393 <= v <= 578 || v == 735 || v == 736 || 751 <= v <= 758
  {
  }

  lemma RecentVersions(v: int)
    ensures 753 <= v <= 775 ==> IsVersion(v)
  {
  }

  lemma KnownVersions(v: int)
    requires IsVersion(v)
    ensures v == ANY || v == UNSUPPORTED || 4 <= v <= 578 || v == 735 || v == 736 || 751 <= v <= 775
    ensures IsVersion(4) && IsVersion(775)
  {
    hide IsBefore113, IsFrom113;
    OldVersions(v);
    MiddleVersions(v);
  }

  // Every version a client can speak can be joined, if its look-ups succeed; those that fail do not end the connection.
  lemma JoinSucceedsWhen(v: int, s: Server)
    requires IsVersion(v)
    ensures JoinError(v, s) ==
              if v == ANY || v == UNSUPPORTED then Some(true) else if JoinFinds(v, s) then None else Some(false)
  {
    KnownVersions(v);
  }

  lemma PlayIsEnteredWhen(b: seq<Clientbound>, c: Client, s: Server)
    requires IsVersion(c.version)
    ensures PlayPackets(b, c, s).Queued? <==>
              && c.version >= 4 && JoinFinds(c.version, s)
              && (c.version >= 735 ==> s.spawnChunk.Some? && s.finds(c.version, DimensionInfo))
    ensures PlayPackets(b, c, s) == Refused(true) <==>
              c.version < 4 || (JoinFinds(c.version, s) && c.version >= 735 && s.spawnChunk.None?)
  {
    hide JoinPackets, OverlayPackets;
    JoinSucceedsWhen(c.version, s);
  }

  // ---- The end of login -------------------------------------------------------------------------

  // Login ends with the packet of the version, 1.21.2 being 768, after an announcement of compression from 1.8 (47) on.
  lemma SuccessIsListed(b: seq<Clientbound>, v: int, s: Server, p: Profile)
    ensures SuccessPackets(b, v, s, p) ==
              b + (if v >= 47 && s.compression.Some? then [SetCompression(s.compression.value)] else [])
              + [if v < 768 then GameProfile(p) else LoginSuccess(p)]
  {
    assert b + [] == b;
  }

  // Of a profile that is already there the id stays, and the name is the new one.
  lemma ProfileIsNamed(c: Client, p: Profile)
    ensures var after := c.WithProfile(p).profile;
            && after.Some? && after.value.name == p.name
            && after.value.uuid == if c.profile.Some? then c.profile.value.uuid else p.uuid
    ensures c.WithProfile(p) == c.(profile := c.WithProfile(p).profile)
  {
  }

  // A login that succeeds leads into play at once before 1.20.2 (764), and otherwise waits for the client. It fails
  // only if the compression threshold is out of range, or play cannot be entered.
  lemma LoginSucceedsWhen(c: Client, s: Server, p: Profile)
    ensures var (after, reply) := FireLoginSuccess([], c, s, p);
            var success := SuccessPackets([], c.version, s, p);
            if c.version >= 47 && s.compression.Some? && s.compression.value > 0x7FFF_FFFF
            then (after, reply) == (c, Refused(false))
            else if c.version >= 764 then (after, reply) == (c.WithProfile(p), Queued(success))
            else reply == PlayPackets(success, c.WithProfile(p), s)
                 && after == if reply.Queued? then c.WithProfile(p).InPlay() else c.WithProfile(p)
  {
    hide SuccessPackets, PlayPackets;
  }

  // ---- Configuration ----------------------------------------------------------------------------

  // Configuration, from 1.20.2 (764) on, is begun by an acknowledgement; a look-up that fails does not end the
  // connection, an acknowledgement from an older version does. 1.20.5 is 766 and 1.21.6 is 771.
  lemma ConfigurationIsBegunWhen(c: Client, s: Server)
    ensures var (after, reply) := OnLoginAcknowledged(c, s);
            if c.version < 764 then (after, reply) == (c, Refused(true))
            else && after == c.(state := Configuration)
                 && (reply.Queued? <==>
                       && (c.version >= 771 ==> s.finds(c.version, TaggedRegistries))
                       && s.finds(c.version, if c.version >= 766 then RegistryEntries else RegistryCodec))
                 && (reply.Refused? ==> !reply.fatal)
  {
  }

  // ---- The handshake ----------------------------------------------------------------------------

  // A client speaks the version it names if the server knows that; else, if it is let in at all, the oldest or the
  // newest one.
  lemma VersionIsSpoken(protocol: int, allowUnsupported: bool)
    ensures var v := SpokenVersion(protocol, allowUnsupported);
            && IsVersion(v) && (753 <= protocol <= 775 ==> v == protocol)
            && (IsVersion(protocol) ==> v == protocol)
            && (!IsVersion(protocol) && !allowUnsupported ==> v == UNSUPPORTED)
            && (!IsVersion(protocol) && allowUnsupported ==>
                  if protocol < 4 then (forall w :: IsVersion(w) && w > 0 ==> v <= w) && v > 0
                  else forall w :: IsVersion(w) ==> w <= v)
  {
    KnownVersions(UNSUPPORTED);
    RecentVersions(protocol);
    forall w | IsVersion(w)
      ensures w <= 775 && (w > 0 ==> w >= 4)
    {
      KnownVersions(w);
    }
  }

  // A status request is 1, a login 2, and a transfer 3, which is a login if the server takes transfers.
  predicate LogsInWith(nextState: int, s: Server) { nextState == 2 || (nextState == 3 && s.acceptsTransfers) }

  // What becomes of a fresh client with its handshake.
  lemma IntentionLeads(s: Server, protocol: int, nextState: int, marker: ForgeKind, forwarding: Forwarding)
    ensures var (c, reply) := OnIntention(FRESH, s, protocol, nextState, marker, forwarding);
            && c.version == SpokenVersion(protocol, s.allowUnsupported)
            && (c.state == Status <==> nextState == 1) && (c.state == Login <==> LogsInWith(nextState, s))
            && (c.state == Transfer <==> nextState == 3 && !s.acceptsTransfers)
            && (reply == Queued([]) || reply == Refused(true))
            && (reply.Queued? <==>
                  || (nextState == 1 && s.repliesToStatus)
                  || (LogsInWith(nextState, s) && c.version != UNSUPPORTED && !forwarding.Invalid?))
            && (c.kick == Some(ProxyRequired) <==>
                  LogsInWith(nextState, s) && c.version != UNSUPPORTED && forwarding.Invalid?)
            && (LogsInWith(nextState, s) ==> c.forgeKind == marker)
            && (reply.Queued? && nextState != 1 ==>
                  c.profile == if forwarding.Anonymous? then Some(forwarding.profile) else None)
  {
    hide SpokenVersion;
  }

  // A status request is answered with the status, and a ping with a pong; and there is nothing to say to a plugin
  // message or to a change of abilities.
  lemma RequestsAreAnswered(c: Client, s: Server, nonce: int)
    ensures OnPacket(c, s, StatusRequest, nonce) == (c, Queued([StatusResponse]))
    ensures OnPacket(c, s, PingRequest, nonce) == (c, Queued([PongResponse]))
    ensures OnPacket(c, s, ConfigurationPluginMessage, nonce) == (c, Queued([]))
    ensures OnPacket(c, s, AbilitiesChanged, nonce) == (c, Queued([]))
  {
  }

  // ---- In play ----------------------------------------------------------------------------------

  // A player who falls is put back, and told so if there is a message; one who does not hears nothing.
  lemma MoveIsAnswered(c: Client, s: Server, fell: bool, nonce: int)
    ensures OnPacket(c, s, MovePlayer(fell), nonce) == (c, OnMove(c, s, fell))
    ensures OnMove(c, s, fell) == Queued(
              if !fell then []
              else [PlayerPosition] + If(s.teleportMessage, if c.version >= 759 then SystemChat else LegacyChat))
  {
    assert [PlayerPosition] + [] == [PlayerPosition];
  }

  // Commands put a player back to the spawn, change abilities, or move on to another server, from 1.20.5 (766) on.
  lemma ChatIsAnswered(c: Client, s: Server, command: Option<Command>, nonce: int)
    ensures OnPacket(c, s, Chat(command), nonce) == (c, OnChat(c, command))
    ensures OnChat(c, command).Queued?
    ensures match command
            case Some(Spawn) => OnChat(c, command).batch == [PlayerPosition]
            case Some(TransferTo) => OnChat(c, command).batch == If(c.version >= 766, TransferPacket)
            case Some(_) => OnChat(c, command).batch == [PlayerAbilities]
            case None => OnChat(c, command).batch == []
  {
    hide OnLoginStart, OnCustomQueryAnswer, OnLoginAcknowledged, OnAcknowledgeConfiguration, OnIntention, OnMove;
  }
}
