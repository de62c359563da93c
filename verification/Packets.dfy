/** The packets of a connection, by the protocol state they belong to. */
module Packets {
  import opened Prelude
  import opened ForgeReplay

  datatype State = Handshake | Status | Login | Configuration | Play | Transfer

  datatype ForgeKind = Vanilla | Fml1 | Fml2 | Fml3

  datatype Profile = Profile(name: string, uuid: nat)

  // What proxy forwarding makes of the hostname a client asks for.
  datatype Forwarding = NoForwarding | Invalid | Anonymous(profile: Profile)

  datatype Command = Spawn | Fly | FlySpeed | TransferTo

  // Chat and commands both run a command, if the text holds one.
  datatype Serverbound =
    | Intention(protocol: int, nextState: int, marker: ForgeKind, forwarding: Forwarding)
    | StatusRequest
    | PingRequest
    | LoginStart(login: Profile)
    | LoginAcknowledged
    | CustomQueryAnswer(id: int, proxied: Option<Profile>)
    | AcknowledgeConfiguration
    | ConfigurationPluginMessage
    | MovePlayer(fell: bool)
    | Chat(command: Option<Command>)
    | AbilitiesChanged
  {
    function Home(): State {
      match this
      case Intention(_, _, _, _) => Handshake
      case StatusRequest => Status
      case PingRequest => Status
      case LoginStart(_) => Login
      case LoginAcknowledged => Login
      case CustomQueryAnswer(_, _) => Login
      case AcknowledgeConfiguration => Configuration
      case ConfigurationPluginMessage => Configuration
      case _ => Play
    }
  }

  datatype Clientbound =
    | StatusResponse
    | PongResponse
    | CustomQuery(messageId: int, channel: Identifier, data: seq<byte>)
    | SetCompression(threshold: nat)
    | LoginSuccess(profile: Profile)
    | GameProfile(profile: Profile)
    | LoginDisconnect
    | Brand
    | KnownPacks
    | UpdateTags
    | RegistryData
    | FinishConfiguration
    | ConfigurationDisconnect
    | JoinGame
    | PlayerAbilities
    | DefaultSpawnPosition
    | PlayerPosition
    | Commands
    | PlayBrand
    | SystemChat
    | LegacyChat
    | UpdateTime
    | ActionBarText
    | LegacySetTitle
    | PlayerInfo
    | EntityMetadata
    | TabList
    | TitlesAnimation
    | TitleText
    | SubtitleText
    | BossBar
    | GameEvent
    | CenterChunk
    | ChunkData
    | KeepAlive
    | TransferPacket
    | PlayDisconnect
  {
    function Home(): State {
      match this
      case StatusResponse => Status
      case PongResponse => Status
      case CustomQuery(_, _, _) => Login
      case SetCompression(_) => Login
      case LoginSuccess(_) => Login
      case GameProfile(_) => Login
      case LoginDisconnect => Login
      case Brand => Configuration
      case KnownPacks => Configuration
      case UpdateTags => Configuration
      case RegistryData => Configuration
      case FinishConfiguration => Configuration
      case ConfigurationDisconnect => Configuration
      case _ => Play
    }

    predicate EndsLogin() { LoginSuccess? || GameProfile? }
  }

  // How far along a connection is. A status ping is a line of its own.
  function Stage(s: State): nat {
    match s
    case Handshake => 0
    case Transfer => 0
    case Status => 0
    case Login => 1
    case Configuration => 2
    case Play => 3
  }

  // ---- Protocol versions ------------------------------------------------------------------------

  const ANY := -1
  const UNSUPPORTED := -2
  const V1_7_2 := 4
  const V1_8 := 47
  const V1_9 := 107
  const V1_11 := 315
  const V1_13 := 393
  const V1_16 := 735
  const V1_16_2 := 751
  const V1_17 := 755
  const V1_19 := 759
  const V1_20 := 763
  const V1_20_2 := 764
  const V1_20_3 := 765
  const V1_20_5 := 766
  const V1_21_2 := 768
  const V1_21_6 := 771
  const LATEST := 775

  // The protocol numbers the server knows.
  predicate IsVersion(v: int) { IsBefore113(v) || IsFrom113(v) || 759 <= v <= 775 || v == ANY || v == UNSUPPORTED }

  predicate IsBefore113(v: int) { v in {340, 338, 335, 316, 315, 210, 110, 109, 108, 107, 47, 5, 4} }

  predicate IsFrom113(v: int) {
    v in {758, 757, 756, 755, 754, 753, 751, 736, 735, 578, 575, 573, 498, 490, 485, 480, 477, 404, 401, 393}
  }

  predicate SupportsConfiguration(version: int) { version >= V1_20_2 }

  // The version a client is taken to speak, from the number in its handshake.
  function SpokenVersion(protocol: int, allowUnsupported: bool): int {
    if protocol == -1 then ANY
    else if IsVersion(protocol) then protocol
    else if !allowUnsupported then UNSUPPORTED
    else if protocol < V1_7_2 then V1_7_2
    else LATEST
  }
}
