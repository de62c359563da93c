/** What the server remembers about one connection. */
module ClientStates {
  import opened Prelude
  import opened ForgeReplay
  import opened Packets

  datatype KeepAliveStatus = Disabled | ShouldEnable | Enabled

  datatype KickReason = ProxyRequired | ModernForwardingNotSupported

  datatype Client = Client(
    state: State,
    version: int,
    kick: Option<KickReason>,
    velocityId: int,
    profile: Option<Profile>,
    keepAlive: KeepAliveStatus,
    forgeKind: ForgeKind,
    session: Option<Session>
  ) {
    // A profile that is already there only takes the new name.
    function WithProfile(p: Profile): Client {
      this.(profile := Some(if profile.Some? then profile.value.(name := p.name) else p))
    }

    function InPlay(): Client {
      this.(state := Play, keepAlive := if keepAlive.Disabled? then ShouldEnable else keepAlive)
    }
  }

  const FRESH := Client(Handshake, ANY, None, -1, None, Disabled, Vanilla, None)

  class ClientState {
    var state: State
    var protocolVersion: int
    var kickMessage: Option<KickReason>
    var messageId: int
    var gameProfile: Option<Profile>
    var keepAliveEnabled: KeepAliveStatus
    var forgeKind: ForgeKind
    var forgeSession: Fml2ReplaySession?

    function View(): Client
      reads this, forgeSession
    {
      Client(state, protocolVersion, kickMessage, messageId, gameProfile, keepAliveEnabled, forgeKind,
             if forgeSession == null then None else Some(forgeSession.View()))
    }

    constructor ()
      ensures View() == FRESH && forgeSession == null
    {
      state, protocolVersion, kickMessage, messageId := Handshake, ANY, None, -1;
      gameProfile, keepAliveEnabled, forgeKind, forgeSession := None, Disabled, Vanilla, null;
    }

    method SetGameProfile(profile: Profile)
      modifies `gameProfile
      ensures View() == old(View()).WithProfile(profile)
    {
      if gameProfile.Some? {
        gameProfile := Some(gameProfile.value.(name := profile.name));
      } else {
        gameProfile := Some(profile);
      }
    }

    method SetKeepAliveShouldEnable()
      modifies `keepAliveEnabled
      ensures keepAliveEnabled == if old(keepAliveEnabled).Disabled? then ShouldEnable else old(keepAliveEnabled)
    {
      if keepAliveEnabled == Disabled {
        keepAliveEnabled := ShouldEnable;
      }
    }

    method SetKeepAliveEnabled()
      modifies `keepAliveEnabled
      ensures keepAliveEnabled == if old(keepAliveEnabled).ShouldEnable? then Enabled else old(keepAliveEnabled)
    {
      if keepAliveEnabled == ShouldEnable {
        keepAliveEnabled := Enabled;
      }
    }

    method StartForgeReplay()
      modifies `forgeSession
      ensures forgeSession != null && fresh(forgeSession)
      ensures View() == old(View()).(session := Some(Session(0, 0, map[])))
    {
      forgeSession := new Fml2ReplaySession();
    }

    method FinishForgeReplay()
      modifies `forgeSession
      ensures forgeSession == null && View() == old(View()).(session := None)
    {
      forgeSession := null;
    }
  }
}
