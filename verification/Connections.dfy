/** One connection from accept to close: what it reads, what it writes, and in which order. */
module Connections {
  import opened Prelude
  import opened Packets
  import opened ClientStates
  import opened Handlers

  // A packet on the wire, and the compression it was framed with.
  datatype Sent = Sent(packet: Clientbound, compression: Option<nat>)

  // How many more writes succeed, if not all of them, and whether the failing one loses the connection.
  datatype Link = Link(writes: Option<nat>, fatal: bool) {
    predicate Carries(n: nat) { writes.None? || n <= writes.value }
  }

  // What wakes a connection up.
  datatype Event =
    | Unreadable
    | Lost
    | Received(packet: Serverbound, nonce: int, link: Link)
    | KeepAliveTick(link: Link)
    | ActionBarTick(link: Link)

  datatype Connection = Connection(
    client: Client,
    sent: seq<Sent>,
    compression: Option<nat>,
    wasInPlay: bool,
    actionBar: bool,
    open: bool
  )

  const ACCEPTED := Connection(FRESH, [], None, false, false, true)

  // ---- Writing ----------------------------------------------------------------------------------

  function Write(c: Connection, s: Server, p: Clientbound): Connection {
    c.(sent := c.sent + [Sent(p, c.compression)],
       compression := if p.SetCompression? && s.compression.Some? then s.compression else c.compression)
  }

  function WriteAll(c: Connection, s: Server, ps: seq<Clientbound>): Connection {
    if ps == [] then c else Write(WriteAll(c, s, ps[..|ps| - 1]), s, ps[|ps| - 1])
  }

  // The packets that get through before a write fails.
  function Carried(ps: seq<Clientbound>, link: Link): seq<Clientbound> {
    if link.Carries(|ps|) then ps else ps[..link.writes.value]
  }

  function WriteBatch(c: Connection, s: Server, ps: seq<Clientbound>, link: Link): Connection {
    var c := WriteAll(c, s, Carried(ps, link));
    if link.Carries(|ps|) then c else c.(open := !link.fatal)
  }

  // ---- Steps ------------------------------------------------------------------------------------

  function DisconnectPacket(state: State): Option<Clientbound> {
    match state
    case Login => Some(LoginDisconnect)
    case Configuration => Some(ConfigurationDisconnect)
    case Play => Some(PlayDisconnect)
    case _ => None
  }

  function Kick(c: Connection, s: Server, carried: bool): Connection {
    var p := DisconnectPacket(c.client.state);
    (if p.Some? && carried then Write(c, s, p.value) else c).(open := false)
  }

  function Settle(c: Connection, s: Server, entered: bool): Connection {
    c.(client := c.client.(keepAlive := if c.client.keepAlive.ShouldEnable? then Enabled else c.client.keepAlive),
       actionBar := c.actionBar || (entered && c.client.version >= V1_8 && s.actionBar))
  }

  predicate Enters(c: Connection) { !c.wasInPlay && c.client.state == Play }

  // What follows a handler's packets, if all of them got through.
  function Conclude(c: Connection, s: Server, entered: bool, carried: bool, room: bool): Connection {
    if !carried then c else if c.client.kick.Some? then Kick(c, s, room) else Settle(c, s, entered)
  }

  function Deliver(c: Connection, s: Server, batch: seq<Clientbound>, link: Link): Connection {
    Conclude(WriteBatch(c.(wasInPlay := c.wasInPlay || Enters(c)), s, batch, link), s, Enters(c),
             link.Carries(|batch|), link.Carries(|batch| + 1))
  }

  function Process(c: Connection, s: Server, p: Serverbound, nonce: int, link: Link): Connection {
    if p.Home() != c.client.state then c
    else
      var (client, reply) := OnPacket(c.client, s, p, nonce);
      match reply
      case Refused(fatal) => c.(client := client, open := !fatal)
      case Queued(batch) => Deliver(c.(client := client), s, batch, link)
  }

  function ActionBarBatch(c: Connection, s: Server): seq<Clientbound> {
    if s.actionBar && c.client.version >= V1_8 then [ActionBarPacket(c.client.version)] else []
  }

  function React(c: Connection, s: Server, e: Event): Connection {
    if !c.open then c
    else match e
      case Unreadable => c
      case Lost => c.(open := false)
      case Received(p, nonce, link) => Process(c, s, p, nonce, link)
      case KeepAliveTick(link) =>
        if c.client.keepAlive == Enabled && c.client.state == Play then WriteBatch(c, s, [KeepAlive], link) else c
      case ActionBarTick(link) =>
        if c.actionBar && c.client.state == Play then WriteBatch(c, s, ActionBarBatch(c, s), link) else c
  }

  function Run(s: Server, events: seq<Event>): Connection {
    if events == [] then ACCEPTED else React(Run(s, events[..|events| - 1]), s, events[|events| - 1])
  }

  // ---- The task of a connection -----------------------------------------------------------------

  class ClientData {
    const client: ClientState
    var sent: seq<Sent>
    var compression: Option<nat>
    var wasInPlay: bool
    var actionBar: bool
    var open: bool

    function View(): Connection
      reads this, client, client.forgeSession
    {
      Connection(client.View(), sent, compression, wasInPlay, actionBar, open)
    }

    constructor ()
      ensures View() == ACCEPTED && fresh(client) && client.forgeSession == null
    {
      client := new ClientState();
      sent, compression, wasInPlay, actionBar, open := [], None, false, false, true;
    }

    method WritePacket(s: Server, p: Clientbound)
      modifies this
      ensures View() == Write(old(View()), s, p)
    {
      sent := sent + [Sent(p, compression)];
      if p.SetCompression? && s.compression.Some? {
        compression := s.compression;
      }
    }

    method WritePackets(s: Server, batch: seq<Clientbound>, link: Link) returns (ok: bool)
      modifies this
      ensures ok == link.Carries(|batch|)
      ensures View() == WriteBatch(old(View()), s, batch, link)
    {
      for i := 0 to |batch|
        invariant link.Carries(i) && View() == WriteAll(old(View()), s, batch[..i])
      {
        if !link.Carries(i + 1) {
          assert Carried(batch, link) == batch[..i];
          open := !link.fatal;
          return false;
        }
        assert batch[..i + 1][..i] == batch[..i];
        WritePacket(s, batch[i]);
      }
      assert batch[..|batch|] == batch;
      ok := true;
    }

    method KickClient(s: Server, carried: bool)
      modifies this
      ensures View() == Kick(old(View()), s, carried)
    {
      var p := DisconnectPacket(client.state);
      if p.Some? && carried {
        WritePacket(s, p.value);
      }
      open := false;
    }

    // A client that is to be kicked is; any other has what play needs turned on.
    method AfterBatch(s: Server, entered: bool, room: bool)
      modifies this, client
      ensures client.forgeSession == old(client.forgeSession)
      ensures View() == Conclude(old(View()), s, entered, true, room)
    {
      if client.kickMessage.Some? {
        KickClient(s, room);
        return;
      }
      client.SetKeepAliveEnabled();
      if entered && client.protocolVersion >= V1_8 && s.actionBar {
        actionBar := true;
      }
    }

    method DeliverBatch(s: Server, batch: seq<Clientbound>, link: Link)
      modifies this, client
      ensures client.forgeSession == old(client.forgeSession)
      ensures View() == Deliver(old(View()), s, batch, link)
    {
      var entered := !wasInPlay && client.state == Play;
      if entered {
        wasInPlay := true;
      }
      var ok := WritePackets(s, batch, link);
      if ok {
        AfterBatch(s, entered, link.Carries(|batch| + 1));
      }
    }

    method ProcessPacket(s: Server, p: Serverbound, nonce: int, link: Link)
      modifies this, client, client.forgeSession
      ensures client.forgeSession == old(client.forgeSession)
              || client.forgeSession == null || fresh(client.forgeSession)
      ensures View() == Process(old(View()), s, p, nonce, link)
    {
      assert client.state == client.View().state;
      hide OnPacket, Deliver, ClientState.View;
      if p.Home() != client.state {
        return;
      }
      var reply := HandlePacket(client, s, p, nonce);
      match reply {
        case Refused(fatal) => open := !fatal;
        case Queued(batch) => DeliverBatch(s, batch, link);
      }
    }

    method SendKeepAlive(s: Server, link: Link)
      requires open && client.keepAliveEnabled == Enabled
      modifies this
      ensures View() == React(old(View()), s, KeepAliveTick(link))
    {
      if client.state == Play {
        var _ := WritePackets(s, [KeepAlive], link);
      }
    }

    method SendActionBar(s: Server, link: Link)
      requires open && actionBar
      modifies this
      ensures View() == React(old(View()), s, ActionBarTick(link))
    {
      if client.state != Play || !s.actionBar || client.protocolVersion < V1_8 {
        return;
      }
      var _ := WritePackets(s, [ActionBarPacket(client.protocolVersion)], link);
    }
  }

  // Serves one connection until it closes or nothing more happens.
  method HandleClient(s: Server, events: seq<Event>) returns (data: ClientData)
    ensures data.View() == Run(s, events)
  {
    data := new ClientData();
    for i := 0 to |events|
      invariant fresh(data) && fresh(data.client)
                && (data.client.forgeSession != null ==> fresh(data.client.forgeSession))
      invariant data.View() == Run(s, events[..i])
    {
      assert events[..i + 1][..i] == events[..i];
      if data.open {
        match events[i] {
          case Unreadable =>
          case Lost => data.open := false;
          case Received(p, nonce, link) => data.ProcessPacket(s, p, nonce, link);
          case KeepAliveTick(link) =>
            if data.client.keepAliveEnabled == Enabled {
              data.SendKeepAlive(s, link);
            }
          case ActionBarTick(link) =>
            if data.actionBar {
              data.SendActionBar(s, link);
            }
        }
      }
    }
    assert events[..|events|] == events;
  }
}
