/** What holds of every run of a connection. */
module ConnectionTraces {
  import opened Prelude
  import opened Packets
  import opened ClientStates
  import opened Handlers
  import opened Connections

  function Trace(sent: seq<Sent>): (ps: seq<Clientbound>)
    ensures |ps| == |sent| && forall i :: 0 <= i < |ps| ==> ps[i] == sent[i].packet
  {
    seq(|sent|, i requires 0 <= i < |sent| => sent[i].packet)
  }

  // ---- Stages -----------------------------------------------------------------------------------

  predicate Ordered(ps: seq<Clientbound>) {
    forall i, j :: 0 <= i < j < |ps| ==> Stage(ps[i].Home()) <= Stage(ps[j].Home())
  }

  // Packets a connection in this state may have sent, or may send on the way there from `from`.
  predicate Fit(p: Clientbound, from: nat, c: Client) {
    && (p.Home() == Status <==> c.state == Status)
    && from <= Stage(p.Home()) <= Stage(c.state)
    && (p.Home() == Configuration ==> SupportsConfiguration(c.version))
  }

  predicate AllFit(ps: seq<Clientbound>, from: nat, c: Client) {
    Ordered(ps) && forall i :: 0 <= i < |ps| ==> Fit(ps[i], from, c)
  }

  // How one packet may change the state of a connection.
  predicate Advances(before: Client, after: Client) {
    && (before.state != Handshake ==> after.state != Handshake && after.version == before.version)
    && Stage(before.state) <= Stage(after.state)
    && (before.state == Status ==> after.state == Status)
    && (after.state == Status ==> before.state == Status || before.state == Handshake)
    && (after.state == Configuration && before.state != Configuration ==>
          before.state == Login && SupportsConfiguration(after.version))
    && (after.state == Play && before.state != Play ==>
          before.state == if SupportsConfiguration(after.version) then Configuration else Login)
  }

  // A state reached without breaking the order of states.
  predicate Consistent(c: Client) { c.state == Configuration ==> SupportsConfiguration(c.version) }

  // c holds the packets of b, then others that all belong to one state.
  predicate Adds(b: seq<Clientbound>, c: seq<Clientbound>, home: State) {
    |b| <= |c| && c[..|b|] == b && forall i :: |b| <= i < |c| ==> c[i].Home() == home
  }

  lemma AddsAll(b: seq<Clientbound>, ps: seq<Clientbound>, home: State)
    requires forall i :: 0 <= i < |ps| ==> ps[i].Home() == home
    ensures Adds(b, b + ps, home)
  {
  }

  lemma AddsMore(a: seq<Clientbound>, b: seq<Clientbound>, c: seq<Clientbound>, home: State)
    requires Adds(a, b, home) && Adds(b, c, home)
    ensures Adds(a, c, home)
  {
  }

  lemma SpawnAdds(b: seq<Clientbound>, v: int)
    ensures |b| < |SpawnPackets(b, v)| && SpawnPackets(b, v)[..|b| + 1] == b + [JoinGame]
    ensures Adds(b, SpawnPackets(b, v), Play)
  {
  }

  lemma JoinAdds(b: seq<Clientbound>, v: int, s: Server)
    ensures Adds(b, JoinPackets(b, v, s), Play) && JoinPackets(b, v, s)[..|b| + 1] == b + [JoinGame]
  {
    hide SpawnPackets;
    var spawn, join := SpawnPackets(b, v), JoinPackets(b, v, s);
    SpawnAdds(b, v);
    var brand := When(When(spawn, v >= V1_13, Commands), V1_13 <= v <= V1_20, PlayBrand);
    SpawnContinues(b, spawn, brand);
    SpawnContinues(b, brand, join);
  }

  lemma SpawnContinues(b: seq<Clientbound>, spawn: seq<Clientbound>, join: seq<Clientbound>)
    requires Adds(b, spawn, Play) && Adds(spawn, join, Play) && |b| < |spawn| && spawn[..|b| + 1] == b + [JoinGame]
    ensures Adds(b, join, Play) && join[..|b| + 1] == b + [JoinGame]
  {
    AddsMore(b, spawn, join, Play);
    assert join[..|b| + 1] == join[..|spawn|][..|b| + 1];
  }

  lemma SkinAdds(b: seq<Clientbound>, c: Client, s: Server)
    ensures Adds(b, SkinPackets(b, c, s), Play)
  {
  }

  lemma ListAdds(b: seq<Clientbound>, v: int, s: Server)
    ensures Adds(b, ListPackets(b, v, s), Play)
  {
    var list := When(b, s.tabList, TabList);
    AddsAll(list, TitlePackets(s.title, v), Play);
    hide TitlePackets;
    AddsMore(b, list, list + TitlePackets(s.title, v), Play);
    AddsMore(b, list + TitlePackets(s.title, v), ListPackets(b, v, s), Play);
  }

  lemma OverlayAdds(b: seq<Clientbound>, c: Client, s: Server)
    ensures Adds(b, OverlayPackets(b, c, s), Play)
  {
    if c.version >= V1_8 {
      SkinAdds(b, c, s);
      ListAdds(SkinPackets(b, c, s), c.version, s);
      AddsMore(b, SkinPackets(b, c, s), OverlayPackets(b, c, s), Play);
    }
  }

  lemma ChunksAdd(b: seq<Clientbound>, v: int, s: Server)
    requires ChunkPackets(b, v, s).Queued?
    ensures Adds(b, ChunkPackets(b, v, s).batch, Play)
  {
  }

  // Entering play appends packets of that state, the join packet first.
  lemma PlayAdds(b: seq<Clientbound>, c: Client, s: Server)
    requires PlayPackets(b, c, s).Queued?
    ensures Adds(b, PlayPackets(b, c, s).batch, Play)
    ensures |b| < |PlayPackets(b, c, s).batch| && PlayPackets(b, c, s).batch[|b|] == JoinGame
  {
    var join := JoinPackets(b, c.version, s);
    var overlay := OverlayPackets(join, c, s);
    JoinAdds(b, c.version, s);
    OverlayAdds(join, c, s);
    ChunksAdd(overlay, c.version, s);
    AddsMore(b, join, overlay, Play);
    AddsMore(b, overlay, PlayPackets(b, c, s).batch, Play);
    assert PlayPackets(b, c, s).batch[|b|] == overlay[|b|] == join[|b|] == join[..|b| + 1][|b|];
  }

  // ---- Handlers ---------------------------------------------------------------------------------

  predicate Sound(before: Client, after: Client, reply: Reply) {
    Advances(before, after) && Consistent(after) && (reply.Queued? ==> AllFit(reply.batch, Stage(before.state), after))
  }

  lemma SuccessPacketsAreLogin(v: int, s: Server, p: Profile)
    ensures var b := SuccessPackets([], v, s, p); Adds([], b, Login) && b != [] && b[|b| - 1].EndsLogin()
  {
  }

  // Some packets of one state, then some of a later one.
  lemma AddsFit(b: seq<Clientbound>, ps: seq<Clientbound>, low: State, from: nat, c: Client)
    requires Adds([], b, low) && Adds(b, ps, c.state) && low != Status && c.state != Status && low != Configuration
    requires from <= Stage(low) <= Stage(c.state) && (c.state == Configuration ==> SupportsConfiguration(c.version))
    ensures AllFit(ps, from, c)
  {
  }

  lemma LoginSuccessIsSound(c: Client, s: Server, p: Profile)
    requires c.state == Login
    ensures var (after, reply) := FireLoginSuccess([], c, s, p); Sound(c, after, reply)
  {
    var (after, reply) := FireLoginSuccess([], c, s, p);
    var b := SuccessPackets([], c.version, s, p);
    SuccessPacketsAreLogin(c.version, s, p);
    if reply.Queued? {
      if SupportsConfiguration(c.version) {
        AddsAll(b, [], Login);
        AddsFit(b, b, Login, 1, after);
      } else {
        PlayAdds(b, c.WithProfile(p), s);
        AddsFit(b, reply.batch, Login, 1, after);
      }
    }
  }

  lemma ConfigurationAdds(version: int, s: Server)
    requires ConfigurationPackets(version, s).Queued?
    ensures Adds([], ConfigurationPackets(version, s).batch, Configuration)
  {
  }

  lemma AcknowledgedIsSound(c: Client, s: Server)
    requires c.state == Login
    ensures var (after, reply) := OnLoginAcknowledged(c, s); Sound(c, after, reply)
  {
    var (after, reply) := OnLoginAcknowledged(c, s);
    if reply.Queued? {
      ConfigurationAdds(c.version, s);
      AddsFit([], reply.batch, Login, 1, after);
    }
  }

  lemma AnswerIsSound(c: Client, s: Server, id: int, proxied: Option<Profile>)
    requires c.state == Login
    ensures var (after, reply) := OnCustomQueryAnswer(c, s, id, proxied); Sound(c, after, reply)
  {
    if c.profile.Some? {
      LoginSuccessIsSound(c.(session := None), s, c.profile.value);
    }
    if proxied.Some? {
      LoginSuccessIsSound(c, s, proxied.value);
    }
  }

  lemma LoginStartIsSound(c: Client, s: Server, login: Profile, nonce: int)
    requires c.state == Login
    ensures var (after, reply) := OnLoginStart(c, s, login, nonce); Sound(c, after, reply)
  {
    LoginSuccessIsSound(c, s, login);
  }

  lemma IntentionIsSound(c: Client, s: Server, p: Serverbound)
    requires c.state == Handshake && p.Intention?
    ensures var (after, reply) := OnPacket(c, s, p, 0); Sound(c, after, reply)
  {
  }

  lemma FinishIsSound(c: Client, s: Server)
    requires c.state == Configuration && Consistent(c)
    ensures var (after, reply) := OnAcknowledgeConfiguration(c, s); Sound(c, after, reply)
  {
    var (after, reply) := OnAcknowledgeConfiguration(c, s);
    if reply.Queued? {
      PlayAdds([], c, s);
      AddsFit([], reply.batch, Login, 0, after);
      assert AllFit(reply.batch, Stage(c.state), after);
    }
  }

  lemma MoveIsSound(c: Client, s: Server, fell: bool)
    requires c.state == Play
    ensures Sound(c, c, OnMove(c, s, fell))
  {
  }

  lemma ChatIsSound(c: Client, command: Option<Command>)
    requires c.state == Play
    ensures Sound(c, c, OnChat(c, command))
  {
  }

  // Whatever arrives in the state it belongs to, the answer keeps to the order of states.
  lemma PacketIsSound(c: Client, s: Server, p: Serverbound, nonce: int)
    requires p.Home() == c.state && Consistent(c)
    ensures var (after, reply) := OnPacket(c, s, p, nonce); Sound(c, after, reply)
  {
    match p
    case Intention(_, _, _, _) => IntentionIsSound(c, s, p);
    case LoginStart(login) => LoginStartIsSound(c, s, login, nonce);
    case LoginAcknowledged => AcknowledgedIsSound(c, s);
    case CustomQueryAnswer(id, proxied) => AnswerIsSound(c, s, id, proxied);
    case AcknowledgeConfiguration => FinishIsSound(c, s);
    case StatusRequest =>
    case PingRequest =>
    case ConfigurationPluginMessage =>
    case AbilitiesChanged =>
    case MovePlayer(fell) => MoveIsSound(c, s, fell);
    case Chat(command) => ChatIsSound(c, command);
  }

  // ---- Runs -------------------------------------------------------------------------------------

  predicate Orderly(c: Connection) {
    AllFit(Trace(c.sent), 0, c.client) && Consistent(c.client) && (c.wasInPlay <==> c.client.state == Play)
  }

  lemma {:induction false} WritesAppend(c: Connection, s: Server, ps: seq<Clientbound>)
    ensures Trace(WriteAll(c, s, ps).sent) == Trace(c.sent) + ps
    ensures var d := WriteAll(c, s, ps); d == c.(sent := d.sent, compression := d.compression)
  {
    if ps == [] {
    } else {
      var m := |ps| - 1;
      WritesAppend(c, s, ps[..m]);
      assert ps == ps[..m] + [ps[m]];
    }
  }

  lemma AppendFits(past: seq<Clientbound>, next: seq<Clientbound>, before: Client, after: Client)
    requires AllFit(past, 0, before) && AllFit(next, Stage(before.state), after) && Advances(before, after)
    ensures AllFit(past + next, 0, after)
  {
  }

  lemma WritingIsOrderly(c: Connection, s: Server, before: Client, ps: seq<Clientbound>, link: Link)
    requires AllFit(Trace(c.sent), 0, before) && AllFit(ps, Stage(before.state), c.client) && Advances(before, c.client)
    ensures var d := WriteBatch(c, s, ps, link);
            d == c.(sent := d.sent, compression := d.compression, open := d.open) && AllFit(Trace(d.sent), 0, c.client)
    ensures Trace(WriteBatch(c, s, ps, link).sent) == Trace(c.sent) + Carried(ps, link)
  {
    WritesAppend(c, s, Carried(ps, link));
    AppendFits(Trace(c.sent), Carried(ps, link), before, c.client);
  }

  lemma KickIsOrderly(c: Connection, s: Server, carried: bool)
    requires AllFit(Trace(c.sent), 0, c.client) && Consistent(c.client)
    ensures var d := Kick(c, s, carried);
            d.client == c.client && d.wasInPlay == c.wasInPlay && AllFit(Trace(d.sent), 0, c.client)
  {
    var p := DisconnectPacket(c.client.state);
    if p.Some? && carried {
      AppendFits(Trace(c.sent), [p.value], c.client, c.client);
      assert Trace(Write(c, s, p.value).sent) == Trace(c.sent) + [p.value];
    }
  }

  lemma ConclusionIsOrderly(c: Connection, s: Server, entered: bool, carried: bool, room: bool)
    requires Orderly(c)
    ensures var d := Conclude(c, s, entered, carried, room);
            Orderly(d) && d.client.state == c.client.state && d.client.version == c.client.version
  {
    KickIsOrderly(c, s, room);
    Refits(Trace(c.sent), c.client, Settle(c, s, entered).client);
  }

  lemma DeliveryIsOrderly(c: Connection, s: Server, before: Client, batch: seq<Clientbound>, link: Link)
    requires AllFit(Trace(c.sent), 0, before) && Sound(before, c.client, Queued(batch))
    requires c.wasInPlay <==> before.state == Play
    ensures var d := Deliver(c, s, batch, link);
            Orderly(d) && d.client.state == c.client.state && d.client.version == c.client.version
  {
    var c' := c.(wasInPlay := c.wasInPlay || Enters(c));
    WritingIsOrderly(c', s, before, batch, link);
    ConclusionIsOrderly(WriteBatch(c', s, batch, link), s, Enters(c), link.Carries(|batch|), link.Carries(|batch| + 1));
  }

  // What fits depends on the state and the version alone.
  lemma Refits(ps: seq<Clientbound>, before: Client, after: Client)
    requires AllFit(ps, 0, before) && after.state == before.state && after.version == before.version
    ensures AllFit(ps, 0, after)
  {
  }

  lemma ProcessIsOrderly(c: Connection, s: Server, p: Serverbound, nonce: int, link: Link)
    requires Orderly(c)
    ensures var d := Process(c, s, p, nonce, link); Orderly(d) && Advances(c.client, d.client)
  {
    if p.Home() == c.client.state {
      PacketIsSound(c.client, s, p, nonce);
      var (client, reply) := OnPacket(c.client, s, p, nonce);
      if reply.Queued? {
        DeliveryIsOrderly(c.(client := client), s, c.client, reply.batch, link);
      } else {
        AppendFits(Trace(c.sent), [], c.client, client);
        assert Trace(c.sent) + [] == Trace(c.sent);
        RefusedStaysOut(c.client, s, p, nonce);
      }
    }
  }

  // A refused packet does not lead into play.
  lemma RefusedStaysOut(c: Client, s: Server, p: Serverbound, nonce: int)
    requires p.Home() == c.state && OnPacket(c, s, p, nonce).1.Refused?
    ensures OnPacket(c, s, p, nonce).0.state != Play
  {
  }

  lemma ReactionIsOrderly(c: Connection, s: Server, e: Event)
    requires Orderly(c)
    ensures Orderly(React(c, s, e)) && Advances(c.client, React(c, s, e).client)
  {
    match e
    case Received(p, nonce, link) => ProcessIsOrderly(c, s, p, nonce, link);
    case KeepAliveTick(link) =>
      if c.client.state == Play {
        WritingIsOrderly(c, s, c.client, [KeepAlive], link);
      }
    case ActionBarTick(link) =>
      if c.client.state == Play {
        WritingIsOrderly(c, s, c.client, ActionBarBatch(c, s), link);
      }
    case _ =>
  }

  // At any time, a connection has sent its packets in the order of states and none from beyond its own.
  lemma {:induction false} RunIsOrderly(s: Server, events: seq<Event>)
    ensures Orderly(Run(s, events))
  {
    if events == [] {
    } else {
      var m := |events| - 1;
      RunIsOrderly(s, events[..m]);
      ReactionIsOrderly(Run(s, events[..m]), s, events[m]);
    }
  }

  // Login packets, then configuration packets, then play packets; a status ping is answered with nothing else.
  lemma TraceNeverGoesBack(s: Server, events: seq<Event>)
    ensures var ps := Trace(Run(s, events).sent);
            && (forall i, j :: 0 <= i < j < |ps| ==> Stage(ps[i].Home()) <= Stage(ps[j].Home()))
            && (forall i, j :: 0 <= i < |ps| && 0 <= j < |ps| && ps[i].Home() == Status ==> ps[j].Home() == Status)
            && (forall i :: 0 <= i < |ps| && ps[i].Home() == Configuration ==>
                  SupportsConfiguration(Run(s, events).client.version))
  {
    RunIsOrderly(s, events);
    var c := Run(s, events);
    assert forall i :: 0 <= i < |c.sent| ==> Fit(Trace(c.sent)[i], 0, c.client);
  }

  // After the handshake the version is fixed; no state is left for an earlier one, and play is never left.
  lemma {:induction false} LaterIsFurther(s: Server, events: seq<Event>, k: nat)
    requires k <= |events|
    ensures var before, after := Run(s, events[..k]).client, Run(s, events).client;
            && (before.state != Handshake ==> after.state != Handshake && after.version == before.version)
            && Stage(before.state) <= Stage(after.state)
            && (before.state == Status ==> after.state == Status)
  {
    if k == |events| {
      assert events[..k] == events;
    } else {
      var m := |events| - 1;
      LaterIsFurther(s, events[..m], k);
      assert events[..m][..k] == events[..k];
      RunIsOrderly(s, events[..m]);
      ReactionIsOrderly(Run(s, events[..m]), s, events[m]);
    }
  }

  // Configuration is entered from login by versions that have it, play from configuration by those and from login
  // by the others.
  lemma StatesAreEnteredInTurn(s: Server, events: seq<Event>, e: Event)
    ensures var before, after := Run(s, events).client, Run(s, events + [e]).client;
            && (after.state == Configuration && before.state != Configuration ==>
                  before.state == Login && SupportsConfiguration(after.version))
            && (after.state == Play && before.state != Play ==>
                  before.state == if SupportsConfiguration(after.version) then Configuration else Login)
  {
    assert (events + [e])[..|events|] == events;
    RunIsOrderly(s, events);
    ReactionIsOrderly(Run(s, events), s, e);
  }

  // ---- Kicks ------------------------------------------------------------------------------------

  lemma KickQueuesNothing(c: Client, s: Server, p: Serverbound, nonce: int)
    requires c.kick == None
    ensures var (after, reply) := OnPacket(c, s, p, nonce);
            after.kick.Some? ==> reply == Queued([]) || reply == Reply.Refused(true)
  {
    hide PlayPackets, ConfigurationPackets;
  }

  lemma DeliveryKicks(c: Connection, s: Server, link: Link)
    requires c.client.kick.Some?
    ensures !Deliver(c, s, [], link).open
  {
  }

  lemma DeliveryKeepsKick(c: Connection, s: Server, batch: seq<Clientbound>, link: Link)
    requires c.client.kick == None
    ensures Deliver(c, s, batch, link).client.kick == None
  {
    WritesAppend(c.(wasInPlay := c.wasInPlay || Enters(c)), s, Carried(batch, link));
  }

  // A client that is to be kicked is not listened to any more.
  lemma {:induction false} KickedIsClosed(s: Server, events: seq<Event>)
    ensures Run(s, events).open ==> Run(s, events).client.kick == None
  {
    hide OnPacket, Deliver, WriteBatch;
    if events == [] {
    } else {
      var m := |events| - 1;
      var c := Run(s, events[..m]);
      KickedIsClosed(s, events[..m]);
      if c.open {
        match events[m]
        case Received(p, nonce, link) =>
          KickQueuesNothing(c.client, s, p, nonce);
          var (client, reply) := OnPacket(c.client, s, p, nonce);
          if reply.Queued? && client.kick.Some? {
            DeliveryKicks(c.(client := client), s, link);
          } else if reply.Queued? {
            DeliveryKeepsKick(c.(client := client), s, reply.batch, link);
          }
        case KeepAliveTick(link) => BatchGrows(c, s, [KeepAlive], link);
        case ActionBarTick(link) => BatchGrows(c, s, ActionBarBatch(c, s), link);
        case _ =>
      }
    }
  }

  // ---- Joining ----------------------------------------------------------------------------------

  // The first play packet is the join packet, and where there is no configuration it
  // comes right after the end of login.
  predicate JoinsAt(ps: seq<Clientbound>, k: nat, version: int) {
    && k < |ps| && ps[k] == JoinGame
    && (forall j :: 0 <= j < k ==> ps[j].Home() != Play)
    && (SupportsConfiguration(version) || (k > 0 && ps[k - 1].EndsLogin()))
  }

  lemma JoinsAfterLogin(b: seq<Clientbound>, ps: seq<Clientbound>, version: int)
    requires Adds([], b, Login) && b != [] && b[|b| - 1].EndsLogin()
    requires Adds(b, ps, Play) && |b| < |ps| && ps[|b|] == JoinGame
    ensures JoinsAt(ps, |b|, version)
  {
  }

  lemma LoginJoins(c: Client, s: Server, p: Profile)
    requires FireLoginSuccess([], c, s, p).0.state == Play && c.state != Play
    ensures FireLoginSuccess([], c, s, p).1.Queued?
    ensures exists k :: JoinsAt(FireLoginSuccess([], c, s, p).1.batch, k, c.version)
  {
    var b := SuccessPackets([], c.version, s, p);
    SuccessPacketsAreLogin(c.version, s, p);
    PlayAdds(b, c.WithProfile(p), s);
    JoinsAfterLogin(b, FireLoginSuccess([], c, s, p).1.batch, c.version);
  }

  lemma EntryJoins(c: Client, s: Server, p: Serverbound, nonce: int)
    requires p.Home() == c.state != Play && Consistent(c) && OnPacket(c, s, p, nonce).0.state == Play
    ensures OnPacket(c, s, p, nonce).1.Queued?
    ensures exists k :: JoinsAt(OnPacket(c, s, p, nonce).1.batch, k, c.version)
  {
    match p
    case LoginStart(login) => LoginJoins(c, s, login);
    case CustomQueryAnswer(id, proxied) =>
      if c.session.Some? && id in c.session.value.pending {
        LoginJoins(c.(session := None), s, c.profile.value);
      } else {
        LoginJoins(c, s, proxied.value);
      }
    case AcknowledgeConfiguration =>
      PlayAdds([], c, s);
      assert JoinsAt(OnPacket(c, s, p, nonce).1.batch, 0, c.version);
    case _ =>
  }

  lemma JoinMoves(past: seq<Clientbound>, ps: seq<Clientbound>, k: nat, version: int)
    requires JoinsAt(ps, k, version) && forall i :: 0 <= i < |past| ==> past[i].Home() != Play
    ensures JoinsAt(past + ps, |past| + k, version)
  {
  }

  predicate Grows(c: Connection, d: Connection) {
    |c.sent| <= |d.sent| && Trace(d.sent)[..|c.sent|] == Trace(c.sent)
  }

  lemma BatchGrows(c: Connection, s: Server, ps: seq<Clientbound>, link: Link)
    ensures var d := WriteBatch(c, s, ps, link);
            Trace(d.sent) == Trace(c.sent) + Carried(ps, link) && d.client == c.client && Grows(c, d)
  {
    WritesAppend(c, s, Carried(ps, link));
  }

  lemma KickGrows(c: Connection, s: Server, carried: bool)
    ensures Grows(c, Kick(c, s, carried)) && Kick(c, s, carried).client == c.client
  {
  }

  lemma ConclusionGrows(c: Connection, s: Server, entered: bool, carried: bool, room: bool)
    ensures var d := Conclude(c, s, entered, carried, room);
            Grows(c, d) && d.client.state == c.client.state && d.client.version == c.client.version
  {
    KickGrows(c, s, room);
  }

  lemma DeliveryGrows(c: Connection, s: Server, batch: seq<Clientbound>, link: Link)
    ensures var d, ps := Deliver(c, s, batch, link), Trace(c.sent) + Carried(batch, link);
            && d.client.state == c.client.state && d.client.version == c.client.version
            && |ps| <= |d.sent| && Trace(d.sent)[..|ps|] == ps
  {
    var c' := c.(wasInPlay := c.wasInPlay || Enters(c));
    BatchGrows(c', s, batch, link);
    ConclusionGrows(WriteBatch(c', s, batch, link), s, Enters(c), link.Carries(|batch|), link.Carries(|batch| + 1));
  }

  lemma ProcessGrows(c: Connection, s: Server, p: Serverbound, nonce: int, link: Link)
    ensures Grows(c, Process(c, s, p, nonce, link))
    ensures p.Home() == c.client.state ==>
              Process(c, s, p, nonce, link).client.state == OnPacket(c.client, s, p, nonce).0.state
  {
    var (client, reply) := OnPacket(c.client, s, p, nonce);
    if p.Home() == c.client.state && reply.Queued? {
      DeliveryGrows(c.(client := client), s, reply.batch, link);
      var ps := Trace(c.sent) + Carried(reply.batch, link);
      assert ps[..|c.sent|] == Trace(c.sent);
      var d := Deliver(c.(client := client), s, reply.batch, link);
      assert Trace(d.sent)[..|c.sent|] == Trace(d.sent)[..|ps|][..|c.sent|];
    }
  }

  // The packets of one reaction come after those before it.
  lemma TraceGrows(c: Connection, s: Server, e: Event)
    ensures Grows(c, React(c, s, e))
  {
    match e
    case KeepAliveTick(link) => BatchGrows(c, s, [KeepAlive], link);
    case ActionBarTick(link) => BatchGrows(c, s, ActionBarBatch(c, s), link);
    case Received(p, nonce, link) => ProcessGrows(c, s, p, nonce, link);
    case _ =>
  }

  lemma JoinContinues(ps: seq<Clientbound>, longer: seq<Clientbound>, k: nat, version: int)
    requires JoinsAt(ps, k, version) && |ps| <= |longer| && longer[..|ps|] == ps
    ensures JoinsAt(longer, k, version)
  {
  }

  predicate Joinless(ps: seq<Clientbound>) { forall i :: 0 <= i < |ps| ==> ps[i] != JoinGame }

  lemma ConclusionIsJoinless(c: Connection, s: Server, entered: bool, carried: bool, room: bool)
    requires Joinless(Trace(c.sent))
    ensures Joinless(Trace(Conclude(c, s, entered, carried, room).sent))
  {
  }

  lemma BatchIsJoinless(c: Connection, s: Server, batch: seq<Clientbound>, link: Link)
    requires Joinless(Trace(c.sent)) && Joinless(Carried(batch, link))
    ensures Joinless(Trace(WriteBatch(c, s, batch, link).sent))
  {
    hide WriteBatch, Trace;
    BatchGrows(c, s, batch, link);
  }

  lemma DeliveryIsJoinless(c: Connection, s: Server, batch: seq<Clientbound>, link: Link)
    requires Joinless(Trace(c.sent)) && Joinless(Carried(batch, link))
    ensures Joinless(Trace(Deliver(c, s, batch, link).sent))
  {
    var c' := c.(wasInPlay := c.wasInPlay || Enters(c));
    BatchIsJoinless(c', s, batch, link);
    ConclusionIsJoinless(WriteBatch(c', s, batch, link), s, Enters(c),
        link.Carries(|batch|), link.Carries(|batch| + 1));
  }

  lemma PlayRepliesAreJoinless(c: Client, s: Server, p: Serverbound, nonce: int)
    requires p.Home() == Play
    ensures OnPacket(c, s, p, nonce).1.Queued? && Joinless(OnPacket(c, s, p, nonce).1.batch)
  {
  }

  // Once in play, a connection is not told again to join.
  lemma PlayIsJoinless(c: Connection, s: Server, e: Event)
    requires c.client.state == Play && Joinless(Trace(c.sent))
    ensures Joinless(Trace(React(c, s, e).sent))
  {
    hide OnPacket, Deliver, WriteBatch, Trace;
    match e
    case KeepAliveTick(link) => BatchIsJoinless(c, s, [KeepAlive], link);
    case ActionBarTick(link) => BatchIsJoinless(c, s, ActionBarBatch(c, s), link);
    case Received(p, nonce, link) =>
      if p.Home() == Play {
        PlayRepliesAreJoinless(c.client, s, p, nonce);
        var (client, reply) := OnPacket(c.client, s, p, nonce);
        DeliveryIsJoinless(c.(client := client), s, reply.batch, link);
      }
    case _ =>
  }

  // The packet that leads into play decides: the join packet is sent if the link carries it, and else never.
  lemma EntryDecides(c: Connection, s: Server, p: Serverbound, nonce: int, link: Link, k: nat)
    requires Orderly(c) && c.client.state != Play && Process(c, s, p, nonce, link).client.state == Play
    requires p.Home() == c.client.state && OnPacket(c.client, s, p, nonce).1.Queued?
    requires JoinsAt(OnPacket(c.client, s, p, nonce).1.batch, k, c.client.version)
    ensures var ps := Trace(Process(c, s, p, nonce, link).sent);
            if link.Carries(k + 1) then JoinsAt(ps, |c.sent| + k, c.client.version) else Joinless(ps)
  {
    hide OnPacket, Deliver;
    var (client, reply) := OnPacket(c.client, s, p, nonce);
    var past := Trace(c.sent);
    assert forall i :: 0 <= i < |past| ==> Fit(past[i], 0, c.client);
    DeliveryGrows(c.(client := client), s, reply.batch, link);
    if link.Carries(k + 1) {
      assert JoinsAt(Carried(reply.batch, link), k, c.client.version);
      JoinMoves(past, Carried(reply.batch, link), k, c.client.version);
      JoinContinues(past + Carried(reply.batch, link), Trace(Process(c, s, p, nonce, link).sent), |c.sent| + k,
                    c.client.version);
    } else {
      DeliveryIsJoinless(c.(client := client), s, reply.batch, link);
    }
  }

  // Event n leads into play.
  predicate EntersAt(s: Server, events: seq<Event>, n: nat) {
    n < |events| && Run(s, events[..n]).client.state != Play && Run(s, events[..n + 1]).client.state == Play
  }

  // What a received packet is answered with.
  function BatchAt(s: Server, events: seq<Event>, n: nat): seq<Clientbound>
    requires n < |events| && events[n].Received?
  {
    var reply := OnPacket(Run(s, events[..n]).client, s, events[n].packet, events[n].nonce).1;
    if reply.Queued? then reply.batch else []
  }

  lemma {:induction false} PlayWasEntered(s: Server, events: seq<Event>) returns (n: nat)
    requires Run(s, events).client.state == Play
    ensures EntersAt(s, events, n)
  {
    var m := |events| - 1;
    if Run(s, events[..m]).client.state == Play {
      n := PlayWasEntered(s, events[..m]);
      assert events[..m][..n] == events[..n] && events[..m][..n + 1] == events[..n + 1];
    } else {
      n := m;
      assert events[..m + 1] == events;
    }
  }

  // It is a packet, whose answer holds the join packet.
  lemma EntryHasJoin(s: Server, events: seq<Event>, n: nat) returns (k: nat)
    requires EntersAt(s, events, n)
    ensures var c, e := Run(s, events[..n]), events[n];
            && e.Received? && e.packet.Home() == c.client.state && Orderly(c)
            && OnPacket(c.client, s, e.packet, e.nonce).1.Queued?
            && Run(s, events[..n + 1]) == Process(c, s, e.packet, e.nonce, e.link)
            && JoinsAt(BatchAt(s, events, n), k, c.client.version)
  {
    hide OnPacket, Process;
    var c, e := Run(s, events[..n]), events[n];
    assert events[..n + 1][..n] == events[..n];
    RunIsOrderly(s, events[..n]);
    EntryIsReceived(c, s, e);
    EntryJoins(c.client, s, e.packet, e.nonce);
    k :| JoinsAt(BatchAt(s, events, n), k, c.client.version);
  }

  lemma EntryIsReceived(c: Connection, s: Server, e: Event)
    requires c.client.state != Play && React(c, s, e).client.state == Play
    ensures e.Received? && e.packet.Home() == c.client.state
    ensures React(c, s, e) == Process(c, s, e.packet, e.nonce, e.link)
    ensures OnPacket(c.client, s, e.packet, e.nonce).0.state == Play
  {
    hide OnPacket, Deliver;
    if e.Received? {
      ProcessGrows(c, s, e.packet, e.nonce, e.link);
    }
  }

  lemma StaysInPlay(c: Connection, s: Server, e: Event)
    requires Orderly(c) && c.client.state == Play
    ensures var d := React(c, s, e); d.client.state == Play && d.client.version == c.client.version && Orderly(d)
  {
    hide React;
    ReactionIsOrderly(c, s, e);
  }

  // Whether the join packet is among the packets sent, after the given number of others.
  predicate Joined(c: Connection, carried: bool, k: nat, version: int) {
    && Orderly(c) && c.client.state == Play && c.client.version == version
    && if carried then JoinsAt(Trace(c.sent), k, version) else Joinless(Trace(c.sent))
  }

  lemma JoinedStays(c: Connection, s: Server, e: Event, carried: bool, k: nat, version: int)
    requires Joined(c, carried, k, version)
    ensures Joined(React(c, s, e), carried, k, version)
  {
    hide React, Orderly;
    StaysInPlay(c, s, e);
    if carried {
      TraceGrows(c, s, e);
      JoinContinues(Trace(c.sent), Trace(React(c, s, e).sent), k, version);
    } else {
      PlayIsJoinless(c, s, e);
    }
  }

  lemma EntryIsJoined(s: Server, events: seq<Event>, n: nat, k: nat)
    requires EntersAt(s, events, n) && events[n].Received?
    requires JoinsAt(BatchAt(s, events, n), k, Run(s, events[..n]).client.version)
    ensures var c := Run(s, events[..n]);
            Joined(Run(s, events[..n + 1]), events[n].link.Carries(k + 1), |c.sent| + k, c.client.version)
  {
    hide Process, OnPacket, Orderly, JoinsAt;
    var c, e := Run(s, events[..n]), events[n];
    var _ := EntryHasJoin(s, events, n);
    ProcessIsOrderly(c, s, e.packet, e.nonce, e.link);
    EntryKeepsVersion(c, s, e.packet, e.nonce, e.link);
    EntryDecides(c, s, e.packet, e.nonce, e.link, k);
  }

  lemma EntryKeepsVersion(c: Connection, s: Server, p: Serverbound, nonce: int, link: Link)
    requires Orderly(c) && Process(c, s, p, nonce, link).client.state == Play
    ensures Process(c, s, p, nonce, link).client.version == c.client.version
  {
    hide Process;
    ProcessIsOrderly(c, s, p, nonce, link);
  }

  lemma {:induction false} EntryDecidesForGood(s: Server, events: seq<Event>, n: nat, k: nat)
    requires EntersAt(s, events, n) && events[n].Received?
    requires JoinsAt(BatchAt(s, events, n), k, Run(s, events[..n]).client.version)
    ensures var c := Run(s, events[..n]);
            Joined(Run(s, events), events[n].link.Carries(k + 1), |c.sent| + k, c.client.version)
  {
    hide React, OnPacket, JoinsAt, Joined;
    var m := |events| - 1;
    if m == n {
      assert events[..n + 1] == events;
      EntryIsJoined(s, events, n, k);
    } else {
      var c := Run(s, events[..n]);
      assert events[..m][..n] == events[..n] && events[..m][..n + 1] == events[..n + 1];
      EntryDecidesForGood(s, events[..m], n, k);
      JoinedStays(Run(s, events[..m]), s, events[m], events[n].link.Carries(k + 1), |c.sent| + k, c.client.version);
    }
  }

  // A connection in play was told so by a join packet, before anything else of play and right after the end of login
  // where there is no configuration, exactly when the batch that led into play got as far as that packet.
  lemma PlayStartsWithJoin(s: Server, events: seq<Event>, n: nat, k: nat)
    requires EntersAt(s, events, n) && events[n].Received?
    requires JoinsAt(BatchAt(s, events, n), k, Run(s, events).client.version)
    ensures (exists j :: JoinsAt(Trace(Run(s, events).sent), j, Run(s, events).client.version)) <==>
              events[n].link.Carries(k + 1)
  {
    hide OnPacket, BatchAt, React;
    var k' := EntryHasJoin(s, events, n);
    EntryDecidesForGood(s, events, n, k');
    EntryDecidesForGood(s, events, n, k);
  }

  lemma RunOne(s: Server, events: seq<Event>, e: Event)
    ensures Run(s, events + [e]) == React(Run(s, events), s, e)
  {
    assert (events + [e])[..|events|] == events;
  }

  const WHOLE := Link(None, false)

  lemma HandshakeStep(s: Server, v: int)
    requires IsVersion(v) && v != UNSUPPORTED
    ensures React(ACCEPTED, s, Received(Intention(v, 2, Vanilla, NoForwarding), 0, WHOLE)) ==
              ACCEPTED.(client := FRESH.(state := Login, version := v))
  {
  }

  lemma CutStep(c: Connection, s: Server, p: Profile)
    requires !s.modernForwarding && s.compression == None
    requires c == ACCEPTED.(client := FRESH.(state := Login, version := V1_8))
    ensures React(c, s, Received(LoginStart(p), 0, Link(Some(1), false))) ==
              c.(client := c.client.WithProfile(p).InPlay(), sent := [Sent(GameProfile(p), None)], wasInPlay := true)
  {
    hide JoinPackets, OverlayPackets, Deliver;
    var b := [GameProfile(p)];
    assert SuccessPackets([], V1_8, s, p) == b;
    PlayAdds(b, c.client.WithProfile(p), s);
    CutBatch(c.(client := c.client.WithProfile(p).InPlay()), s, PlayPackets(b, c.client.WithProfile(p), s).batch, p);
  }

  lemma CutBatch(c: Connection, s: Server, batch: seq<Clientbound>, p: Profile)
    requires |batch| > 1 && batch[..1] == [GameProfile(p)] && c.sent == [] && c.compression == None
    requires c.client.state == Play && !c.wasInPlay && c.open
    ensures Deliver(c, s, batch, Link(Some(1), false)) == c.(sent := [Sent(GameProfile(p), None)], wasInPlay := true)
  {
    assert batch[..1][..0] == [] && batch[..1][0] == GameProfile(p);
    assert [] + [Sent(GameProfile(p), None)] == [Sent(GameProfile(p), None)];
    var entered := c.(wasInPlay := true);
    assert WriteAll(entered, s, batch[..1]) == Write(WriteAll(entered, s, batch[..1][..0]), s, batch[..1][0]);
    assert WriteAll(entered, s, []) == entered;
  }

  lemma TickStep(c: Connection, s: Server)
    requires c.open && c.client.state == Play && c.client.keepAlive == ShouldEnable
             && c.client.kick == None && c.wasInPlay
    ensures var d := React(React(c, s, Received(AbilitiesChanged, 0, WHOLE)), s, KeepAliveTick(WHOLE));
            d.client.state == Play && Trace(d.sent) == Trace(c.sent) + [KeepAlive]
  {
    hide WriteBatch, Deliver;
    SettledStep(c, s);
    BatchGrows(React(c, s, Received(AbilitiesChanged, 0, WHOLE)), s, [KeepAlive], WHOLE);
  }

  lemma SettledStep(c: Connection, s: Server)
    requires c.client.state == Play && c.client.keepAlive == ShouldEnable && c.client.kick == None && c.wasInPlay
    ensures var d := Deliver(c, s, [], WHOLE);
            d.open == c.open && d.sent == c.sent && d.client == c.client.(keepAlive := Enabled)
  {
  }

  // A client whose connection fails for one write, just after its login, and then goes on.
  function CutEntry(p: Profile): seq<Event> {
    [Received(Intention(V1_8, 2, Vanilla, NoForwarding), 0, WHOLE), Received(LoginStart(p), 0, Link(Some(1), false))]
  }

  lemma EntryIsCut(s: Server, p: Profile)
    requires !s.modernForwarding && s.compression == None
    ensures var c := Run(s, CutEntry(p));
            && c.open && c.client.state == Play && c.client.keepAlive == ShouldEnable
            && c.client.kick == None && c.wasInPlay
            && Trace(c.sent) == [GameProfile(p)]
  {
    hide React;
    var e1, e2 := CutEntry(p)[0], CutEntry(p)[1];
    RunOne(s, [], e1);
    RunOne(s, [e1], e2);
    assert [] + [e1] == [e1] && [e1] + [e2] == CutEntry(p);
    HandshakeStep(s, V1_8);
    CutStep(Run(s, [e1]), s, p);
  }

  // It is in play, and the first thing it is told there is a keep-alive.
  lemma JoinCanBeCutOff(s: Server, p: Profile)
    requires !s.modernForwarding && s.compression == None
    ensures var c := Run(s, CutEntry(p) + [Received(AbilitiesChanged, 0, WHOLE)] + [KeepAliveTick(WHOLE)]);
            c.client.state == Play && Trace(c.sent) == [GameProfile(p)] + [KeepAlive]
  {
    hide React, CutEntry;
    EntryIsCut(s, p);
    RunOne(s, CutEntry(p), Received(AbilitiesChanged, 0, WHOLE));
    RunOne(s, CutEntry(p) + [Received(AbilitiesChanged, 0, WHOLE)], KeepAliveTick(WHOLE));
    TickStep(Run(s, CutEntry(p)), s);
  }

  // ---- Forwarding -------------------------------------------------------------------------------

  // Behind a proxy, a login start leads to a question to it, or to a kick before 1.13 (393), exactly if no recording is
  // replayed.
  lemma ProxyIsAskedWhen(c: Client, s: Server, login: Profile, nonce: int)
    requires s.modernForwarding && c.session == None && c.kick == None
    ensures var (after, reply) := OnLoginStart(c, s, login, nonce);
            && (after.session == None <==> !Replays(c, s))
            && (after.kick == Some(ModernForwardingNotSupported) <==> !Replays(c, s) && c.version < 393)
            && (reply == Queued([CustomQuery(nonce, VELOCITY_INFO, [])]) && after.velocityId == nonce
                <== !Replays(c, s) && c.version >= 393)
            && (!Replays(c, s) && c.version < 393 ==> reply == Queued([]))
  {
  }

  // The proxy's answer counts under the id it was asked with: it lets the client in under the name it vouches for, or
  // out. Any other answer changes nothing.
  lemma ProxyIsHeard(c: Client, s: Server, id: int, proxied: Option<Profile>)
    requires s.modernForwarding && c.session == None
    ensures OnCustomQueryAnswer(c, s, id, proxied) ==
              if id != c.velocityId then (c, Queued([]))
              else if proxied.None? then (c.(kick := Some(ProxyRequired)), Queued([]))
              else FireLoginSuccess([], c, s, proxied.value)
  {
    hide FireLoginSuccess;
  }

  // Success packets name profiles the proxy has vouched for.
  predicate Vouches(ps: seq<Clientbound>, proxied: set<Profile>) {
    forall i :: 0 <= i < |ps| && ps[i].EndsLogin() ==> ps[i].profile in proxied
  }

  function VouchedIn(p: Serverbound): set<Profile> {
    if p.CustomQueryAnswer? && p.proxied.Some? then {p.proxied.value} else {}
  }

  lemma PlayHasNoSuccess(b: seq<Clientbound>, c: Client, s: Server, proxied: set<Profile>)
    requires Vouches(b, proxied) && PlayPackets(b, c, s).Queued?
    ensures Vouches(PlayPackets(b, c, s).batch, proxied)
  {
    hide PlayPackets;
    PlayAdds(b, c, s);
    var ps := PlayPackets(b, c, s).batch;
    forall i | 0 <= i < |ps| && ps[i].EndsLogin()
      ensures ps[i].profile in proxied
    {
      assert ps[i].Home() != Play;
      assert ps[i] == ps[..|b|][i] == b[i];
    }
  }

  lemma SuccessNames(c: Client, s: Server, p: Profile)
    requires FireLoginSuccess([], c, s, p).1.Queued?
    ensures Vouches(FireLoginSuccess([], c, s, p).1.batch, {p})
  {
    hide PlayPackets;
    var b := SuccessPackets([], c.version, s, p);
    assert Vouches(b, {p});
    if !SupportsConfiguration(c.version) {
      PlayHasNoSuccess(b, c.WithProfile(p), s, {p});
    }
  }

  // Unless a replay starts, a reply to one packet names no one but whom this packet's signature vouches for.
  lemma ReplyIsVouchedFor(c: Client, s: Server, p: Serverbound, nonce: int)
    requires s.modernForwarding && c.session == None && (p.LoginStart? ==> !Replays(c, s))
    ensures var (after, reply) := OnPacket(c, s, p, nonce);
            after.session == None && (reply.Queued? ==> Vouches(reply.batch, VouchedIn(p)))
  {
    hide PlayPackets, ConfigurationPackets, FireLoginSuccess, TitlePackets;
    match p
    case CustomQueryAnswer(id, proxied) =>
      if proxied.Some? && FireLoginSuccess([], c, s, proxied.value).1.Queued? {
        SuccessNames(c, s, proxied.value);
      }
      SessionIsKept(c, s, if proxied.Some? then proxied.value else Profile("", 0));
    case AcknowledgeConfiguration =>
      if PlayPackets([], c, s).Queued? {
        PlayHasNoSuccess([], c, s, {});
      }
    case LoginAcknowledged =>
      if ConfigurationPackets(c.version, s).Queued? {
        ConfigurationAdds(c.version, s);
      }
    case _ =>
  }

  lemma SessionIsKept(c: Client, s: Server, p: Profile)
    ensures FireLoginSuccess([], c, s, p).0.session == c.session
  {
  }

  // The profiles the proxy has vouched for by then.
  function VouchedBy(events: seq<Event>): set<Profile> {
    if events == [] then {}
    else
      var e := events[|events| - 1];
      VouchedBy(events[..|events| - 1]) + if e.Received? then VouchedIn(e.packet) else {}
  }

  predicate Vouched(c: Connection, proxied: set<Profile>) {
    c.client.session == None && Vouches(Trace(c.sent), proxied)
  }

  lemma ConclusionIsVouched(c: Connection, s: Server, entered: bool, carried: bool, room: bool, proxied: set<Profile>)
    requires Vouched(c, proxied)
    ensures Vouched(Conclude(c, s, entered, carried, room), proxied)
  {
  }

  lemma BatchIsVouched(c: Connection, s: Server, batch: seq<Clientbound>, link: Link, proxied: set<Profile>)
    requires Vouched(c, proxied) && Vouches(batch, proxied)
    ensures Vouched(WriteBatch(c, s, batch, link), proxied)
  {
    hide WriteBatch, Trace;
    BatchGrows(c, s, batch, link);
    BothVouch(Trace(c.sent), Carried(batch, link), proxied);
  }

  lemma BothVouch(a: seq<Clientbound>, b: seq<Clientbound>, proxied: set<Profile>)
    requires Vouches(a, proxied) && Vouches(b, proxied)
    ensures Vouches(a + b, proxied)
  {
  }

  lemma DeliveryIsVouched(c: Connection, s: Server, batch: seq<Clientbound>, link: Link, proxied: set<Profile>)
    requires Vouched(c, proxied) && Vouches(batch, proxied)
    ensures Vouched(Deliver(c, s, batch, link), proxied)
  {
    hide WriteBatch, Conclude;
    var c' := c.(wasInPlay := c.wasInPlay || Enters(c));
    BatchIsVouched(c', s, batch, link, proxied);
    ConclusionIsVouched(WriteBatch(c', s, batch, link), s, Enters(c), link.Carries(|batch|), link.Carries(|batch| + 1),
                        proxied);
  }

  // No login start of the run leads to a replay.
  predicate NeverReplays(s: Server, events: seq<Event>) {
    forall n :: 0 <= n < |events| && events[n].Received? && events[n].packet.LoginStart? ==>
      !Replays(Run(s, events[..n]).client, s)
  }

  // Behind a proxy, over every run in which nothing is replayed: every success packet names a profile that the proxy
  // has vouched for.
  lemma {:induction false} SuccessIsVouchedFor(s: Server, events: seq<Event>)
    requires s.modernForwarding && NeverReplays(s, events)
    ensures Vouched(Run(s, events), VouchedBy(events))
  {
    hide React, Vouched;
    if events == [] {
      NoneIsVouched({});
    } else {
      var m := |events| - 1;
      assert forall n :: 0 <= n < m ==> events[..m][n] == events[n] && events[..m][..n] == events[..n];
      SuccessIsVouchedFor(s, events[..m]);
      ReactionIsVouched(Run(s, events[..m]), s, events[m], VouchedBy(events[..m]));
    }
  }

  lemma NoneIsVouched(proxied: set<Profile>)
    ensures Vouched(ACCEPTED, proxied)
  {
  }

  lemma ReactionIsVouched(c: Connection, s: Server, e: Event, before: set<Profile>)
    requires s.modernForwarding && Vouched(c, before)
    requires e.Received? && e.packet.LoginStart? ==> !Replays(c.client, s)
    ensures Vouched(React(c, s, e), before + if e.Received? then VouchedIn(e.packet) else {})
  {
    hide OnPacket, Deliver, WriteBatch, VouchedIn;
    match e
    case Received(p, nonce, link) =>
      ReplyIsVouchedFor(c.client, s, p, nonce);
      var (client, reply) := OnPacket(c.client, s, p, nonce);
      if reply.Queued? {
        DeliveryIsVouched(c.(client := client), s, reply.batch, link, before + VouchedIn(p));
      }
    case KeepAliveTick(link) => BatchIsVouched(c, s, [KeepAlive], link, before);
    case ActionBarTick(link) => BatchIsVouched(c, s, ActionBarBatch(c, s), link, before);
    case _ =>
  }

  // ---- Compression ------------------------------------------------------------------------------

  predicate Switched(sent: seq<Sent>, n: nat) {
    exists j :: 0 <= j < n && j < |sent| && sent[j].packet.SetCompression?
  }

  // Compression is in force exactly after the first packet that announces it.
  predicate Framed(c: Connection, s: Server) {
    && c.compression == (if Switched(c.sent, |c.sent|) then s.compression else None)
    && forall i :: 0 <= i < |c.sent| ==>
         c.sent[i].compression == (if Switched(c.sent, i) then s.compression else None)
  }

  lemma WriteIsFramed(c: Connection, s: Server, p: Clientbound)
    requires Framed(c, s)
    ensures Framed(Write(c, s, p), s)
  {
    var d := Write(c, s, p);
    var n := |c.sent|;
    forall i | 0 <= i <= n
      ensures Switched(d.sent, i) <==> Switched(c.sent, i)
    {
      assert forall j :: 0 <= j < i ==> d.sent[j] == c.sent[j];
    }
    if p.SetCompression? {
      assert d.sent[n].packet.SetCompression?;
    } else {
      assert Switched(d.sent, n + 1) <==> Switched(d.sent, n);
    }
  }

  lemma {:induction false} WritesAreFramed(c: Connection, s: Server, ps: seq<Clientbound>)
    requires Framed(c, s)
    ensures Framed(WriteAll(c, s, ps), s)
  {
    if ps == [] {
    } else {
      WritesAreFramed(c, s, ps[..|ps| - 1]);
      WriteIsFramed(WriteAll(c, s, ps[..|ps| - 1]), s, ps[|ps| - 1]);
    }
  }

  lemma KickIsFramed(c: Connection, s: Server, carried: bool)
    requires Framed(c, s)
    ensures Framed(Kick(c, s, carried), s)
  {
    var p := DisconnectPacket(c.client.state);
    if p.Some? && carried {
      WriteIsFramed(c, s, p.value);
    }
  }

  lemma BatchIsFramed(c: Connection, s: Server, batch: seq<Clientbound>, link: Link)
    requires Framed(c, s)
    ensures Framed(WriteBatch(c, s, batch, link), s)
  {
    WritesAreFramed(c, s, Carried(batch, link));
  }

  lemma ConclusionIsFramed(c: Connection, s: Server, entered: bool, carried: bool, room: bool)
    requires Framed(c, s)
    ensures Framed(Conclude(c, s, entered, carried, room), s)
  {
    KickIsFramed(c, s, room);
  }

  lemma DeliveryIsFramed(c: Connection, s: Server, batch: seq<Clientbound>, link: Link)
    requires Framed(c, s)
    ensures Framed(Deliver(c, s, batch, link), s)
  {
    var c' := c.(wasInPlay := c.wasInPlay || Enters(c));
    assert Framed(c', s);
    BatchIsFramed(c', s, batch, link);
    ConclusionIsFramed(WriteBatch(c', s, batch, link), s, Enters(c), link.Carries(|batch|), link.Carries(|batch| + 1));
  }

  // Over every run, a packet is framed with compression exactly if a packet announcing it was written before.
  lemma {:induction false} RunIsFramed(s: Server, events: seq<Event>)
    ensures Framed(Run(s, events), s)
  {
    if events == [] {
    } else {
      var m := |events| - 1;
      RunIsFramed(s, events[..m]);
      var c := Run(s, events[..m]);
      match events[m]
      case Received(p, nonce, link) =>
        var (client, reply) := OnPacket(c.client, s, p, nonce);
        if reply.Queued? {
          DeliveryIsFramed(c.(client := client), s, reply.batch, link);
        }
      case KeepAliveTick(link) => BatchIsFramed(c, s, [KeepAlive], link);
      case ActionBarTick(link) => BatchIsFramed(c, s, ActionBarBatch(c, s), link);
      case _ =>
    }
  }
}
