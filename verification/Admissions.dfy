/** Who gets into play: when success packets are sent, and that the end of login can be acknowledged without one. */
module Admissions {
  import opened Prelude
  import opened Packets
  import opened ClientStates
  import opened Handlers
  import opened Connections
  import opened ConnectionTraces

  // Event n is a packet of the state the connection is in.
  predicate HandledAt(s: Server, events: seq<Event>, n: nat) {
    && n < |events| && events[n].Received?
    && Run(s, events[..n]).open && events[n].packet.Home() == Run(s, events[..n]).client.state
  }

  predicate Names(ps: seq<Clientbound>, p: Profile) {
    exists i :: 0 <= i < |ps| && ps[i].EndsLogin() && ps[i].profile == p
  }

  // Event n is answered with a success packet that names p.
  predicate SucceedsAt(s: Server, events: seq<Event>, n: nat, p: Profile) {
    HandledAt(s, events, n) && Names(BatchAt(s, events, n), p)
  }

  ghost predicate Succeeds(s: Server, events: seq<Event>) {
    exists n: nat, p: Profile :: SucceedsAt(s, events, n, p)
  }

  // Event m leads into configuration.
  predicate EntersConfiguration(s: Server, events: seq<Event>, m: nat) {
    && m < |events|
    && Run(s, events[..m]).client.state != Configuration && Run(s, events[..m + 1]).client.state == Configuration
  }

  // ---- One packet -------------------------------------------------------------------------------

  // Success packets answer login packets, and not the acknowledgement.
  lemma SuccessAnswersLogin(c: Client, s: Server, packet: Serverbound, nonce: int, p: Profile)
    requires packet.Home() == c.state && Consistent(c)
    requires OnPacket(c, s, packet, nonce).1.Queued? && Names(OnPacket(c, s, packet, nonce).1.batch, p)
    ensures c.state == Login && !packet.LoginAcknowledged?
  {
    hide PlayPackets, ConfigurationPackets, FireLoginSuccess;
    match packet
    case AcknowledgeConfiguration => PlayAdds([], c, s);
    case LoginAcknowledged => ConfigurationAdds(c.version, s);
    case _ =>
  }

  // Configuration is entered by the acknowledgement.
  lemma AcknowledgementEnters(c: Connection, s: Server, e: Event)
    requires Orderly(c) && c.client.state != Configuration && React(c, s, e).client.state == Configuration
    ensures e.Received? && e.packet.LoginAcknowledged? && c.client.state == Login
  {
    ReactionIsOrderly(c, s, e);
    hide FireLoginSuccess, OnCustomQueryAnswer, OnLoginStart, Deliver;
    if e.Received? {
      ProcessGrows(c, s, e.packet, e.nonce, e.link);
      LoginStays(c.client, s, e.packet, e.nonce);
    }
  }

  lemma LoginStays(c: Client, s: Server, packet: Serverbound, nonce: int)
    requires c.state == Login && packet.Home() == Login && OnPacket(c, s, packet, nonce).0.state == Configuration
    ensures packet.LoginAcknowledged?
  {
  }

  // ---- Runs -------------------------------------------------------------------------------------

  lemma SuccessInPrefix(s: Server, events: seq<Event>, m: nat, n: nat, p: Profile)
    requires n < m <= |events|
    ensures SucceedsAt(s, events[..m], n, p) <==> SucceedsAt(s, events, n, p)
  {
    assert events[..m][..n] == events[..n];
  }

  // No success packet comes after configuration was entered.
  lemma SuccessComesFirst(s: Server, events: seq<Event>, m: nat)
    requires EntersConfiguration(s, events, m)
    ensures Succeeds(s, events) <==> Succeeds(s, events[..m])
  {
    hide Run, SucceedsAt;
    if Succeeds(s, events[..m]) {
      var n: nat, p: Profile :| SucceedsAt(s, events[..m], n, p);
      SuccessAnswersLoginPacket(s, events[..m], n, p);
      SuccessInPrefix(s, events, m, n, p);
    }
    if Succeeds(s, events) {
      var n: nat, p: Profile :| SucceedsAt(s, events, n, p);
      NoSuccessFrom(s, events, m, n, p);
      SuccessInPrefix(s, events, m, n, p);
    }
  }

  lemma SuccessAnswersLoginPacket(s: Server, events: seq<Event>, n: nat, p: Profile)
    requires SucceedsAt(s, events, n, p)
    ensures n < |events| && Run(s, events[..n]).client.state == Login
    ensures events[n].Received? && events[n].packet.Home() == Login && !events[n].packet.LoginAcknowledged?
  {
    hide OnPacket, Run;
    RunIsOrderly(s, events[..n]);
    SuccessAnswersLogin(Run(s, events[..n]).client, s, events[n].packet, events[n].nonce, p);
  }

  lemma NoSuccessFrom(s: Server, events: seq<Event>, m: nat, n: nat, p: Profile)
    requires EntersConfiguration(s, events, m) && SucceedsAt(s, events, n, p)
    ensures n < m
  {
    hide React, SucceedsAt;
    SuccessAnswersLoginPacket(s, events, n, p);
    if n == m {
      assert events[..m + 1][..m] == events[..m];
      RunIsOrderly(s, events[..m]);
      AcknowledgementEnters(Run(s, events[..m]), s, events[m]);
    } else if n > m {
      assert events[..n][..m + 1] == events[..m + 1];
      LaterIsFurther(s, events[..n], m + 1);
    }
  }

  lemma {:induction false} ConfigurationWasEntered(s: Server, events: seq<Event>) returns (m: nat)
    requires var c := Run(s, events).client;
             c.state == Configuration || (c.state == Play && SupportsConfiguration(c.version))
    ensures EntersConfiguration(s, events, m)
  {
    hide React;
    var last := |events| - 1;
    var c := Run(s, events[..last]);
    RunIsOrderly(s, events[..last]);
    ReactionIsOrderly(c, s, events[last]);
    if c.client.state == Configuration || c.client.state == Play {
      m := ConfigurationWasEntered(s, events[..last]);
      assert events[..last][..m] == events[..m] && events[..last][..m + 1] == events[..m + 1];
    } else {
      m := last;
      assert events[..last + 1] == events;
    }
  }

  // Play without configuration is entered by the end of login.
  lemma PlayEndsLogin(s: Server, events: seq<Event>)
    requires Run(s, events).client.state == Play && !SupportsConfiguration(Run(s, events).client.version)
    ensures Succeeds(s, events)
  {
    hide OnPacket, Process, Deliver;
    var n := PlayWasEntered(s, events);
    var k := EntryHasJoin(s, events, n);
    var batch := BatchAt(s, events, n);
    EntryVersion(s, events, n);
    hide Run, JoinsAt, BatchAt;
    LastEndsLogin(batch, k, Run(s, events[..n]).client.version);
    assert SucceedsAt(s, events, n, batch[k - 1].profile);
  }

  lemma LastEndsLogin(ps: seq<Clientbound>, k: nat, version: int)
    requires JoinsAt(ps, k, version) && !SupportsConfiguration(version)
    ensures 0 < k < |ps| && ps[k - 1].EndsLogin() && Names(ps, ps[k - 1].profile)
  {
  }

  // Play is entered by an open connection, whose version stays.
  lemma EntryVersion(s: Server, events: seq<Event>, n: nat)
    requires EntersAt(s, events, n)
    ensures Run(s, events[..n]).open && Run(s, events[..n]).client.version == Run(s, events).client.version
  {
    hide React;
    var c := Run(s, events[..n]);
    assert events[..n + 1][..n] == events[..n];
    RunIsOrderly(s, events[..n]);
    ReactionIsOrderly(c, s, events[n]);
    LaterIsFurther(s, events, n);
    ClosedStays(c, s, events[n]);
  }

  lemma ClosedStays(c: Connection, s: Server, e: Event)
    ensures !c.open ==> React(c, s, e) == c
  {
  }

  // Versions without configuration get into play by a success packet only; for the others one was sent exactly if it
  // came before the acknowledgement, which does not ask for it.
  lemma PlayFollowsSuccessWhen(s: Server, events: seq<Event>)
    requires Run(s, events).client.state == Play
    ensures Succeeds(s, events) <==>
              !SupportsConfiguration(Run(s, events).client.version) ||
              exists m: nat :: EntersConfiguration(s, events, m) && Succeeds(s, events[..m])
  {
    hide Run, Succeeds;
    if SupportsConfiguration(Run(s, events).client.version) {
      var m := ConfigurationWasEntered(s, events);
      SuccessComesFirst(s, events, m);
      forall m': nat | EntersConfiguration(s, events, m') && Succeeds(s, events[..m'])
        ensures Succeeds(s, events)
      {
        SuccessComesFirst(s, events, m');
      }
    } else {
      PlayEndsLogin(s, events);
    }
  }

  // ---- Behind a proxy ---------------------------------------------------------------------------

  lemma SuccessIsBacked(s: Server, events: seq<Event>, n: nat, p: Profile)
    requires s.modernForwarding && NeverReplays(s, events) && SucceedsAt(s, events, n, p)
    ensures p in VouchedIn(events[n].packet)
  {
    hide OnPacket, VouchedIn;
    assert forall k :: 0 <= k < n ==> events[..n][k] == events[k] && events[..n][..k] == events[..k];
    SuccessIsVouchedFor(s, events[..n]);
    ReplyIsVouchedFor(Run(s, events[..n]).client, s, events[n].packet, events[n].nonce);
  }

  // The answer in event n, which the proxy vouches for p with, ends the login of p.
  predicate AdmitsAt(s: Server, events: seq<Event>, n: nat, p: Profile) {
    SucceedsAt(s, events, n, p) && p in VouchedIn(events[n].packet)
  }

  // Behind a proxy, over every run in which nothing is replayed: whoever is in play was admitted by the proxy exactly
  // if login ended before it was acknowledged, or the version has no acknowledgement.
  lemma PlayIsAdmittedWhen(s: Server, events: seq<Event>)
    requires s.modernForwarding && NeverReplays(s, events) && Run(s, events).client.state == Play
    ensures (exists n: nat, p: Profile :: AdmitsAt(s, events, n, p)) <==>
              !SupportsConfiguration(Run(s, events).client.version) ||
              exists m: nat :: EntersConfiguration(s, events, m) && Succeeds(s, events[..m])
  {
    PlayFollowsSuccessWhen(s, events);
    hide Run, SucceedsAt, NeverReplays, EntersConfiguration, VouchedIn;
    if Succeeds(s, events) {
      var n: nat, p: Profile :| SucceedsAt(s, events, n, p);
      SuccessIsBacked(s, events, n, p);
      assert AdmitsAt(s, events, n, p);
    }
  }

  // ---- Replays ----------------------------------------------------------------------------------

  predicate HasName(c: Client) { c.session.Some? ==> c.profile.Some? }

  lemma PacketKeepsName(c: Client, s: Server, p: Serverbound, nonce: int)
    requires HasName(c)
    ensures HasName(OnPacket(c, s, p, nonce).0)
  {
    hide PlayPackets, ConfigurationPackets, OnMove, OnChat;
  }

  lemma DeliveryKeepsName(c: Connection, s: Server, batch: seq<Clientbound>, link: Link)
    requires HasName(c.client)
    ensures HasName(Deliver(c, s, batch, link).client)
  {
    WritesAppend(c.(wasInPlay := c.wasInPlay || Enters(c)), s, Carried(batch, link));
  }

  // Over every run, a client that a recording is played to has given its name: a replay never ends without one.
  lemma {:induction false} ReplayHasName(s: Server, events: seq<Event>)
    ensures HasName(Run(s, events).client)
  {
    hide OnPacket, Deliver, WriteBatch;
    if events == [] {
    } else {
      var m := |events| - 1;
      var c := Run(s, events[..m]);
      ReplayHasName(s, events[..m]);
      match events[m]
      case Received(p, nonce, link) =>
        PacketKeepsName(c.client, s, p, nonce);
        var (client, reply) := OnPacket(c.client, s, p, nonce);
        if reply.Queued? {
          DeliveryKeepsName(c.(client := client), s, reply.batch, link);
        }
      case KeepAliveTick(link) => BatchGrows(c, s, [KeepAlive], link);
      case ActionBarTick(link) => BatchGrows(c, s, ActionBarBatch(c, s), link);
      case _ =>
    }
  }

  // ---- A login that is not ended ----------------------------------------------------------------

  const SKIPPED_LOGIN: seq<Event> := [
    Received(Intention(V1_20_2, 2, Vanilla, NoForwarding), 0, WHOLE),
    Received(LoginAcknowledged, 0, WHOLE),
    Received(AcknowledgeConfiguration, 0, WHOLE)
  ]

  const NEWCOMER := FRESH.(state := Login, version := V1_20_2)

  lemma WholeDelivery(c: Connection, s: Server, batch: seq<Clientbound>)
    requires c.client.kick == None
    ensures var d := Deliver(c, s, batch, WHOLE);
            && Trace(d.sent) == Trace(c.sent) + batch && d.open == c.open
            && d.client == c.client.(keepAlive := d.client.keepAlive)
  {
    BatchGrows(c.(wasInPlay := c.wasInPlay || Enters(c)), s, batch, WHOLE);
    WritesAppend(c.(wasInPlay := c.wasInPlay || Enters(c)), s, batch);
  }

  lemma NothingRun(s: Server)
    ensures Run(s, []) == ACCEPTED
  {
  }

  lemma AcknowledgedUnasked(s: Server)
    requires ConfigurationPackets(V1_20_2, s).Queued?
    ensures var c := Run(s, SKIPPED_LOGIN[..2]);
            && c.open && Trace(c.sent) == ConfigurationPackets(V1_20_2, s).batch
            && c.client == NEWCOMER.(state := Configuration, keepAlive := c.client.keepAlive)
  {
    hide ConfigurationPackets, Deliver, Run;
    var e1, e2 := SKIPPED_LOGIN[0], SKIPPED_LOGIN[1];
    RunOne(s, [], e1);
    RunOne(s, [e1], e2);
    assert [] + [e1] == [e1] && [e1] + [e2] == SKIPPED_LOGIN[..2];
    HandshakeStep(s, V1_20_2);
    NothingRun(s);
    var c := Run(s, [e1]);
    WholeDelivery(c.(client := c.client.(state := Configuration)), s, ConfigurationPackets(V1_20_2, s).batch);
  }

  // A client that acknowledges a login that has not ended is in play all the same, without a profile.
  lemma LoginCanBeSkipped(s: Server)
    requires ConfigurationPackets(V1_20_2, s).Queued? && PlayPackets([], NEWCOMER, s).Queued?
    ensures var c := Run(s, SKIPPED_LOGIN);
            && c.open && c.client.state == Play && c.client.profile == None
            && Trace(c.sent) == ConfigurationPackets(V1_20_2, s).batch + PlayPackets([], NEWCOMER, s).batch
    ensures !Succeeds(s, SKIPPED_LOGIN)
  {
    hide ConfigurationPackets, PlayPackets, Deliver, Run, Succeeds;
    var before := Run(s, SKIPPED_LOGIN[..2]);
    AcknowledgedUnasked(s);
    RunOne(s, SKIPPED_LOGIN[..2], SKIPPED_LOGIN[2]);
    assert SKIPPED_LOGIN[..2] + [SKIPPED_LOGIN[2]] == SKIPPED_LOGIN;
    SamePlay(NEWCOMER, before.client, s);
    WholeDelivery(before.(client := before.client.InPlay()), s, PlayPackets([], before.client, s).batch);
    NoneSucceeds(s);
  }

  // What is sent on entering play depends on the version and the profile alone.
  lemma SamePlay(c: Client, d: Client, s: Server)
    requires c.version == d.version && c.profile == d.profile
    ensures PlayPackets([], c, s) == PlayPackets([], d, s)
  {
  }

  lemma NoneSucceeds(s: Server)
    requires ConfigurationPackets(V1_20_2, s).Queued?
    ensures !Succeeds(s, SKIPPED_LOGIN)
  {
    hide Run, SucceedsAt;
    if Succeeds(s, SKIPPED_LOGIN) {
      var n: nat, p: Profile :| SucceedsAt(s, SKIPPED_LOGIN, n, p);
      SuccessAnswersLoginPacket(s, SKIPPED_LOGIN, n, p);
    }
  }
}
