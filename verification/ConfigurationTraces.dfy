/** How a connection is told that its configuration is over. */
module ConfigurationTraces {
  import opened Prelude
  import opened Packets
  import opened ClientStates
  import opened Handlers
  import opened Connections
  import opened ConnectionTraces
  import opened Admissions

  // ---- The batch --------------------------------------------------------------------------------

  predicate EndsConfiguration(ps: seq<Clientbound>) {
    && ps != [] && ps[|ps| - 1] == FinishConfiguration
    && forall i :: 0 <= i < |ps| - 1 ==> ps[i] != FinishConfiguration
  }

  // What is queued on an acknowledgement ends with the end of configuration, and brings what the version needs before:
  // registries in one packet or one each, the packs from 1.20.5 (766) on, and tags from 1.21.6 (771) on.
  lemma ConfigurationIsComplete(c: Client, s: Server)
    requires OnLoginAcknowledged(c, s).1.Queued?
    ensures var ps := OnLoginAcknowledged(c, s).1.batch;
            && EndsConfiguration(ps) && ps[0] == Brand
            && (KnownPacks in ps <==> c.version >= 766) && (UpdateTags in ps <==> c.version >= 771)
            && multiset(ps)[RegistryData] == (if c.version >= 766 then s.registries(c.version) else 1)
  {
    var n := if c.version >= 766 then s.registries(c.version) else 1;
    var front := FirstPackets(c.version);
    var ps := OnLoginAcknowledged(c, s).1.batch;
    assert ps == front + Copies(RegistryData, n) + [FinishConfiguration];
    FirstPacketsAre(c.version);
    hide *;
    Counted(front, n);
    Member(front, n, KnownPacks);
    Member(front, n, UpdateTags);
    assert ps[0] == front[0];
  }

  lemma ConfigurationHasEnd(c: Client, s: Server)
    requires OnLoginAcknowledged(c, s).1.Queued?
    ensures EndsConfiguration(OnLoginAcknowledged(c, s).1.batch)
  {
    hide OnLoginAcknowledged, EndsConfiguration;
    ConfigurationIsComplete(c, s);
  }

  function FirstPackets(version: int): seq<Clientbound> {
    When(When([Brand], version >= 766, KnownPacks), version >= 771, UpdateTags)
  }

  lemma FirstPacketsAre(version: int)
    ensures var ps := FirstPackets(version);
            && ps != [] && ps[0] == Brand && FinishConfiguration !in ps && RegistryData !in ps
            && (KnownPacks in ps <==> version >= 766) && (UpdateTags in ps <==> version >= 771)
  {
  }

  lemma Member(front: seq<Clientbound>, n: nat, p: Clientbound)
    requires p != RegistryData && p != FinishConfiguration
    ensures p in front + Copies(RegistryData, n) + [FinishConfiguration] <==> p in front
  {
  }

  lemma Counted(front: seq<Clientbound>, n: nat)
    requires FinishConfiguration !in front && RegistryData !in front
    ensures var ps := front + Copies(RegistryData, n) + [FinishConfiguration];
            EndsConfiguration(ps) && multiset(ps)[RegistryData] == n
  {
    var ps := front + Copies(RegistryData, n) + [FinishConfiguration];
    CountCopies(RegistryData, n);
    assert multiset(ps) == multiset(front) + multiset(Copies(RegistryData, n)) + multiset{FinishConfiguration};
    assert ps[|front| + n] == FinishConfiguration;
  }

  lemma {:induction false} CountCopies(p: Clientbound, n: nat)
    ensures multiset(Copies(p, n))[p] == n
  {
    if n == 0 {
    } else {
      CountCopies(p, n - 1);
      assert Copies(p, n) == Copies(p, n - 1) + [p];
    }
  }

  // ---- What follows -----------------------------------------------------------------------------

  // Of the configuration state, only a disconnect.
  predicate Quiet(p: Clientbound) {
    p != FinishConfiguration && (p.Home() == Configuration ==> p == ConfigurationDisconnect)
  }

  predicate AllQuiet(ps: seq<Clientbound>) { forall i :: 0 <= i < |ps| ==> Quiet(ps[i]) }

  predicate GoesOnQuietly(ps: seq<Clientbound>, longer: seq<Clientbound>) {
    && |ps| <= |longer| && longer[..|ps|] == ps
    && forall i :: |ps| <= i < |longer| ==> Quiet(longer[i])
  }

  lemma NothingIsQuiet(ps: seq<Clientbound>, link: Link)
    ensures GoesOnQuietly(ps + Carried([], link), ps)
  {
    assert Carried([], link) == [];
  }

  lemma QuietlyTwice(a: seq<Clientbound>, b: seq<Clientbound>, c: seq<Clientbound>)
    requires GoesOnQuietly(a, b) && GoesOnQuietly(b, c)
    ensures GoesOnQuietly(a, c)
  {
    assert c[..|a|] == c[..|b|][..|a|];
  }

  lemma BatchIsQuiet(c: Connection, s: Server, batch: seq<Clientbound>, link: Link)
    requires AllQuiet(batch)
    ensures GoesOnQuietly(Trace(c.sent), Trace(WriteBatch(c, s, batch, link).sent))
  {
    hide WriteBatch, Trace;
    BatchGrows(c, s, batch, link);
  }

  lemma ConclusionIsQuiet(c: Connection, s: Server, entered: bool, carried: bool, room: bool)
    ensures GoesOnQuietly(Trace(c.sent), Trace(Conclude(c, s, entered, carried, room).sent))
  {
  }

  lemma DeliveryIsQuiet(c: Connection, s: Server, batch: seq<Clientbound>, link: Link)
    ensures GoesOnQuietly(Trace(c.sent) + Carried(batch, link), Trace(Deliver(c, s, batch, link).sent))
  {
    hide WriteBatch, Conclude, Trace, Carried;
    var c' := c.(wasInPlay := c.wasInPlay || Enters(c));
    BatchGrows(c', s, batch, link);
    ConclusionIsQuiet(WriteBatch(c', s, batch, link), s, Enters(c), link.Carries(|batch|), link.Carries(|batch| + 1));
  }

  lemma RepliesAreQuiet(c: Client, s: Server, p: Serverbound, nonce: int)
    requires p.Home() == c.state && (c.state == Configuration || c.state == Play)
    requires OnPacket(c, s, p, nonce).1.Queued?
    ensures AllQuiet(OnPacket(c, s, p, nonce).1.batch)
  {
    hide PlayPackets, OnMove, OnChat;
    match p
    case AcknowledgeConfiguration => PlayAdds([], c, s);
    case MovePlayer(fell) => MoveIsQuiet(c, s, fell);
    case Chat(command) => ChatIsQuiet(c, command);
    case _ =>
  }

  lemma MoveIsQuiet(c: Client, s: Server, fell: bool)
    ensures OnMove(c, s, fell).Queued? && AllQuiet(OnMove(c, s, fell).batch)
  {
  }

  lemma ChatIsQuiet(c: Client, command: Option<Command>)
    ensures OnChat(c, command).Queued? && AllQuiet(OnChat(c, command).batch)
  {
  }

  // Once configuration has begun, the state sends nothing more than a disconnect.
  lemma ReactionIsQuiet(c: Connection, s: Server, e: Event)
    requires c.client.state == Configuration || c.client.state == Play
    ensures GoesOnQuietly(Trace(c.sent), Trace(React(c, s, e).sent))
  {
    hide OnPacket, Deliver, WriteBatch, Trace;
    match e
    case KeepAliveTick(link) => BatchIsQuiet(c, s, [KeepAlive], link);
    case ActionBarTick(link) => BatchIsQuiet(c, s, ActionBarBatch(c, s), link);
    case Received(p, nonce, link) =>
      var (client, reply) := OnPacket(c.client, s, p, nonce);
      if c.open && p.Home() == c.client.state && reply.Queued? {
        RepliesAreQuiet(c.client, s, p, nonce);
        CarriedQuietly(Trace(c.sent), reply.batch, link);
        DeliveryIsQuiet(c.(client := client), s, reply.batch, link);
        QuietlyTwice(Trace(c.sent), Trace(c.sent) + Carried(reply.batch, link), Trace(React(c, s, e).sent));
      }
    case _ =>
  }

  lemma CarriedQuietly(past: seq<Clientbound>, batch: seq<Clientbound>, link: Link)
    requires AllQuiet(batch)
    ensures GoesOnQuietly(past, past + Carried(batch, link))
  {
  }

  lemma {:induction false} RunIsQuiet(s: Server, events: seq<Event>, k: nat)
    requires k <= |events| && Stage(Run(s, events[..k]).client.state) >= 2
    ensures GoesOnQuietly(Trace(Run(s, events[..k]).sent), Trace(Run(s, events).sent))
  {
    hide React, Trace;
    if k == |events| {
      assert events[..k] == events;
    } else {
      var m := |events| - 1;
      assert events[..m][..k] == events[..k];
      RunIsQuiet(s, events[..m], k);
      LaterIsFurther(s, events[..m], k);
      ReactionIsQuiet(Run(s, events[..m]), s, events[m]);
      QuietlyTwice(Trace(Run(s, events[..k]).sent), Trace(Run(s, events[..m]).sent), Trace(Run(s, events).sent));
    }
  }

  // ---- Runs -------------------------------------------------------------------------------------

  // The end of configuration is packet k, once, and after it the state sends nothing but a disconnect.
  predicate FinishedAt(ps: seq<Clientbound>, k: nat) {
    && k < |ps| && ps[k] == FinishConfiguration
    && (forall i :: 0 <= i < |ps| && i != k ==> ps[i] != FinishConfiguration)
    && (forall i :: k < i < |ps| && ps[i].Home() == Configuration ==> ps[i] == ConfigurationDisconnect)
  }

  predicate Unfinished(ps: seq<Clientbound>) { forall i :: 0 <= i < |ps| ==> ps[i] != FinishConfiguration }

  function BatchFor(c: Client, s: Server, e: Event): seq<Clientbound>
    requires e.Received?
  {
    var reply := OnPacket(c, s, e.packet, e.nonce).1;
    if reply.Queued? then reply.batch else []
  }

  lemma AcknowledgementIsSent(c: Connection, s: Server, e: Event)
    requires c.open && c.client.state == Login && e.Received? && e.packet.LoginAcknowledged?
    ensures BatchFor(c.client, s, e) == [] || EndsConfiguration(BatchFor(c.client, s, e))
    ensures GoesOnQuietly(Trace(c.sent) + Carried(BatchFor(c.client, s, e), e.link), Trace(React(c, s, e).sent))
  {
    hide OnLoginAcknowledged, Deliver, Trace, EndsConfiguration, GoesOnQuietly, Carried;
    var (client, reply) := OnLoginAcknowledged(c.client, s);
    if reply.Queued? {
      ConfigurationHasEnd(c.client, s);
      DeliveryIsQuiet(c.(client := client), s, reply.batch, e.link);
    } else {
      NothingIsQuiet(Trace(c.sent), e.link);
    }
  }

  // What is sent when configuration is entered.
  lemma EntryIsSent(s: Server, events: seq<Event>, m: nat)
    requires EntersConfiguration(s, events, m)
    ensures events[m].Received? && Unfinished(Trace(Run(s, events[..m]).sent))
    ensures BatchAt(s, events, m) == [] || EndsConfiguration(BatchAt(s, events, m))
    ensures GoesOnQuietly(Trace(Run(s, events[..m]).sent) + Carried(BatchAt(s, events, m), events[m].link),
                          Trace(Run(s, events[..m + 1]).sent))
  {
    hide React, OnPacket, Trace, EndsConfiguration, Carried, GoesOnQuietly;
    var c := Run(s, events[..m]);
    assert events[..m + 1][..m] == events[..m];
    RunIsOrderly(s, events[..m]);
    AcknowledgementEnters(c, s, events[m]);
    LoginIsUnfinished(c);
    ClosedStays(c, s, events[m]);
    AcknowledgementIsSent(c, s, events[m]);
  }

  lemma LoginIsUnfinished(c: Connection)
    requires Orderly(c) && c.client.state == Login
    ensures Unfinished(Trace(c.sent))
  {
    var ps := Trace(c.sent);
    assert forall i :: 0 <= i < |ps| ==> Fit(ps[i], 0, c.client);
  }

  lemma LastIsCarried(past: seq<Clientbound>, batch: seq<Clientbound>, link: Link, all: seq<Clientbound>)
    requires Unfinished(past) && (batch == [] || EndsConfiguration(batch))
    requires GoesOnQuietly(past + Carried(batch, link), all)
    ensures if batch != [] && link.Carries(|batch|) then FinishedAt(all, |past| + |batch| - 1) else Unfinished(all)
  {
    var sent := past + Carried(batch, link);
    assert forall i :: 0 <= i < |sent| ==> all[i] == all[..|sent|][i] == sent[i];
  }

  // Over every run that has entered configuration: it is told that configuration is over exactly if all that was queued
  // on the acknowledgement got through; then once, after every other packet of the state but a disconnect.
  lemma FinishIsSentWhen(s: Server, events: seq<Event>, m: nat)
    requires EntersConfiguration(s, events, m) && events[m].Received?
    ensures var ps, batch := Trace(Run(s, events).sent), BatchAt(s, events, m);
            if batch != [] && events[m].link.Carries(|batch|)
            then FinishedAt(ps, |Run(s, events[..m]).sent| + |batch| - 1)
            else Unfinished(ps)
  {
    hide Run, BatchAt, Trace, Carried;
    var batch, past := BatchAt(s, events, m), Trace(Run(s, events[..m]).sent);
    EntryIsSent(s, events, m);
    RunIsQuiet(s, events, m + 1);
    QuietlyTwice(past + Carried(batch, events[m].link), Trace(Run(s, events[..m + 1]).sent),
                 Trace(Run(s, events).sent));
    LastIsCarried(past, batch, events[m].link, Trace(Run(s, events).sent));
  }
}
