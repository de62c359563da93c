/** When keep-alives and action bars are sent, and how a connection ends. */
module Timers {
  import opened Prelude
  import opened Packets
  import opened ClientStates
  import opened Handlers
  import opened Connections
  import opened ConnectionTraces
  import opened Admissions

  // ---- One reaction -----------------------------------------------------------------------------

  // What a connection remembers for its timers.
  predicate TimersAre(c: Connection, enabled: bool, bar: bool) {
    && c.client.state == Play && c.client.kick == None && c.wasInPlay
    && c.client.keepAlive == (if enabled then Enabled else ShouldEnable) && c.actionBar == bar
  }

  predicate TimersAreOff(c: Connection) {
    c.client.state != Play && c.client.keepAlive == Disabled && !c.actionBar && !c.wasInPlay
  }

  // The action bar is for versions from 1.8 (47) on.
  predicate WantsBar(s: Server, version: int) { s.actionBar && version >= 47 }

  lemma WritesKeepTimers(c: Connection, s: Server, batch: seq<Clientbound>, link: Link)
    ensures var d := WriteBatch(c, s, batch, link);
            d.client == c.client && d.actionBar == c.actionBar && d.wasInPlay == c.wasInPlay
  {
    WritesAppend(c, s, Carried(batch, link));
  }

  // Play begins with keep-alives to be turned on.
  predicate Begins(after: Client) {
    if after.state == Play then after.keepAlive == ShouldEnable && after.kick == None else after.keepAlive == Disabled
  }

  lemma PlayIsBegun(c: Client, s: Server, p: Serverbound, nonce: int)
    requires c.state != Play && c.keepAlive == Disabled && c.kick == None && p.Home() == c.state
    ensures Begins(OnPacket(c, s, p, nonce).0)
  {
    hide PlayPackets, ConfigurationPackets, OnLoginStart, OnCustomQueryAnswer, OnMove, OnChat;
    match p
    case LoginStart(login) => LoginBegins(c, s, login, nonce);
    case CustomQueryAnswer(id, proxied) => AnswerBegins(c, s, id, proxied);
    case _ =>
  }

  lemma LoginBegins(c: Client, s: Server, login: Profile, nonce: int)
    requires c.state != Play && c.keepAlive == Disabled && c.kick == None
    ensures Begins(OnLoginStart(c, s, login, nonce).0)
  {
    hide FireLoginSuccess;
    SuccessBegins(c, s, login);
  }

  lemma AnswerBegins(c: Client, s: Server, id: int, proxied: Option<Profile>)
    requires c.state != Play && c.keepAlive == Disabled && c.kick == None
    ensures Begins(OnCustomQueryAnswer(c, s, id, proxied).0)
  {
    hide FireLoginSuccess;
    if c.profile.Some? {
      SuccessBegins(c.(session := None), s, c.profile.value);
    }
    if proxied.Some? {
      SuccessBegins(c, s, proxied.value);
    }
  }

  lemma SuccessBegins(c: Client, s: Server, p: Profile)
    requires c.state != Play && c.keepAlive == Disabled && c.kick == None
    ensures Begins(FireLoginSuccess([], c, s, p).0)
  {
    hide PlayPackets;
  }

  lemma DeliverySettles(c: Connection, s: Server, batch: seq<Clientbound>, link: Link)
    requires c.client.state == Play && c.client.kick == None && c.client.keepAlive != Disabled
    ensures TimersAre(Deliver(c, s, batch, link), c.client.keepAlive == Enabled || link.Carries(|batch|),
                      c.actionBar || (!c.wasInPlay && link.Carries(|batch|) && WantsBar(s, c.client.version)))
  {
    hide WriteBatch;
    WritesKeepTimers(c.(wasInPlay := c.wasInPlay || Enters(c)), s, batch, link);
  }

  lemma DeliveryKeepsOff(c: Connection, s: Server, batch: seq<Clientbound>, link: Link)
    requires TimersAreOff(c)
    ensures TimersAreOff(Deliver(c, s, batch, link))
  {
    hide WriteBatch;
    WritesKeepTimers(c, s, batch, link);
  }

  // Before play there are no timers; play begins with them set by what the link carries of the batch.
  lemma ReactionBefore(c: Connection, s: Server, e: Event)
    requires TimersAreOff(c) && (c.open ==> c.client.kick == None)
    ensures var d := React(c, s, e);
            if d.client.state != Play then TimersAreOff(d)
            else c.open && e.Received? && e.packet.Home() == c.client.state
                 && OnPacket(c.client, s, e.packet, e.nonce).1.Queued?
                 && var carried := e.link.Carries(|OnPacket(c.client, s, e.packet, e.nonce).1.batch|);
                    TimersAre(d, carried, carried && WantsBar(s, d.client.version))
  {
    hide OnPacket, Deliver;
    if c.open && e.Received? && e.packet.Home() == c.client.state {
      PlayIsBegun(c.client, s, e.packet, e.nonce);
      var (client, reply) := OnPacket(c.client, s, e.packet, e.nonce);
      if reply.Queued? {
        DeliveryGrows(c.(client := client), s, reply.batch, e.link);
        if client.state == Play {
          DeliverySettles(c.(client := client), s, reply.batch, e.link);
        } else {
          DeliveryKeepsOff(c.(client := client), s, reply.batch, e.link);
        }
      } else {
        RefusedStaysOut(c.client, s, e.packet, e.nonce);
      }
    }
  }

  lemma PlayKeepsClient(c: Client, s: Server, p: Serverbound, nonce: int)
    requires p.Home() == Play
    ensures OnPacket(c, s, p, nonce).0 == c && OnPacket(c, s, p, nonce).1.Queued?
  {
  }

  // A packet in play that is heard, and answered in full.
  predicate AnsweredInFull(c: Connection, s: Server, e: Event) {
    && c.open && e.Received? && e.packet.Home() == c.client.state && OnPacket(c.client, s, e.packet, e.nonce).1.Queued?
    && e.link.Carries(|OnPacket(c.client, s, e.packet, e.nonce).1.batch|)
  }

  lemma ReactionInPlay(c: Connection, s: Server, e: Event, enabled: bool, bar: bool)
    requires TimersAre(c, enabled, bar)
    ensures TimersAre(React(c, s, e), enabled || AnsweredInFull(c, s, e), bar)
  {
    hide OnPacket, Deliver, WriteBatch;
    match e
    case KeepAliveTick(link) => WritesKeepTimers(c, s, [KeepAlive], link);
    case ActionBarTick(link) => WritesKeepTimers(c, s, ActionBarBatch(c, s), link);
    case Received(p, nonce, link) =>
      if p.Home() == Play {
        PlayKeepsClient(c.client, s, p, nonce);
        DeliverySettles(c, s, OnPacket(c.client, s, p, nonce).1.batch, link);
      }
    case _ =>
  }

  // ---- Runs -------------------------------------------------------------------------------------

  lemma {:induction false} NoTimersBeforePlay(s: Server, events: seq<Event>)
    requires Run(s, events).client.state != Play
    ensures TimersAreOff(Run(s, events))
  {
    hide React;
    if events == [] {
    } else {
      var m := |events| - 1;
      LaterIsFurther(s, events, m);
      NoTimersBeforePlay(s, events[..m]);
      KickedIsClosed(s, events[..m]);
      ReactionBefore(Run(s, events[..m]), s, events[m]);
    }
  }

  // Some packet since event n was answered in full.
  predicate AnsweredSince(s: Server, events: seq<Event>, n: nat) {
    exists j :: n <= j < |events| && AnsweredInFull(Run(s, events[..j]), s, events[j])
  }

  lemma AnsweredLater(s: Server, events: seq<Event>, n: nat)
    requires events != [] && n < |events|
    ensures var m := |events| - 1;
            AnsweredSince(s, events, n) <==>
              AnsweredSince(s, events[..m], n) || AnsweredInFull(Run(s, events[..m]), s, events[m])
  {
    hide AnsweredInFull, Run;
    var m := |events| - 1;
    assert forall j :: 0 <= j < m ==> events[..m][..j] == events[..j] && events[..m][j] == events[j];
  }

  // Over every run that entered play at event n: keep-alives are on exactly if some packet since has been answered in
  // full, and the action bar exactly if that packet was the one that led into play, and the server and the version
  // want one.
  lemma {:induction false} TimersRunWhen(s: Server, events: seq<Event>, n: nat)
    requires EntersAt(s, events, n)
    ensures var c := Run(s, events);
            TimersAre(c, AnsweredSince(s, events, n),
                      AnsweredInFull(Run(s, events[..n]), s, events[n]) && WantsBar(s, c.client.version))
  {
    hide React, AnsweredInFull;
    var m := |events| - 1;
    AnsweredLater(s, events, n);
    if n == m {
      assert events[..n + 1] == events;
      NoTimersBeforePlay(s, events[..n]);
      KickedIsClosed(s, events[..n]);
      EntryAnswers(Run(s, events[..n]), s, events[n]);
      assert !AnsweredSince(s, events[..n], n);
    } else {
      assert events[..m][..n] == events[..n] && events[..m][..n + 1] == events[..n + 1];
      TimersRunWhen(s, events[..m], n);
      LaterIsFurther(s, events, m);
      var bar := AnsweredInFull(Run(s, events[..n]), s, events[n]) && WantsBar(s, Run(s, events).client.version);
      ReactionInPlay(Run(s, events[..m]), s, events[m], AnsweredSince(s, events[..m], n), bar);
    }
  }

  lemma EntryAnswers(c: Connection, s: Server, e: Event)
    requires TimersAreOff(c) && (c.open ==> c.client.kick == None) && React(c, s, e).client.state == Play
    ensures var d := React(c, s, e);
            TimersAre(d, AnsweredInFull(c, s, e), AnsweredInFull(c, s, e) && WantsBar(s, d.client.version))
  {
    hide React, OnPacket;
    ReactionBefore(c, s, e);
  }

  // ---- Ticks ------------------------------------------------------------------------------------

  // A keep-alive is sent when its timer goes off in play, if keep-alives are on and the link carries it.
  lemma KeepAliveIsSent(s: Server, events: seq<Event>, link: Link)
    ensures var c, d := Run(s, events), Run(s, events + [KeepAliveTick(link)]);
            && d.client == c.client
            && Trace(d.sent) == Trace(c.sent) +
                 if c.open && c.client.state == Play && c.client.keepAlive == Enabled && link.Carries(1)
                 then [KeepAlive] else []
  {
    hide WriteBatch, Run, Trace, Carried;
    var c := Run(s, events);
    RunOne(s, events, KeepAliveTick(link));
    BatchGrows(c, s, [KeepAlive], link);
    assert Trace(c.sent) + [] == Trace(c.sent);
    OneIsCarried(KeepAlive, link);
  }

  // So is the action bar, in the packet of the version.
  lemma ActionBarIsSent(s: Server, events: seq<Event>, link: Link)
    ensures var c, d := Run(s, events), Run(s, events + [ActionBarTick(link)]);
            && d.client == c.client
            && Trace(d.sent) == Trace(c.sent) +
                 if c.open && c.client.state == Play && c.actionBar && WantsBar(s, c.client.version) && link.Carries(1)
                 then [BarFor(c.client.version)] else []
  {
    hide WriteBatch, Run, Trace, Carried;
    var c := Run(s, events);
    RunOne(s, events, ActionBarTick(link));
    BatchGrows(c, s, ActionBarBatch(c, s), link);
    assert Trace(c.sent) + [] == Trace(c.sent);
    OneIsCarried(BarFor(c.client.version), link);
  }

  // 1.17 is 755, 1.11 is 315.
  function BarFor(version: int): Clientbound {
    if version < 315 then LegacyChat else if version < 755 then LegacySetTitle else ActionBarText
  }

  lemma OneIsCarried(p: Clientbound, link: Link)
    ensures Carried([p], link) == if link.Carries(1) then [p] else []
    ensures Carried([], link) == []
  {
  }

  // ---- The end ----------------------------------------------------------------------------------

  // A lost connection is closed, and a closed one does nothing more; unreadable bytes are passed over.
  lemma {:induction false} ClosedForGood(s: Server, events: seq<Event>, k: nat)
    requires k < |events|
    ensures events[k] == Lost ==> !Run(s, events[..k + 1]).open
    ensures !Run(s, events[..k + 1]).open ==> Run(s, events) == Run(s, events[..k + 1])
    ensures events[k] == Unreadable ==> Run(s, events[..k + 1]) == Run(s, events[..k])
  {
    hide Process, WriteBatch;
    assert events[..k + 1][..k] == events[..k];
    if k + 1 == |events| {
      assert events[..k + 1] == events;
    } else {
      var m := |events| - 1;
      assert events[..m][..k + 1] == events[..k + 1];
      ClosedForGood(s, events[..m], k);
    }
  }

  // A kick tells the client so where the state has a packet for it, if there is room, and closes the connection.
  lemma KickTells(c: Connection, s: Server, room: bool)
    ensures var d := Kick(c, s, room);
            && !d.open && d.client == c.client
            && Trace(d.sent) == Trace(c.sent) + if !room then [] else
                 match c.client.state
                 case Login => [LoginDisconnect]
                 case Configuration => [ConfigurationDisconnect]
                 case Play => [PlayDisconnect]
                 case _ => []
  {
  }

  // An open connection is closed by a packet exactly if its handler refuses it for good, or a write of the answer fails
  // for good, or all of it gets through and the client is to be kicked.
  lemma PacketCloses(c: Connection, s: Server, p: Serverbound, nonce: int, link: Link)
    requires c.open && p.Home() == c.client.state
    ensures var (client, reply) := OnPacket(c.client, s, p, nonce);
            Process(c, s, p, nonce, link).open <==>
              match reply
              case Refused(fatal) => !fatal
              case Queued(batch) => if link.Carries(|batch|) then client.kick == None else !link.fatal
  {
    hide OnPacket;
    var (client, reply) := OnPacket(c.client, s, p, nonce);
    if reply.Queued? {
      WritesAppend(c.(client := client, wasInPlay := c.wasInPlay || Enters(c.(client := client))), s,
                   Carried(reply.batch, link));
    }
  }

  // A tick closes one exactly if the write it leads to fails for good.
  lemma TickCloses(c: Connection, s: Server, batch: seq<Clientbound>, link: Link)
    requires c.open
    ensures WriteBatch(c, s, batch, link).open <==> link.Carries(|batch|) || !link.fatal
  {
    WritesAppend(c, s, Carried(batch, link));
  }
}
