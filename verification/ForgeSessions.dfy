/** Playing a recorded handshake back, whatever the client answers. */
module ForgeSessions {
  import opened Prelude
  import opened ForgeReplay
  import opened Packets
  import opened ClientStates
  import opened Handlers
  import ConnectionTraces

  datatype Answer = Answer(id: int, proxied: Option<Profile>)

  // From a login start on: the client after some answers, and all that was sent to it.
  function Replay(c: Client, s: Server, login: Profile, answers: seq<Answer>): (Client, seq<Clientbound>) {
    if answers == [] then
      var (d, reply) := OnLoginStart(c, s, login, 0);
      (d, if reply.Queued? then reply.batch else [])
    else
      var (d, sent) := Replay(c, s, login, answers[..|answers| - 1]);
      var last := answers[|answers| - 1];
      if d.state != Login then (d, sent)
      else
        var (d, reply) := OnCustomQueryAnswer(d, s, last.id, last.proxied);
        (d, sent + if reply.Queued? then reply.batch else [])
  }

  // The step whose answer is awaited, one beyond the last when none is: only the answer to that step counts.
  function Awaited(answers: seq<Answer>, n: nat): (k: nat)
    ensures n > 0 ==> 1 <= k <= n + 1
  {
    if answers == [] then 1
    else
      var k := Awaited(answers[..|answers| - 1], n);
      if k <= n && answers[|answers| - 1].id == k then k + 1 else k
  }

  // The first k steps, asked under ids 1 to k.
  function Queries(steps: seq<Step>, k: nat): (ps: seq<Clientbound>)
    requires k <= |steps|
    ensures |ps| == k && forall i :: 0 <= i < k ==> ps[i] == QueryFor(i + 1, steps[i])
  {
    seq(k, i requires 0 <= i < k => QueryFor(i + 1, steps[i]))
  }

  function Graduate(c: Client, s: Server, login: Profile): (Client, seq<Clientbound>) {
    var d := c.WithProfile(login).(session := None);
    var (d, reply) := FireLoginSuccess([], d, s, d.profile.value);
    (d, if reply.Queued? then reply.batch else [])
  }

  // What the client is like and has been sent while the answer to step k is awaited, or once there is none to wait for.
  predicate At(k: nat, d: Client, sent: seq<Clientbound>, c: Client, s: Server, login: Profile)
    requires s.fml2.Some?
  {
    var steps := s.fml2.value;
    if 0 < k <= |steps| then
      d == c.WithProfile(login).(session := Some(Session(k, k, map[k := k - 1]))) && sent == Queries(steps, k)
    else
      (d, sent) == (Graduate(c, s, login).0, Queries(steps, |steps|) + Graduate(c, s, login).1)
  }

  lemma AnswerMoves(k: nat, d: Client, sent: seq<Clientbound>, c: Client, s: Server, login: Profile, a: Answer)
    requires c.state == Login && Replays(c, s) && !s.modernForwarding
    requires 1 <= k <= |s.fml2.value| && At(k, d, sent, c, s, login)
    ensures var (e, reply) := OnCustomQueryAnswer(d, s, a.id, a.proxied);
            At(if a.id == k then k + 1 else k, e, sent + if reply.Queued? then reply.batch else [], c, s, login)
  {
  }

  lemma GraduateIsSilent(k: nat, d: Client, sent: seq<Clientbound>, c: Client, s: Server, login: Profile, a: Answer)
    requires c.state == Login && Replays(c, s) && !s.modernForwarding
    requires k > |s.fml2.value| && At(k, d, sent, c, s, login)
    ensures OnCustomQueryAnswer(d, s, a.id, a.proxied) == (d, Queued([]))
  {
  }

  // Between one login start and the next, with no proxy: the steps go out in order under ids 1, 2, ..., one at a
  // time, each on the answer to the one before; every other answer changes nothing; and login succeeds once, on the
  // answer to the last step.
  lemma {:induction false} ReplayFollowsAnswers(c: Client, s: Server, login: Profile, answers: seq<Answer>)
    requires c.state == Login && Replays(c, s) && !s.modernForwarding
    ensures var (d, sent) := Replay(c, s, login, answers);
            At(Awaited(answers, |s.fml2.value|), d, sent, c, s, login)
  {
    var steps := s.fml2.value;
    if answers == [] {
      assert map[][1 := 0] == map[1 := 0];
      assert Queries(steps, 1) == [QueryFor(1, steps[0])];
    } else {
      var m := |answers| - 1;
      ReplayFollowsAnswers(c, s, login, answers[..m]);
      var (d, sent) := Replay(c, s, login, answers[..m]);
      var k := Awaited(answers[..m], |steps|);
      hide At, OnCustomQueryAnswer, OnLoginStart;
      if k <= |steps| {
        AnswerMoves(k, d, sent, c, s, login, answers[m]);
      } else if d.state == Login {
        GraduateIsSilent(k, d, sent, c, s, login, answers[m]);
        assert sent + [] == sent;
      }
    }
  }

  predicate EndsOnlyAt(ps: seq<Clientbound>, k: int) {
    0 <= k < |ps| && forall i :: 0 <= i < |ps| ==> (ps[i].EndsLogin() <==> i == k)
  }

  // The success packet is sent exactly once when a client graduates, right before any play packets.
  lemma GraduatesOnce(c: Client, s: Server, login: Profile)
    requires FireLoginSuccess([], c.WithProfile(login).(session := None), s,
             c.WithProfile(login).profile.value).1.Queued?
    ensures var ps := Graduate(c, s, login).1;
            exists k :: EndsOnlyAt(ps, k)
  {
    hide PlayPackets;
    var d := c.WithProfile(login).(session := None);
    var b := SuccessPackets([], d.version, s, d.profile.value);
    var ps := Graduate(c, s, login).1;
    if !SupportsConfiguration(d.version) {
      ConnectionTraces.PlayAdds(b, d.WithProfile(d.profile.value), s);
      assert forall i :: 0 <= i < |b| ==> ps[i] == ps[..|b|][i] == b[i];
    }
    assert EndsOnlyAt(ps, |b| - 1);
  }

  // A replay takes precedence over forwarding to the end: who answers a recording of one step logs in under the name
  // they gave, and the proxy is not asked.
  lemma ReplayNeedsNoProxy(c: Client, s: Server, login: Profile, nonce: int)
    requires c.state == Login && Replays(c, s) && |s.fml2.value| == 1
    requires FireLoginSuccess([], c.WithProfile(login).(session := None), s,
             c.WithProfile(login).profile.value).1.Queued?
    ensures var d := OnLoginStart(c, s, login, nonce).0;
            var (e, reply) := OnCustomQueryAnswer(d, s, 1, None);
            && (e, reply) == (Graduate(c, s, login).0, Queued(Graduate(c, s, login).1))
            && !ConnectionTraces.Vouches(reply.batch, {})
  {
    assert map[][1 := 0] == map[1 := 0];
    AnsweredThenComplete(Session(1, 1, map[1 := 0]), 1, s.fml2.value);
    hide FireLoginSuccess;
    GraduatesOnce(c, s, login);
    var ps := Graduate(c, s, login).1;
    var k :| EndsOnlyAt(ps, k);
    assert ps[k].EndsLogin();
  }

  // A login start begins a replay exactly for clients of the two newer Forge protocols, if there is a recording with
  // steps; it sends the first step under id 1.
  lemma ReplayBeginsWhen(c: Client, s: Server, login: Profile, nonce: int)
    requires c.session == None
    ensures var (after, reply) := OnLoginStart(c, s, login, nonce);
            && (after.session.Some? <==> c.forgeKind !in {Vanilla, Fml1} && s.fml2.Some? && |s.fml2.value| > 0)
            && (after.session.Some? ==> reply == Queued([QueryFor(1, s.fml2.value[0])]))
  {
    hide FireLoginSuccess;
    ConnectionTraces.SessionIsKept(c, s, login);
  }
}
