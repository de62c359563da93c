/** The number of online players, shared by the tasks of all connections. */
module OnlineCounter {
  import Bits
  import opened Packets
  import opened Handlers
  import opened Connections
  import opened ConnectionTraces

  // The counter is an unsigned 32-bit number that wraps around.
  const WORD: nat := 0x1_0000_0000

  // A connection's task: whether it has counted its player in, and whether it is over.
  datatype Task = Task(connection: Connection, counted: bool, over: bool) {
    predicate Counts() { counted && !over }
    // In between, the task waits for the lock on the counter.
    predicate Settled() { connection.wasInPlay ==> counted }
  }

  datatype System = System(tasks: seq<Task>, online: nat)

  // One thing that happens, to the task with the given number.
  datatype Action =
    | Accept
    | Wake(i: nat, event: Event)
    | Increment(i: nat)
    | Leave(i: nat)

  // A task first counts its player in, before anything else happens to it, and counts it out when it is over.
  predicate Enabled(sys: System, a: Action) {
    match a
    case Accept => true
    case Wake(i, _) => i < |sys.tasks| && !sys.tasks[i].over && sys.tasks[i].connection.open && sys.tasks[i].Settled()
    case Increment(i) => i < |sys.tasks| && !sys.tasks[i].over && !sys.tasks[i].Settled()
    case Leave(i) => i < |sys.tasks| && !sys.tasks[i].over && !sys.tasks[i].connection.open && sys.tasks[i].Settled()
  }

  function FetchAdd(n: nat): nat { (n + 1) % WORD }

  function FetchSub(n: nat): nat { (n - 1) % WORD }

  function Next(sys: System, s: Server, a: Action): System {
    if !Enabled(sys, a) then sys
    else match a
      case Accept => sys.(tasks := sys.tasks + [Task(ACCEPTED, false, false)])
      case Wake(i, event) =>
        var t := sys.tasks[i];
        sys.(tasks := sys.tasks[i := t.(connection := React(t.connection, s, event))])
      case Increment(i) =>
        System(sys.tasks[i := sys.tasks[i].(counted := true)], FetchAdd(sys.online))
      case Leave(i) =>
        var t := sys.tasks[i];
        System(sys.tasks[i := t.(over := true)], if t.connection.wasInPlay then FetchSub(sys.online) else sys.online)
  }

  function Run(s: Server, actions: seq<Action>): System {
    if actions == [] then System([], 0) else Next(Run(s, actions[..|actions| - 1]), s, actions[|actions| - 1])
  }

  function Counting(tasks: seq<Task>): (n: nat)
    ensures n <= |tasks|
  {
    if tasks == [] then 0
    else Counting(tasks[..|tasks| - 1]) + if tasks[|tasks| - 1].Counts() then 1 else 0
  }

  lemma {:induction false} CountingUpdated(tasks: seq<Task>, i: nat, t: Task)
    requires i < |tasks|
    ensures Counting(tasks[i := t]) ==
              Counting(tasks) - (if tasks[i].Counts() then 1 else 0) + (if t.Counts() then 1 else 0)
  {
    var m := |tasks| - 1;
    if i < m {
      CountingUpdated(tasks[..m], i, t);
      assert tasks[i := t][..m] == tasks[..m][i := t];
    } else {
      assert tasks[i := t][..m] == tasks[..m];
    }
  }

  lemma {:induction false} CountingOne(tasks: seq<Task>, i: nat)
    requires i < |tasks| && tasks[i].Counts()
    ensures Counting(tasks) >= 1
  {
    CountingUpdated(tasks, i, tasks[i].(over := true));
  }

  // A task has counted its player in only if its connection is in play.
  predicate Steady(t: Task) { Orderly(t.connection) && (t.counted ==> t.connection.wasInPlay) }

  predicate Valid(sys: System) {
    sys.online == Counting(sys.tasks) % WORD && forall i :: 0 <= i < |sys.tasks| ==> Steady(sys.tasks[i])
  }

  lemma {:induction false} Wraps(n: nat)
    ensures FetchAdd(n % WORD) == (n + 1) % WORD
    ensures n > 0 ==> FetchSub(n % WORD) == (n - 1) % WORD
  {
    var q, r := n / WORD, n % WORD;
    if r + 1 == WORD {
      Bits.DivModUnique(n + 1, WORD, q + 1, 0);
    } else {
      Bits.DivModUnique(n + 1, WORD, q, r + 1);
    }
    if n > 0 {
      if r == 0 {
        Bits.DivModUnique(n - 1, WORD, q - 1, WORD - 1);
      } else {
        Bits.DivModUnique(n - 1, WORD, q, r - 1);
      }
    }
  }

  lemma {:induction false} WakeIsSteady(t: Task, s: Server, event: Event)
    requires Steady(t)
    ensures Steady(t.(connection := React(t.connection, s, event)))
  {
    ReactionIsOrderly(t.connection, s, event);
  }

  lemma {:induction false} CountsIn(sys: System, s: Server, i: nat)
    requires Valid(sys) && Enabled(sys, Increment(i))
    ensures Valid(Next(sys, s, Increment(i)))
  {
    CountingUpdated(sys.tasks, i, sys.tasks[i].(counted := true));
    Wraps(Counting(sys.tasks));
  }

  lemma {:induction false} CountsOut(sys: System, s: Server, i: nat)
    requires Valid(sys) && Enabled(sys, Leave(i))
    ensures Valid(Next(sys, s, Leave(i)))
  {
    CountingUpdated(sys.tasks, i, sys.tasks[i].(over := true));
    Wraps(Counting(sys.tasks));
    if sys.tasks[i].connection.wasInPlay {
      CountingOne(sys.tasks, i);
    }
  }

  lemma {:induction false} AcceptsOne(sys: System, s: Server)
    requires Valid(sys)
    ensures Valid(Next(sys, s, Accept))
  {
    assert (sys.tasks + [Task(ACCEPTED, false, false)])[..|sys.tasks|] == sys.tasks;
    assert Trace([]) == [];
  }

  lemma {:induction false} WakesUp(sys: System, s: Server, i: nat, event: Event)
    requires Valid(sys) && Enabled(sys, Wake(i, event))
    ensures Valid(Next(sys, s, Wake(i, event)))
  {
    var t := sys.tasks[i];
    WakeIsSteady(t, s, event);
    CountingUpdated(sys.tasks, i, t.(connection := React(t.connection, s, event)));
  }

  lemma {:induction false} NextIsValid(sys: System, s: Server, a: Action)
    requires Valid(sys)
    ensures Valid(Next(sys, s, a))
  {
    if Enabled(sys, a) {
      match a
      case Accept => AcceptsOne(sys, s);
      case Wake(i, event) => WakesUp(sys, s, i, event);
      case Increment(i) => CountsIn(sys, s, i);
      case Leave(i) => CountsOut(sys, s, i);
    }
  }

  lemma {:induction false} RunIsValid(s: Server, actions: seq<Action>)
    ensures Valid(Run(s, actions))
  {
    if actions == [] {
    } else {
      RunIsValid(s, actions[..|actions| - 1]);
      NextIsValid(Run(s, actions[..|actions| - 1]), s, actions[|actions| - 1]);
    }
  }

  // Players in play, among tasks that are not over.
  function Playing(tasks: seq<Task>): nat {
    if tasks == [] then 0
    else
      var t := tasks[|tasks| - 1];
      Playing(tasks[..|tasks| - 1]) + if t.connection.client.state == Play && !t.over then 1 else 0
  }

  lemma {:induction false} CountingIsPlaying(tasks: seq<Task>)
    requires forall i :: 0 <= i < |tasks| ==> Steady(tasks[i])
    ensures Counting(tasks) <= Playing(tasks)
    ensures AllSettled(tasks) ==> Counting(tasks) == Playing(tasks)
  {
    if tasks == [] {
    } else {
      CountingIsPlaying(tasks[..|tasks| - 1]);
    }
  }

  lemma {:induction false} OnlineIsCounting(s: Server, actions: seq<Action>)
    requires Counting(Run(s, actions).tasks) < WORD
    ensures Run(s, actions).online == Counting(Run(s, actions).tasks)
  {
    RunIsValid(s, actions);
    Bits.DivModUnique(Counting(Run(s, actions).tasks), WORD, 0, Counting(Run(s, actions).tasks));
  }

  predicate AllSettled(tasks: seq<Task>) { forall i :: 0 <= i < |tasks| ==> tasks[i].Settled() }

  predicate AllOver(tasks: seq<Task>) { forall i :: 0 <= i < |tasks| ==> tasks[i].over }

  // Under every interleaving, as long as fewer than 2^32 players are counted in at a time: the counter is the number
  // of tasks that have counted their player in and are not over, which is the number of players in play but for the
  // tasks that still wait to count; and it is back at zero when every task is over.
  lemma {:induction false} CounterIsConserved(s: Server, actions: seq<Action>)
    requires Counting(Run(s, actions).tasks) < WORD
    ensures var sys := Run(s, actions);
            && sys.online == Counting(sys.tasks) <= Playing(sys.tasks)
            && (AllSettled(sys.tasks) ==> sys.online == Playing(sys.tasks))
            && (AllOver(sys.tasks) ==> sys.online == 0)
  {
    RunIsValid(s, actions);
    OnlineIsCounting(s, actions);
    CountingIsPlaying(Run(s, actions).tasks);
    if AllOver(Run(s, actions).tasks) {
      NoneCounts(Run(s, actions).tasks);
    }
  }

  lemma {:induction false} NoneCounts(tasks: seq<Task>)
    requires AllOver(tasks)
    ensures Counting(tasks) == 0
  {
    if tasks == [] {
    } else {
      NoneCounts(tasks[..|tasks| - 1]);
    }
  }

  // The counter is never taken below zero.
  lemma {:induction false} NeverUnderflows(s: Server, actions: seq<Action>, i: nat)
    requires var sys := Run(s, actions);
             Counting(sys.tasks) < WORD && Enabled(sys, Leave(i)) && sys.tasks[i].connection.wasInPlay
    ensures Run(s, actions).online >= 1
    ensures Next(Run(s, actions), s, Leave(i)).online == Run(s, actions).online - 1
  {
    hide Run, Counting;
    var sys := Run(s, actions);
    OnlineIsCounting(s, actions);
    RunIsValid(s, actions);
    assert Steady(sys.tasks[i]);
    CountingOne(sys.tasks, i);
    Wraps(sys.online);
  }

  // Counting a player in raises the counter by one, and happens once for a task: its turn has come exactly when it is
  // in play and not counted yet.
  lemma {:induction false} CountsInOnce(s: Server, actions: seq<Action>, i: nat)
    requires var sys := Run(s, actions); i < |sys.tasks| && Counting(sys.tasks) + 1 < WORD
    ensures var sys := Run(s, actions);
            var next := Next(sys, s, Increment(i));
            && (Enabled(sys, Increment(i)) <==>
                  !sys.tasks[i].over && !sys.tasks[i].counted && sys.tasks[i].connection.client.state == Play)
            && (Enabled(sys, Increment(i)) ==>
                  next.online == sys.online + 1 && next.tasks[i] == sys.tasks[i].(counted := true)
                  && !Enabled(next, Increment(i)))
  {
    hide Run, Counting;
    var sys := Run(s, actions);
    RunIsValid(s, actions);
    OnlineIsCounting(s, actions);
    assert Steady(sys.tasks[i]);
    Wraps(sys.online);
  }

  // The counter wraps around at 2^32.
  lemma CounterWraps()
    ensures FetchAdd(0xFFFF_FFFF) == 0 && FetchSub(0) == 0xFFFF_FFFF
    ensures forall n: nat :: n < 0xFFFF_FFFF ==> FetchAdd(n) == n + 1 && FetchSub(n + 1) == n
  {
  }

  // A connection can be accepted at any time, and its task counts no one yet.
  lemma AcceptIsEnabled(sys: System, s: Server)
    ensures Enabled(sys, Accept)
    ensures var next := Next(sys, s, Accept);
            next.online == sys.online && |next.tasks| == |sys.tasks| + 1
            && next.tasks[..|sys.tasks|] == sys.tasks
            && next.tasks[|sys.tasks|] == Task(ACCEPTED, false, false)
  {
  }

  // No task is ever stuck: one that is not over either has its player to count in, or can be woken up, or can leave;
  // and only one of these. One that is over does nothing more.
  lemma TasksGoOn(sys: System, i: nat, event: Event)
    requires i < |sys.tasks|
    ensures var t := sys.tasks[i];
            if t.over then !Enabled(sys, Increment(i)) && !Enabled(sys, Wake(i, event)) && !Enabled(sys, Leave(i))
            else
              && (Enabled(sys, Increment(i)) <==> t.connection.wasInPlay && !t.counted)
              && (Enabled(sys, Wake(i, event)) <==> !Enabled(sys, Increment(i)) && t.connection.open)
              && (Enabled(sys, Leave(i)) <==> !Enabled(sys, Increment(i)) && !t.connection.open)
  {
  }

  // A task that wakes up reacts as its connection does, and no other changes.
  lemma WakeReacts(sys: System, s: Server, i: nat, event: Event)
    requires Enabled(sys, Wake(i, event))
    ensures var next := Next(sys, s, Wake(i, event));
            && next.online == sys.online && |next.tasks| == |sys.tasks|
            && next.tasks[i] == sys.tasks[i].(connection := React(sys.tasks[i].connection, s, event))
            && forall k :: 0 <= k < |sys.tasks| && k != i ==> next.tasks[k] == sys.tasks[k]
  {
    hide React;
  }
}
