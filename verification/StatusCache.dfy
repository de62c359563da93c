/** The cache of the upstream's status data, used by many pings at once. */
module StatusCache {
  import opened Prelude

  type Json = string

  datatype Cache = Cache(value: Option<Json>, fetchedAt: Option<nat>, fallback: Option<Json>)

  // What comes of asking the upstream: its data, a response without any, or no response.
  datatype Fetch = Found(value: Json) | Missing | Failed

  function Or(a: Option<Json>, b: Option<Json>): Option<Json> { if a.Some? then a else b }

  predicate IsFresh(c: Cache, now: nat, ttl: nat) {
    c.value.Some? && c.fetchedAt.Some? && now < c.fetchedAt.value + ttl
  }

  // The cache after a fetch; a response without data counts as contact but leaves the value alone.
  function Absorb(c: Cache, f: Fetch, now: nat): Cache {
    match f
    case Found(v) => c.(value := Some(v), fetchedAt := Some(now))
    case Missing => c.(fetchedAt := Some(now))
    case Failed => c
  }

  // ---- The cache --------------------------------------------------------------------------------

  // Each method is what one call does while it holds the lock. The upstream is asked in between, without it.
  class ForgeStatusCache {
    var value: Option<Json>
    var fetchedAt: Option<nat>
    var snapshotFallback: Option<Json>
    const ttl: nat

    function View(): Cache
      reads this
    {
      Cache(value, fetchedAt, snapshotFallback)
    }

    constructor (ttl: nat, snapshotFallback: Option<Json>)
      ensures View() == Cache(None, None, snapshotFallback) && this.ttl == ttl
    {
      value, fetchedAt, this.snapshotFallback, this.ttl := None, None, snapshotFallback, ttl;
    }

    // The fresh value, or the fallback to remember while the upstream is asked.
    method BeginGet(now: nat) returns (hit: Option<Json>, fallback: Option<Json>)
      ensures hit == if IsFresh(View(), now, ttl) then value else None
      ensures fallback == snapshotFallback
    {
      fallback := snapshotFallback;
      if value.Some? && fetchedAt.Some? && now < fetchedAt.value + ttl {
        return value, fallback;
      }
      hit := None;
    }

    method FinishGet(fetch: Fetch, fallback: Option<Json>, now: nat) returns (answer: Option<Json>)
      modifies this
      ensures View() == Absorb(old(View()), fetch, now)
      ensures answer == Or(value, if fetch.Found? then None else fallback)
    {
      match fetch {
        case Found(v) =>
          value := Some(v);
          fetchedAt := Some(now);
          answer := Some(v);
        case Missing =>
          fetchedAt := Some(now);
          answer := Or(value, fallback);
        case Failed => answer := Or(value, fallback);
      }
    }

    method FinishRefresh(fetch: Fetch, now: nat) returns (ok: bool)
      modifies this
      ensures View() == Absorb(old(View()), fetch, now) && ok == !fetch.Failed?
    {
      if fetch.Failed? {
        return false;
      }
      if fetch.Found? {
        value := Some(fetch.value);
      }
      fetchedAt := Some(now);
      ok := true;
    }

    method ReplaceSnapshotFallback(fallback: Option<Json>)
      modifies this
      ensures View() == old(View()).(fallback := fallback)
    {
      snapshotFallback := fallback;
    }
  }

  // ---- Many calls at once -----------------------------------------------------------------------

  // How far a call has come. `hit` says that the upstream was not asked.
  datatype Call =
    | Asking(refresh: bool, fallback: Option<Json>)
    | Heard(refresh: bool, fallback: Option<Json>, fetch: Fetch)
    | Returned(answer: Option<Json>, hit: bool)
    | Refreshed(ok: bool)

  // `fetched` holds what the upstream ever returned, `contacts` when a response was taken in.
  datatype System = System(cache: Cache, calls: seq<Call>, now: nat, fetched: set<Json>, contacts: seq<nat>)

  datatype Action =
    | Get
    | Refresh
    | Hear(i: nat, fetch: Fetch)
    | Finish(i: nat)
    | Replace(fallback: Option<Json>)
    | Wait(time: nat)

  datatype Config = Config(active: bool, ttl: nat)

  function Start(cfg: Config, fallback: Option<Json>): System { System(Cache(None, None, fallback), [], 0, {}, []) }

  function BeginCall(sys: System, cfg: Config): Call {
    if !cfg.active then Returned(None, false)
    else if IsFresh(sys.cache, sys.now, cfg.ttl) then Returned(sys.cache.value, true)
    else Asking(false, sys.cache.fallback)
  }

  function FinishCall(sys: System, i: nat): System
    requires i < |sys.calls| && sys.calls[i].Heard?
  {
    var call := sys.calls[i];
    var cache := Absorb(sys.cache, call.fetch, sys.now);
    var done := if call.refresh then Refreshed(!call.fetch.Failed?)
                else Returned(Or(cache.value, if call.fetch.Found? then None else call.fallback), false);
    sys.(cache := cache, calls := sys.calls[i := done],
         contacts := if call.fetch.Failed? then sys.contacts else sys.contacts + [sys.now])
  }

  function Next(sys: System, cfg: Config, a: Action): System {
    match a
    case Get => sys.(calls := sys.calls + [BeginCall(sys, cfg)])
    case Refresh => sys.(calls := sys.calls + [Asking(true, None)])
    case Hear(i, fetch) =>
      if i < |sys.calls| && sys.calls[i].Asking? then
        sys.(calls := sys.calls[i := Heard(sys.calls[i].refresh, sys.calls[i].fallback, fetch)],
             fetched := if fetch.Found? then sys.fetched + {fetch.value} else sys.fetched)
      else sys
    case Finish(i) => if i < |sys.calls| && sys.calls[i].Heard? then FinishCall(sys, i) else sys
    case Replace(fallback) => sys.(cache := sys.cache.(fallback := fallback))
    case Wait(time) => sys.(now := sys.now + time)
  }

  function After(sys: System, cfg: Config, actions: seq<Action>): System {
    if actions == [] then sys else Next(After(sys, cfg, actions[..|actions| - 1]), cfg, actions[|actions| - 1])
  }

  // What is stored or on its way came from the upstream, and the time stamp is that of the last response.
  predicate Valid(sys: System) {
    && (sys.cache.value.Some? ==> sys.cache.value.value in sys.fetched)
    && (forall i :: 0 <= i < |sys.calls| && sys.calls[i].Heard? && sys.calls[i].fetch.Found? ==>
          sys.calls[i].fetch.value in sys.fetched)
    && sys.cache.fetchedAt == (if sys.contacts == [] then None else Some(sys.contacts[|sys.contacts| - 1]))
  }

  // A call that is over stays over; a get that ends while a value is stored gives a fetched one.
  ghost predicate Continues(before: System, after: System) {
    && |before.calls| <= |after.calls|
    && before.fetched <= after.fetched
    && (before.cache.value.Some? ==> after.cache.value.Some?)
    && (forall i :: 0 <= i < |before.calls| && (before.calls[i].Returned? || before.calls[i].Refreshed?) ==>
          after.calls[i] == before.calls[i])
    && (before.cache.value.Some? ==> forall i :: Ends(i, before, after) ==>
         Genuine(after.calls[i].answer, after.fetched))
  }

  // Call i is a get that returns in between.
  predicate Ends(i: int, before: System, after: System) {
    && 0 <= i < |after.calls| && after.calls[i].Returned?
    && !(i < |before.calls| && before.calls[i].Returned?)
  }

  predicate Genuine(answer: Option<Json>, fetched: set<Json>) { answer.Some? && answer.value in fetched }

  lemma NextContinues(sys: System, cfg: Config, a: Action)
    requires Valid(sys) && cfg.active
    ensures Valid(Next(sys, cfg, a)) && Continues(sys, Next(sys, cfg, a))
  {
  }

  lemma {:induction false} AfterContinues(sys: System, cfg: Config, actions: seq<Action>)
    requires Valid(sys) && cfg.active
    ensures Valid(After(sys, cfg, actions)) && Continues(sys, After(sys, cfg, actions))
  {
    if actions == [] {
    } else {
      var m := |actions| - 1;
      var mid := After(sys, cfg, actions[..m]);
      AfterContinues(sys, cfg, actions[..m]);
      NextContinues(mid, cfg, actions[m]);
      var end := Next(mid, cfg, actions[m]);
      forall i | sys.cache.value.Some? && Ends(i, sys, end)
        ensures Genuine(end.calls[i].answer, end.fetched)
      {
        assert Ends(i, sys, mid) || Ends(i, mid, end);
      }
    }
  }

  // Under every interleaving: once a value is stored one stays stored, and every get of an active cache that ends
  // later gives a value the upstream returned, never the fallback and never nothing.
  lemma StoredIsNeverLost(cfg: Config, fallback: Option<Json>, actions: seq<Action>, more: seq<Action>)
    requires cfg.active && After(Start(cfg, fallback), cfg, actions).cache.value.Some?
    ensures var before := After(Start(cfg, fallback), cfg, actions);
            var after := After(before, cfg, more);
            && Genuine(after.cache.value, after.fetched)
            && forall i :: Ends(i, before, after) ==> Genuine(after.calls[i].answer, after.fetched)
  {
    AfterContinues(Start(cfg, fallback), cfg, actions);
    AfterContinues(After(Start(cfg, fallback), cfg, actions), cfg, more);
  }

  // A get goes without asking the upstream exactly when a value is stored and the last response is not older than
  // the time to live.
  lemma HitsAreRecent(cfg: Config, fallback: Option<Json>, actions: seq<Action>)
    requires cfg.active
    ensures var sys := After(Start(cfg, fallback), cfg, actions);
            var call := BeginCall(sys, cfg);
            (call.Returned? <==>
              sys.cache.value.Some? && sys.contacts != [] && sys.now < sys.contacts[|sys.contacts| - 1] + cfg.ttl)
            && (call.Returned? ==> call.hit && Genuine(call.answer, sys.fetched))
  {
    AfterContinues(Start(cfg, fallback), cfg, actions);
  }

  lemma AfterOne(sys: System, cfg: Config, actions: seq<Action>, a: Action)
    ensures After(sys, cfg, actions + [a]) == Next(After(sys, cfg, actions), cfg, a)
  {
  }

  function Gets(n: nat): seq<Action> { seq(n, _ => Get) }

  function Same(call: Call, n: nat): seq<Call> { seq(n, _ => call) }

  // Pings that come while the upstream is asked find the cache as the first one did.
  lemma {:induction false} GetsBeginAlike(sys: System, cfg: Config, n: nat)
    ensures After(sys, cfg, Gets(n)) == sys.(calls := sys.calls + Same(BeginCall(sys, cfg), n))
  {
    if n == 0 {
      assert sys.calls + [] == sys.calls;
    } else {
      GetsBeginAlike(sys, cfg, n - 1);
      AfterOne(sys, cfg, Gets(n - 1), Get);
      assert Gets(n) == Gets(n - 1) + [Get];
      assert Same(BeginCall(sys, cfg), n) == Same(BeginCall(sys, cfg), n - 1) + [BeginCall(sys, cfg)];
    }
  }

  // Of any number of pings one after the other, all ask the upstream or none does: all exactly if the cache is not
  // fresh, whatever value is stored.
  lemma StaleGetsAllAsk(sys: System, cfg: Config, n: nat)
    requires cfg.active && n > 0
    ensures After(sys, cfg, Gets(n)).calls == sys.calls + Same(Asking(false, sys.cache.fallback), n) <==>
              !IsFresh(sys.cache, sys.now, cfg.ttl)
    ensures After(sys, cfg, Gets(n)).calls == sys.calls + Same(Returned(sys.cache.value, true), n) <==>
              IsFresh(sys.cache, sys.now, cfg.ttl)
  {
    GetsBeginAlike(sys, cfg, n);
    var calls := After(sys, cfg, Gets(n)).calls;
    assert calls[|sys.calls|] == BeginCall(sys, cfg);
    assert (sys.calls + Same(Asking(false, sys.cache.fallback), n))[|sys.calls|] == Asking(false, sys.cache.fallback);
    assert (sys.calls + Same(Returned(sys.cache.value, true), n))[|sys.calls|] == Returned(sys.cache.value, true);
  }

  lemma OneFetch(cfg: Config, fallback: Option<Json>, v: Json)
    requires cfg.active
    ensures After(Start(cfg, fallback), cfg, [Get, Hear(0, Found(v)), Finish(0), Wait(cfg.ttl)]) ==
              System(Cache(Some(v), Some(0), fallback), [Returned(Some(v), false)], cfg.ttl, {v}, [0])
  {
    hide After;
    var start := Start(cfg, fallback);
    AfterNone(start, cfg);
    AfterOne(start, cfg, [], Get);
    assert [] + [Get] == [Get];
    assert After(start, cfg, [Get]) == start.(calls := [Asking(false, fallback)]);
    AfterOne(start, cfg, [Get], Hear(0, Found(v)));
    assert [Get] + [Hear(0, Found(v))] == [Get, Hear(0, Found(v))];
    assert After(start, cfg, [Get, Hear(0, Found(v))]) ==
             start.(calls := [Heard(false, fallback, Found(v))], fetched := {v});
    AfterOne(start, cfg, [Get, Hear(0, Found(v))], Finish(0));
    AfterOne(start, cfg, [Get, Hear(0, Found(v)), Finish(0)], Wait(cfg.ttl));
    assert [Get, Hear(0, Found(v))] + [Finish(0)] == [Get, Hear(0, Found(v)), Finish(0)];
    assert [Get, Hear(0, Found(v)), Finish(0)] + [Wait(cfg.ttl)] == [Get, Hear(0, Found(v)), Finish(0), Wait(cfg.ttl)];
  }

  lemma AfterNone(sys: System, cfg: Config)
    ensures After(sys, cfg, []) == sys
  {
  }

  // A value was stored and has gone stale: two pings both fetch, and neither is given it.
  lemma StaleValueIsFetchedTwice(cfg: Config, fallback: Option<Json>, v: Json)
    requires cfg.active
    ensures var sys := After(Start(cfg, fallback), cfg, [Get, Hear(0, Found(v)), Finish(0), Wait(cfg.ttl), Get, Get]);
            && sys.cache.value == Some(v)
            && sys.calls == [Returned(Some(v), false), Asking(false, fallback), Asking(false, fallback)]
  {
    hide After;
    var start, first := Start(cfg, fallback), [Get, Hear(0, Found(v)), Finish(0), Wait(cfg.ttl)];
    OneFetch(cfg, fallback, v);
    AfterOne(start, cfg, first, Get);
    AfterOne(start, cfg, first + [Get], Get);
    assert first + [Get] + [Get] == [Get, Hear(0, Found(v)), Finish(0), Wait(cfg.ttl), Get, Get];
  }

  // A response without data is remembered as contact, but makes the next ping a hit only if a value is stored.
  lemma ResponseWithoutData(sys: System, cfg: Config, i: nat)
    requires cfg.active && i < |sys.calls| && sys.calls[i].Heard? && sys.calls[i].fetch.Missing?
    ensures var after := Next(sys, cfg, Finish(i));
            && after.cache == sys.cache.(fetchedAt := Some(sys.now))
            && (BeginCall(after, cfg).Returned? <==> sys.cache.value.Some? && cfg.ttl > 0)
  {
  }

  // A get under way since the fallback was `fallback`; if it is over and nothing is stored, it gave that fallback.
  predicate Remembers(call: Call, fallback: Option<Json>, value: Option<Json>) {
    match call
    case Asking(refresh, f) => !refresh && f == fallback
    case Heard(refresh, f, _) => !refresh && f == fallback
    case Returned(answer, hit) => !hit && (value == None ==> answer == fallback)
    case Refreshed(_) => false
  }

  lemma {:induction false} GetRemembers(sys: System, cfg: Config, i: nat, fallback: Option<Json>, more: seq<Action>)
    requires i < |sys.calls| && Remembers(sys.calls[i], fallback, sys.cache.value)
    ensures var after := After(sys, cfg, more);
            i < |after.calls| && Remembers(after.calls[i], fallback, after.cache.value)
  {
    if more == [] {
    } else {
      GetRemembers(sys, cfg, i, fallback, more[..|more| - 1]);
    }
  }

  // Under every interleaving: a get that has to ask the upstream, and ends with nothing stored, gives the fallback in
  // force when it began, whatever has replaced it since.
  lemma FallbackIsGiven(sys: System, cfg: Config, more: seq<Action>)
    requires cfg.active && !IsFresh(sys.cache, sys.now, cfg.ttl)
    ensures var after := After(Next(sys, cfg, Get), cfg, more);
            && |sys.calls| < |after.calls|
            && (after.calls[|sys.calls|].Returned? && after.cache.value == None ==>
                  after.calls[|sys.calls|].answer == sys.cache.fallback)
  {
    GetRemembers(Next(sys, cfg, Get), cfg, |sys.calls|, sys.cache.fallback, more);
  }

  // A get gives its own data if it got any, and stores it; else it gives the value that is stored by then.
  lemma GetGives(sys: System, cfg: Config, i: nat)
    requires i < |sys.calls| && sys.calls[i].Heard? && !sys.calls[i].refresh
    ensures var after := Next(sys, cfg, Finish(i));
            && after.calls[i].Returned? && !after.calls[i].hit
            && match sys.calls[i].fetch
               case Found(v) => after.calls[i].answer == Some(v) == after.cache.value
               case _ => after.cache.value == sys.cache.value
                         && (sys.cache.value.Some? ==> after.calls[i].answer == sys.cache.value)
  {
  }

  // An inactive cache asks no one and gives nothing.
  lemma InactiveGivesNothing(sys: System, cfg: Config)
    requires !cfg.active
    ensures Next(sys, cfg, Get) == sys.(calls := sys.calls + [Returned(None, false)])
  {
  }

  // A refresh always asks the upstream, takes its response in, and says whether there was one; it gives no answer.
  lemma RefreshAsks(sys: System, cfg: Config, fetch: Fetch)
    ensures var i := |sys.calls|;
            var asked := Next(sys, cfg, Refresh);
            var done := Next(Next(asked, cfg, Hear(i, fetch)), cfg, Finish(i));
            && |asked.calls| == i + 1 && asked.calls[i].Asking? && asked.cache == sys.cache
            && done.calls == sys.calls + [Refreshed(fetch != Failed)]
            && (fetch == Failed ==> done.cache == sys.cache)
            && (fetch != Failed ==> done.cache.fetchedAt == Some(sys.now) && done.cache.fallback == sys.cache.fallback)
            && (fetch != Failed ==> done.cache.value == if fetch.Found? then Some(fetch.value) else sys.cache.value)
  {
  }

  // A new fallback is the one that gets from then on remember, and changes nothing else.
  lemma FallbackIsReplaced(sys: System, cfg: Config, fallback: Option<Json>)
    requires cfg.active && !IsFresh(sys.cache, sys.now, cfg.ttl)
    ensures var after := Next(sys, cfg, Replace(fallback));
            && after == sys.(cache := after.cache)
            && after.cache.value == sys.cache.value && after.cache.fetchedAt == sys.cache.fetchedAt
            && Next(after, cfg, Get).calls == sys.calls + [Asking(false, fallback)]
  {
  }
}
