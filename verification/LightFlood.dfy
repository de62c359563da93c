/** Starlight-style light propagation: a worklist of packed entries over the light volume, where an
    entry may be stale and skips the direction it came from, proved to compute the exact flood. */
module LightFlood {
  import opened LightVolume
  import opened LightQueue

  // ---- The volume as a graph of indices ----------------------------------------------------

  // `next(i, dir)` is the index reached from i in direction dir, or -1 at the border; `reached(level, i)`
  // is any relation that holds of the seeds and follows light into transparent neighbours.
  datatype Scene = Scene(seeds: seq<nat>, transparent: seq<bool>, next: (nat, Direction) -> int,
                         reached: (int, nat) -> bool)
  {
    ghost predicate Valid() {
      && |seeds| == |transparent| <= 0x7FFF_FFFF
      && (forall i: nat :: i < |seeds| ==> seeds[i] <= 15 && reached(seeds[i], i))
      && (forall i: nat, dir: Direction :: i < |seeds| ==> -1 <= next(i, dir) < |seeds|)
      && (forall i: nat, dir: Direction {:trigger LeadsBack(i, dir)} ::
         i < |seeds| && next(i, dir) != -1 ==> LeadsBack(i, dir))
      && (forall level: int, i: nat, dir: Direction {:trigger PassesOn(level, i, dir)} ::
            i < |seeds| && reached(level, i) && next(i, dir) != -1 && transparent[next(i, dir)]
            ==> PassesOn(level, i, dir))
    }

    predicate LeadsBack(i: nat, dir: Direction)
      requires next(i, dir) >= 0
    {
      next(i, dir) != i && next(next(i, dir), Opposite(dir)) == i
    }

    ghost predicate PassesOn(level: int, i: nat, dir: Direction)
      requires next(i, dir) >= 0
    {
      reached(level - 1, next(i, dir))
    }

    // No transparent neighbour of i in direction dir could still gain light from i.
    ghost predicate Settled(i: nat, dir: Direction, light: seq<nat>)
      requires Valid() && |light| == |seeds| && i < |seeds|
    {
      var n := next(i, dir);
      n != -1 && transparent[n] ==> light[n] + 1 >= light[i]
    }
  }

  // ---- The worklist ------------------------------------------------------------------------

  // What a queue entry asks for: offer `level - 1` to the neighbours of `index` in the directions `dirs`.
  datatype Task = Task(index: nat, level: nat, dirs: set<Direction>)

  // The unread entry that is responsible for index i, if any, is entries[owner[i]].
  datatype Work = Work(light: seq<nat>, entries: seq<Task>, read: nat, owner: seq<int>) {

    // Some unread entry will still offer light[i] from i in direction dir.
    predicate Pending(i: nat, dir: Direction)
      requires i < |owner| && i < |light|
    {
      && read <= owner[i] < |entries|
      && entries[owner[i]].index == i
      && entries[owner[i]].level == light[i]
      && dir in entries[owner[i]].dirs
    }
  }

  // What holds of every entry ever queued: its level was really reached and is not above the field.
  ghost predicate EntryOk(e: Task, light: seq<nat>, s: Scene)
    requires s.Valid() && |light| == |s.seeds|
  {
    e.index < |s.seeds| && e.level <= light[e.index] && s.reached(e.level, e.index)
  }

  ghost predicate FieldOk(light: seq<nat>, s: Scene)
    requires s.Valid()
  {
    && |light| == |s.seeds|
    && (forall i :: 0 <= i < |light| ==> s.seeds[i] <= light[i] <= 15 && s.reached(light[i], i))
  }

  // The invariant between two entries. While the entry `e` is being read, its directions below `done`
  // are settled and the others are still its responsibility.
  ghost predicate WorkOk(w: Work, s: Scene, e: Task, done: nat) {
    && s.Valid() && FieldOk(w.light, s)
    && |w.owner| == |s.seeds| && w.read <= |w.entries|
    && (forall k :: 0 <= k < |w.entries| ==> EntryOk(w.entries[k], w.light, s))
    && (forall i: nat, dir: Direction :: i < |s.seeds| ==> Covered(i, dir, w, s, e, done))
  }

  // Someone still answers for the light that i could pass on in direction dir.
  ghost predicate Covered(i: nat, dir: Direction, w: Work, s: Scene, e: Task, done: nat)
    requires s.Valid() && i < |s.seeds| == |w.light| == |w.owner|
  {
    s.Settled(i, dir, w.light) || w.Pending(i, dir) || InHand(e, done, i, dir, w.light)
  }

  predicate InHand(e: Task, done: nat, i: nat, dir: Direction, light: seq<nat>)
    requires i < |light|
  {
    e.index == i && e.level == light[i] && done <= dir && dir in e.dirs
  }

  // Room left for further entries: every entry after the first raises its cell within 2..14.
  function Room(light: seq<nat>): nat {
    if light == [] then 0 else CellRoom(light[0]) + Room(light[1..])
  }

  function CellRoom(level: nat): nat {
    if level >= 14 then 0 else if level < 1 then 13 else 14 - level
  }

  lemma {:induction false} RoomAfterRaise(light: seq<nat>, i: nat, level: nat)
    requires i < |light| && light[i] < level
    ensures Room(light[i := level]) <= Room(light)
    ensures 2 <= level <= 14 ==> Room(light[i := level]) + 1 <= Room(light)
  {
    if i == 0 {
      assert light[i := level][1..] == light[1..];
    } else {
      RoomAfterRaise(light[1..], i - 1, level);
      assert light[i := level][1..] == light[1..][i - 1 := level];
    }
  }

  lemma {:induction false} RoomBound(light: seq<nat>)
    ensures Room(light) <= 13 * |light|
  {
    if light == [] {
    } else {
      RoomBound(light[1..]);
    }
  }

  // Taking the next entry in hand.
  lemma TakeEntry(w: Work, s: Scene, e: Task)
    requires WorkOk(w, s, e, 6) && w.read < |w.entries|
    ensures WorkOk(w.(read := w.read + 1), s, w.entries[w.read], 0)
    ensures EntryOk(w.entries[w.read], w.light, s)
  {
    var v, next := w.(read := w.read + 1), w.entries[w.read];
    forall i: nat, dir: Direction | i < |s.seeds|
      ensures Covered(i, dir, v, s, next, 0)
    {
      assert Covered(i, dir, w, s, e, 6);
    }
  }

  // A direction that the entry does not check, or that offers its neighbour nothing, is done.
  lemma SkipDirection(w: Work, s: Scene, e: Task, dir: Direction)
    requires WorkOk(w, s, e, dir) && e.index < |s.seeds|
    requires dir !in e.dirs || (e.level == w.light[e.index] ==> s.Settled(e.index, dir, w.light))
    ensures WorkOk(w, s, e, dir + 1)
  {
    var done := dir + 1;
    forall i: nat, other: Direction | i < |s.seeds|
      ensures Covered(i, other, w, s, e, done)
    {
      assert Covered(i, other, w, s, e, dir);
    }
  }

  // An entry of level 0 or 1 has nothing to offer in any direction.
  lemma SkipEntry(w: Work, s: Scene, e: Task)
    requires WorkOk(w, s, e, 0) && EntryOk(e, w.light, s) && e.level <= 1
    ensures WorkOk(w, s, e, 6)
  {
    forall i: nat, dir: Direction | i < |s.seeds|
      ensures Covered(i, dir, w, s, e, 6)
    {
      assert Covered(i, dir, w, s, e, 0);
    }
  }

  const EVERY_DIRECTION: set<Direction> := {0, 1, 2, 3, 4, 5}

  ghost function AllBut(gap: Direction): set<Direction> {
    EVERY_DIRECTION - {gap}
  }

  // The state after cell n, reached from the entry in direction dir, was raised and queued if it can
  // still pass light on.
  ghost function Raised(w: Work, n: nat, level: nat, dir: Direction): Work
    requires n < |w.light| == |w.owner|
  {
    var light := w.light[n := level];
    if level > 1 then
      Work(light, w.entries + [Task(n, level, AllBut(Opposite(dir)))], w.read, w.owner[n := |w.entries|])
    else
      w.(light := light)
  }

  // Raising a neighbour leaves nothing uncovered: the direction masked out of its entry leads back to a
  // brighter cell.
  lemma RaiseCovers(i: nat, other: Direction, w: Work, s: Scene, e: Task, dir: Direction, n: nat)
    requires s.Valid() && i < |s.seeds| == |w.light| == |w.owner| && w.read <= |w.entries|
    requires e.index < |s.seeds| && 1 < e.level <= w.light[e.index]
    requires n == s.next(e.index, dir) && w.light[n] < e.level - 1
    requires Covered(i, other, w, s, e, dir)
    ensures Covered(i, other, Raised(w, n, e.level - 1, dir), s, e, dir + 1)
  {
    var v := Raised(w, n, e.level - 1, dir);
    assert s.LeadsBack(e.index, dir);
    if i == n {
      if e.level > 2 && other != Opposite(dir) {
        assert v.Pending(i, other);
      } else {
        assert s.Settled(i, other, v.light);
      }
    } else if w.Pending(i, other) {
      assert v.Pending(i, other);
    } else if s.Settled(i, other, w.light) {
      assert s.Settled(i, other, v.light);
    } else if other == dir {
      assert s.Settled(i, other, v.light);
    } else {
      assert InHand(e, dir + 1, i, other, v.light);
    }
  }

  lemma RaiseField(light: seq<nat>, s: Scene, n: nat, level: nat)
    requires s.Valid() && FieldOk(light, s) && n < |light|
    requires light[n] < level <= 15 && s.reached(level, n)
    ensures FieldOk(light[n := level], s)
  {
  }

  lemma RaiseEntry(e: Task, light: seq<nat>, s: Scene, n: nat, level: nat)
    requires s.Valid() && |light| == |s.seeds| && EntryOk(e, light, s) && n < |light| && light[n] < level
    ensures EntryOk(e, light[n := level], s)
  {
  }

  lemma RaiseEntries(w: Work, s: Scene, n: nat, level: nat, dir: Direction)
    requires s.Valid() && |w.light| == |w.owner| == |s.seeds| && n < |s.seeds|
    requires forall k :: 0 <= k < |w.entries| ==> EntryOk(w.entries[k], w.light, s)
    requires w.light[n] < level <= 15 && s.reached(level, n)
    ensures forall k :: 0 <= k < |Raised(w, n, level, dir).entries| ==>
              EntryOk(Raised(w, n, level, dir).entries[k], Raised(w, n, level, dir).light, s)
  {
  }

  lemma RaiseNeighbor(w: Work, s: Scene, e: Task, dir: Direction, n: nat)
    requires WorkOk(w, s, e, dir) && EntryOk(e, w.light, s) && e.level > 1
    requires n == s.next(e.index, dir) && s.transparent[n] && w.light[n] < e.level - 1
    ensures WorkOk(Raised(w, n, e.level - 1, dir), s, e, dir + 1)
    ensures EntryOk(e, Raised(w, n, e.level - 1, dir).light, s)
  {
    var v, done := Raised(w, n, e.level - 1, dir), dir + 1;
    assert s.PassesOn(e.level, e.index, dir);
    RaiseField(w.light, s, n, e.level - 1);
    RaiseEntry(e, w.light, s, n, e.level - 1);
    RaiseEntries(w, s, n, e.level - 1, dir);
    forall i: nat, other: Direction | i < |s.seeds|
      ensures Covered(i, other, v, s, e, done)
    {
      RaiseCovers(i, other, w, s, e, dir, n);
    }
  }

  // ---- The algorithm -----------------------------------------------------------------------

  // The packed word that stands for a task.
  ghost predicate Encodes(word: nat, t: Task) {
    && Unpack(word).index == t.index
    && Unpack(word).level == t.level
    && (forall dir: Direction :: Checks(Unpack(word).dirs, dir) <==> dir in t.dirs)
  }

  // Packing a task into a queue word.
  method PackTask(index: nat, level: nat, mask: nat, ghost dirs: set<Direction>) returns (word: nat)
    requires index <= 0x7FFF_FFFF && level <= 15 && mask < 64
    requires forall check: Direction :: Checks(mask, check) <==> check in dirs
    ensures Encodes(word, Task(index, level, dirs))
  {
    word := Pack(Entry(index, level, mask));
    UnpackPack(Entry(index, level, mask));
  }

  // An initial source checks all six directions.
  method PackSeed(index: nat, level: nat) returns (word: nat)
    requires index <= 0x7FFF_FFFF && level <= 15
    ensures Encodes(word, Task(index, level, EVERY_DIRECTION))
  {
    AllDirsChecked();
    word := PackTask(index, level, ALL_DIRS, EVERY_DIRECTION);
  }

  method UnpackTask(word: nat, ghost t: Task) returns (index: nat, level: nat, mask: nat)
    requires Encodes(word, t)
    ensures index == t.index && level == t.level
    ensures forall check: Direction :: Checks(mask, check) <==> check in t.dirs
  {
    index, level, mask := Unpack(word).index, Unpack(word).level, Unpack(word).dirs;
  }

  ghost predicate QueueOk(queue: seq<nat>, entries: seq<Task>) {
    |queue| == |entries| &&
    forall k: nat {:trigger EncodedAt(queue, entries, k)} :: k < |queue| ==> EncodedAt(queue, entries, k)
  }

  ghost predicate EncodedAt(queue: seq<nat>, entries: seq<Task>, k: nat)
    requires k < |queue| == |entries|
  {
    Encodes(queue[k], entries[k])
  }

  lemma ReadTask(queue: seq<nat>, entries: seq<Task>, k: nat)
    requires QueueOk(queue, entries) && k < |queue|
    ensures |entries| == |queue| && Encodes(queue[k], entries[k])
  {
    assert EncodedAt(queue, entries, k);
  }

  lemma AppendTask(queue: seq<nat>, entries: seq<Task>, word: nat, t: Task)
    requires QueueOk(queue, entries) && Encodes(word, t)
    ensures QueueOk(queue + [word], entries + [t])
  {
    forall k: nat | k < |queue| + 1
      ensures EncodedAt(queue + [word], entries + [t], k)
    {
      if k < |queue| {
        assert EncodedAt(queue, entries, k);
      }
    }
  }

  // The number of cells below n that start out able to pass light on.
  function Sources(light: seq<nat>, n: nat): nat
    requires n <= |light|
  {
    if n == 0 then 0 else Sources(light, n - 1) + if light[n - 1] > 1 then 1 else 0
  }

  lemma {:induction false} SourcesAreBright(light: seq<nat>, n: nat)
    requires n <= |light|
    ensures Sources(light, n) == |set i: nat | i < n && light[i] >= 2|
  {
    if n == 0 {
    } else {
      SourcesAreBright(light, n - 1);
      var before := set i: nat | i < n - 1 && light[i] >= 2;
      assert (set i: nat | i < n && light[i] >= 2) == if light[n - 1] >= 2 then before + {n - 1} else before;
    }
  }

  // The work after the seeds below n have been queued.
  ghost predicate SeedsQueued(w: Work, s: Scene, n: nat)
    requires s.Valid() && n <= |s.seeds|
  {
    && w.light == s.seeds && w.read == 0 && |w.owner| == |s.seeds|
    && (forall k :: 0 <= k < |w.entries| ==> EntryOk(w.entries[k], s.seeds, s))
    && (forall k: nat :: k < n && s.seeds[k] > 1 ==>
          0 <= w.owner[k] < |w.entries| && w.entries[w.owner[k]] == Task(k, s.seeds[k], EVERY_DIRECTION))
  }

  ghost function WithSeed(w: Work, i: nat, level: nat): Work
    requires i < |w.owner|
  {
    Work(w.light, w.entries + [Task(i, level, EVERY_DIRECTION)], w.read, w.owner[i := |w.entries|])
  }

  lemma QueueSeed(queue: seq<nat>, word: nat, w: Work, s: Scene, i: nat)
    requires s.Valid() && i < |s.seeds| && SeedsQueued(w, s, i) && s.seeds[i] > 1
    requires QueueOk(queue, w.entries) && Encodes(word, Task(i, s.seeds[i], EVERY_DIRECTION))
    ensures |w.owner| == |s.seeds|
    ensures var v := WithSeed(w, i, s.seeds[i]); SeedsQueued(v, s, i + 1) && QueueOk(queue + [word], v.entries)
  {
    hide Encodes;
    AppendTask(queue, w.entries, word, Task(i, s.seeds[i], EVERY_DIRECTION));
  }

  lemma SkipSeed(w: Work, s: Scene, i: nat)
    requires s.Valid() && i < |s.seeds| && SeedsQueued(w, s, i) && s.seeds[i] <= 1
    ensures SeedsQueued(w, s, i + 1)
  {
  }

  lemma SeedsCovered(w: Work, s: Scene)
    requires s.Valid() && SeedsQueued(w, s, |s.seeds|)
    ensures WorkOk(w, s, Task(0, 0, {}), 6) && w.light == s.seeds && w.read == 0
  {
  }

  // The initial queue: every cell brighter than 1 offers its light in all directions.
  method SeedQueue(light: array<nat>, ghost s: Scene) returns (queue: seq<nat>, ghost w: Work)
    requires s.Valid() && light[..] == s.seeds
    ensures QueueOk(queue, w.entries) && |queue| == Sources(s.seeds, |s.seeds|)
    ensures w.light == light[..] && w.read == 0
    ensures WorkOk(w, s, Task(0, 0, {}), 6)
  {
    queue := [];
    w := Work(s.seeds, [], 0, seq(light.Length, _ => -1));
    assert SeedsQueued(w, s, 0) && QueueOk(queue, w.entries);
    hide SeedsQueued, QueueOk, Encodes, WorkOk, WithSeed;
    for i := 0 to light.Length
      invariant QueueOk(queue, w.entries) && |queue| == Sources(s.seeds, i)
      invariant SeedsQueued(w, s, i)
    {
      var level := light[i];
      assert level == s.seeds[i] <= 15;
      if level > 1 {
        var word := PackSeed(i, level);
        QueueSeed(queue, word, w, s, i);
        queue := queue + [word];
        w := WithSeed(w, i, level);
      } else {
        SkipSeed(w, s, i);
      }
    }
    SeedsCovered(w, s);
  }

  ghost predicate Represents(s: Scene, d: Dims) {
    && |s.seeds| == d.Volume()
    && (forall i: nat, dir: Direction {:trigger Neighbor(i, dir, d)} ::
       i < |s.seeds| ==> s.next(i, dir) == Neighbor(i, dir, d))
  }

  // The bounds check of one direction, on the coordinates of the current cell.
  predicate InBounds(c: Cell, dir: Direction, d: Dims) {
    match dir
    case 0 => c.x > 0
    case 1 => c.x < d.width - 1
    case 2 => c.y > 0
    case 3 => c.y < d.height - 1
    case 4 => c.z > 0
    case _ => c.z < d.length - 1
  }

  lemma BoundsCheck(i: nat, c: Cell, dir: Direction, d: Dims, s: Scene)
    requires Represents(s, d) && i < |s.seeds|
    requires c == CellAtIndex(i, d)
    ensures InBounds(c, dir, d) <==> s.next(i, dir) != -1
    ensures s.next(i, dir) != -1 ==> 0 <= s.next(i, dir) == i + Offset(dir, d) < |s.seeds|
  {
    CellInVolume(i, d);
    var n := Neighbor(i, dir, d);
    StepIndex(c, dir, d);
    if InVolume(Step(c, dir), d) {
      IndexInRange(Step(c, dir), d);
    }
  }

  lemma EntryBounds(w: Work, s: Scene, e: Task, done: nat)
    requires WorkOk(w, s, e, done) && EntryOk(e, w.light, s)
    ensures e.index < |s.seeds| && e.level <= w.light[e.index] <= 15
  {
  }

  // One neighbour gains light, and is queued if it can still pass light on.
  method RaiseLight(light: array<nat>, n: nat, target: nat, mask: nat, dir: Direction, queue: seq<nat>,
                    ghost s: Scene, ghost w0: Work, ghost e: Task)
    returns (queue': seq<nat>, ghost w: Work)
    requires w0.light == light[..] && QueueOk(queue, w0.entries)
    requires WorkOk(w0, s, e, dir) && EntryOk(e, w0.light, s)
    requires n == s.next(e.index, dir) && n < light.Length == |s.seeds| && s.transparent[n]
    requires light[n] < target == e.level - 1 <= 14
    requires mask < 64 && forall check: Direction :: Checks(mask, check) <==> check in AllBut(Opposite(dir))
    modifies light
    ensures w.light == light[..] && w.read == w0.read && QueueOk(queue', w.entries)
    ensures WorkOk(w, s, e, dir + 1) && EntryOk(e, w.light, s)
    ensures |queue| <= |queue'| && |queue'| + Room(w.light) <= |queue| + Room(w0.light)
  {
    RaiseNeighbor(w0, s, e, dir, n);
    RoomAfterRaise(w0.light, n, target);
    assert n <= 0x7FFF_FFFF;
    hide WorkOk, QueueOk, Encodes, EntryOk, AllBut;
    queue', w := queue, Raised(w0, n, target, dir);
    if target > 1 {
      var word := PackTask(n, target, mask, AllBut(Opposite(dir)));
      AppendTask(queue, w0.entries, word, Task(n, target, AllBut(Opposite(dir))));
      queue' := queue + [word];
    }
    light[n] := target;
  }

  // One entry: offer its light to the neighbours in its directions, queueing those that gain.
  method OfferLight(light: array<nat>, transparent: seq<bool>, d: Dims, excluding: seq<nat>,
                    idx: nat, level: nat, dirs: nat, queue: seq<nat>, ghost s: Scene, ghost w0: Work, ghost e: Task)
    returns (queue': seq<nat>, ghost w: Work)
    requires Represents(s, d) && transparent == s.transparent && ExcludesOpposites(excluding)
    requires w0.light == light[..] && QueueOk(queue, w0.entries)
    requires WorkOk(w0, s, e, 0) && EntryOk(e, w0.light, s)
    requires idx == e.index && level == e.level > 1
    requires forall dir: Direction :: Checks(dirs, dir) <==> dir in e.dirs
    modifies light
    ensures w.light == light[..] && w.read == w0.read && QueueOk(queue', w.entries)
    ensures WorkOk(w, s, e, 6) && |queue| <= |queue'|
    ensures |queue'| + Room(w.light) <= |queue| + Room(w0.light)
  {
    queue', w := queue, w0;
    var target := level - 1;
    var c := CellAtIndex(idx, d);
    hide WorkOk, QueueOk, Encodes, EntryOk, FieldOk, Represents;
    for dir := 0 to 6
      invariant w.light == light[..] && w.read == w0.read && QueueOk(queue', w.entries)
      invariant WorkOk(w, s, e, dir) && EntryOk(e, w.light, s) && |queue| <= |queue'|
      invariant |queue'| + Room(w.light) <= |queue| + Room(w0.light)
    {
      BoundsCheck(idx, c, dir, d, s);
      EntryBounds(w, s, e, dir);
      var n := idx + Offset(dir, d);
      if Checks(dirs, dir) && InBounds(c, dir, d) && transparent[n] && light[n] < target {
        queue', w := RaiseLight(light, n, target, excluding[dir], dir, queue', s, w, e);
      } else {
        SkipDirection(w, s, e, dir);
      }
    }
  }

  // The work loop. On return no cell can raise a neighbour any more, and every level was really reached.
  method FloodFromSeeds(light: array<nat>, transparent: seq<bool>, d: Dims, ghost s: Scene)
    returns (ghost queued: nat)
    requires s.Valid() && Represents(s, d) && light[..] == s.seeds && transparent == s.transparent
    modifies light
    ensures FieldOk(light[..], s)
    ensures forall i: nat, dir: Direction :: i < |s.seeds| ==> s.Settled(i, dir, light[..])
    ensures queued <= Sources(s.seeds, |s.seeds|) + 13 * |s.seeds|
  {
    hide WorkOk, QueueOk, Encodes, EntryOk, FieldOk, Represents;
    RoomBound(s.seeds);
    ghost var w: Work;
    ghost var e := Task(0, 0, {});
    var queue: seq<nat>;
    queue, w := SeedQueue(light, s);
    var excluding := ExcludeOppositeMasks();
    var readIdx := 0;
    while readIdx < |queue|
      invariant w.light == light[..] && w.read == readIdx && QueueOk(queue, w.entries)
      invariant WorkOk(w, s, e, 6)
      invariant |queue| + Room(w.light) <= Sources(s.seeds, |s.seeds|) + Room(s.seeds)
      decreases Room(w.light) + |queue| - readIdx
    {
      var word := queue[readIdx];
      ReadTask(queue, w.entries, readIdx);
      TakeEntry(w, s, e);
      e := w.entries[readIdx];
      var idx, level, dirs := UnpackTask(word, e);
      w := w.(read := readIdx + 1);
      readIdx := readIdx + 1;
      if level <= 1 {
        SkipEntry(w, s, e);
      } else {
        queue, w := OfferLight(light, transparent, d, excluding, idx, level, dirs, queue, s, w, e);
      }
    }
    queued := |queue|;
    QueueIsRead(queue, w);
    NothingIsPending(w, s, e);
  }

  lemma QueueIsRead(queue: seq<nat>, w: Work)
    requires QueueOk(queue, w.entries) && w.read >= |queue|
    ensures w.read >= |w.entries|
  {
  }

  // With no entry left, every cell is settled.
  lemma NothingIsPending(w: Work, s: Scene, e: Task)
    requires WorkOk(w, s, e, 6) && w.read >= |w.entries|
    ensures FieldOk(w.light, s)
    ensures forall i: nat, dir: Direction :: i < |s.seeds| ==> s.Settled(i, dir, w.light)
  {
    forall i: nat, dir: Direction | i < |s.seeds|
      ensures s.Settled(i, dir, w.light)
    {
      assert Covered(i, dir, w, s, e, 6);
    }
  }

  // ---- Correctness in the coordinates of the volume ----------------------------------------

  function FieldOf(s: seq<nat>, d: Dims): Cell -> nat
    requires |s| == d.Volume()
  {
    c => if InVolume(c, d) then s[IndexOf(c, d)] else 0
  }

  function ClearOf(transparent: seq<bool>, d: Dims): Cell -> bool
    requires |transparent| == d.Volume()
  {
    c => InVolume(c, d) && transparent[IndexOf(c, d)]
  }

  // The stored field `light` is the flood of the stored seeds.
  ghost predicate Floods(light: seq<nat>, seeds: seq<nat>, transparent: seq<bool>, d: Dims)
    requires |light| == |seeds| == |transparent| == d.Volume()
  {
    IsFlood(FieldOf(light, d), FieldOf(seeds, d), ClearOf(transparent, d), d)
  }

  // The scene of a volume: reached levels are those attained by a light path.
  ghost predicate Depicts(s: Scene, d: Dims) {
    && Represents(s, d) && |s.transparent| == d.Volume()
    && (forall level: int, i: nat {:trigger s.reached(level, i)} :: i < |s.seeds| ==>
          (s.reached(level, i) <==>
            Attained(level, CellAtIndex(i, d), FieldOf(s.seeds, d), ClearOf(s.transparent, d), d)))
  }

  lemma SceneExists(seeds: seq<nat>, transparent: seq<bool>, d: Dims) returns (s: Scene)
    requires |seeds| == |transparent| == d.Volume()
    ensures s.seeds == seeds && s.transparent == transparent && Depicts(s, d)
  {
    s := Scene(seeds, transparent,
               (i: nat, dir: Direction) => if i < d.Volume() then Neighbor(i, dir, d) else -1,
               (level: int, i: nat) => i < d.Volume() &&
                 Attained(level, CellAtIndex(i, d), FieldOf(seeds, d), ClearOf(transparent, d), d));
  }

  lemma SeedAttained(c: Cell, seeds: Cell -> nat, clear: Cell -> bool, d: Dims)
    requires InVolume(c, d)
    ensures Attained(seeds(c), c, seeds, clear, d)
  {
    assert IsPath([c], clear, d) && LevelAlong([c], seeds) == seeds(c);
  }

  lemma StepAttained(level: int, c: Cell, dir: Direction, seeds: Cell -> nat, clear: Cell -> bool, d: Dims)
    requires Attained(level, c, seeds, clear, d)
    requires InVolume(Step(c, dir), d) && clear(Step(c, dir))
    ensures Attained(level - 1, Step(c, dir), seeds, clear, d)
  {
    var p :| IsPath(p, clear, d) && p[|p| - 1] == c && LevelAlong(p, seeds) == level;
    var q := p + [Step(c, dir)];
    forall k: nat | k < |q| - 1
      ensures Enters(q, k, clear)
    {
      if k < |p| - 1 {
        assert Enters(p, k, clear);
        var turn: Direction :| Step(p[k], turn) == p[k + 1];
        assert Step(q[k], turn) == q[k + 1];
      } else {
        assert Step(q[k], dir) == q[k + 1];
      }
    }
    assert IsPath(q, clear, d) && LevelAlong(q, seeds) == level - 1;
  }

  lemma SeedIsReached(s: Scene, d: Dims, i: nat)
    requires Depicts(s, d) && i < |s.seeds|
    ensures s.reached(s.seeds[i], i)
  {
    CellInVolume(i, d);
    SeedAttained(CellAtIndex(i, d), FieldOf(s.seeds, d), ClearOf(s.transparent, d), d);
  }

  lemma LinkLeadsBack(s: Scene, d: Dims, i: nat, dir: Direction)
    requires Depicts(s, d) && i < |s.seeds| && s.next(i, dir) != -1
    ensures 0 <= s.next(i, dir) < |s.seeds| && s.LeadsBack(i, dir)
  {
    assert s.next(i, dir) == Neighbor(i, dir, d);
    NeighborFacts(i, dir, d);
  }

  lemma LinkPassesOn(s: Scene, d: Dims, level: int, i: nat, dir: Direction)
    requires Depicts(s, d) && i < |s.seeds| && s.reached(level, i)
    requires 0 <= s.next(i, dir) < |s.seeds| && s.transparent[s.next(i, dir)]
    ensures s.PassesOn(level, i, dir)
  {
    var n := s.next(i, dir);
    assert n == Neighbor(i, dir, d);
    NeighborFacts(i, dir, d);
    CellInVolume(n, d);
    StepAttained(level, CellAtIndex(i, d), dir, FieldOf(s.seeds, d), ClearOf(s.transparent, d), d);
  }

  lemma SceneIsValid(s: Scene, d: Dims)
    requires Depicts(s, d) && |s.seeds| <= 0x7FFF_FFFF
    requires forall i :: 0 <= i < |s.seeds| ==> s.seeds[i] <= 15
    ensures s.Valid()
  {
    forall i: nat | i < |s.seeds|
      ensures s.reached(s.seeds[i], i)
    {
      SeedIsReached(s, d, i);
    }
    forall i: nat, dir: Direction | i < |s.seeds|
      ensures -1 <= s.next(i, dir) < |s.seeds| && (s.next(i, dir) != -1 ==> s.LeadsBack(i, dir))
    {
      assert s.next(i, dir) == Neighbor(i, dir, d);
      if s.next(i, dir) != -1 {
        LinkLeadsBack(s, d, i, dir);
      }
    }
    forall level: int, i: nat, dir: Direction |
      i < |s.seeds| && s.reached(level, i) && s.next(i, dir) != -1 && s.transparent[s.next(i, dir)]
      ensures s.PassesOn(level, i, dir)
    {
      LinkPassesOn(s, d, level, i, dir);
    }
  }

  lemma LevelIsAttained(s: Scene, light: seq<nat>, d: Dims, c: Cell)
    requires s.Valid() && Depicts(s, d) && FieldOk(light, s) && InVolume(c, d)
    ensures Attained(FieldOf(light, d)(c), c, FieldOf(s.seeds, d), ClearOf(s.transparent, d), d)
    ensures FieldOf(s.seeds, d)(c) <= FieldOf(light, d)(c)
  {
    IndexInRange(c, d);
    assert s.reached(light[IndexOf(c, d)], IndexOf(c, d));
  }

  lemma LevelIsSettled(s: Scene, light: seq<nat>, d: Dims, c: Cell, dir: Direction)
    requires s.Valid() && Depicts(s, d) && FieldOk(light, s)
    requires forall i: nat, dir: Direction :: i < |s.seeds| ==> s.Settled(i, dir, light)
    requires InVolume(c, d) && InVolume(Step(c, dir), d) && ClearOf(s.transparent, d)(Step(c, dir))
    ensures FieldOf(light, d)(c) - 1 <= FieldOf(light, d)(Step(c, dir))
  {
    IndexInRange(c, d);
    IndexInRange(Step(c, dir), d);
    StepIndex(c, dir, d);
    assert Neighbor(IndexOf(c, d), dir, d) == IndexOf(Step(c, dir), d);
    assert s.Settled(IndexOf(c, d), dir, light);
  }

  lemma SettledIsFlood(s: Scene, light: seq<nat>, d: Dims)
    requires s.Valid() && Depicts(s, d) && FieldOk(light, s)
    requires forall i: nat, dir: Direction :: i < |s.seeds| ==> s.Settled(i, dir, light)
    ensures Floods(light, s.seeds, s.transparent, d)
  {
    var level, seeds, clear := FieldOf(light, d), FieldOf(s.seeds, d), ClearOf(s.transparent, d);
    forall c | InVolume(c, d)
      ensures Attained(level(c), c, seeds, clear, d) && seeds(c) <= level(c)
    {
      LevelIsAttained(s, light, d, c);
    }
    forall c, dir: Direction | InVolume(c, d) && InVolume(Step(c, dir), d) && clear(Step(c, dir))
      ensures level(c) - 1 <= level(Step(c, dir))
    {
      LevelIsSettled(s, light, d, c, dir);
    }
    FloodFromSettled(level, seeds, clear, d);
  }

  // Propagation turns any field of seeds into its flood, with at most 13 queue entries a cell on top of the seeds.
  method PropagateLight(light: array<nat>, transparent: seq<bool>, d: Dims) returns (ghost queued: nat)
    requires light.Length == |transparent| == d.Volume() <= 0x7FFF_FFFF
    requires forall i :: 0 <= i < light.Length ==> light[i] <= 15
    modifies light
    ensures Floods(light[..], old(light[..]), transparent, d)
    ensures queued <= Sources(old(light[..]), light.Length) + 13 * light.Length
  {
    ghost var s := SceneExists(light[..], transparent, d);
    SceneIsValid(s, d);
    queued := FloodFromSeeds(light, transparent, d, s);
    SettledIsFlood(s, light[..], d);
  }
}
