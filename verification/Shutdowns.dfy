/**
 Shutting down, as a set of concurrent `shutdown` calls. A call waits for the calls it makes on the
 children that are still alive, then marks its own actor; siblings and overlapping calls interleave freely.
 */
module Shutdowns {
  import opened ActorTree
  import opened TidyTree

  datatype Stage = Begun | Waiting | Finished | Done

  /** One call of `shutdown`: on whom, how far it got, and the calls `first..last` it waits for. */
  datatype Task = Task(actor: Actor, stage: Stage, first: nat, last: nat)

  datatype Down = Down(store: Store, tasks: seq<Task>, called: set<Actor>)

  datatype Event = Call(a: Actor) | FanOut(t: nat) | Mark(t: nat) | Return(t: nat)

  /** The actors behind the entries that are not shut down, in order. */
  ghost function AliveKids(s: Store, cs: seq<ActorRefImpl>): seq<Actor> {
    if cs == [] then []
    else
      var rest := AliveKids(s, cs[..|cs| - 1]);
      var c := cs[|cs| - 1];
      if c in s.target && s.target[c] !in s.dead then rest + [s.target[c]] else rest
  }

  /** The calls FanOut makes, one per living child. */
  ghost function Spawned(kids: seq<Actor>): seq<Task> {
    seq(|kids|, i requires 0 <= i < |kids| => Task(kids[i], Begun, 0, 0))
  }

  ghost predicate Enabled(d: Down, e: Event) {
    match e
    case Call(a) => a in d.store.dead || Live(d.store, a)
    case FanOut(t) => t < |d.tasks| && d.tasks[t].stage.Begun? && d.tasks[t].actor in d.store.children
    case Mark(t) =>
      && t < |d.tasks| && d.tasks[t].stage.Waiting?
      && d.tasks[t].last <= |d.tasks|
      && (forall w :: d.tasks[t].first <= w < d.tasks[t].last ==> d.tasks[w].stage.Done?)
      && CanFinish(d.store, d.tasks[t].actor)
    case Return(t) => t < |d.tasks| && d.tasks[t].stage.Finished?
  }

  ghost function Next(d: Down, e: Event): Down
    requires Enabled(d, e)
  {
    match e
    case Call(a) =>
      d.(tasks := d.tasks + [Task(a, if a in d.store.dead then Done else Begun, 0, 0)], called := d.called + {a})
    case FanOut(t) =>
      var task := d.tasks[t];
      var kids := AliveKids(d.store, d.store.children[task.actor]);
      var n := |d.tasks|;
      d.(tasks := d.tasks[t := Task(task.actor, Waiting, n, n + |kids|)] + Spawned(kids))
    case Mark(t) =>
      d.(store := Finish(d.store, d.tasks[t].actor), tasks := d.tasks[t := d.tasks[t].(stage := Finished)])
    case Return(t) =>
      d.(tasks := d.tasks[t := d.tasks[t].(stage := Done)])
  }

  ghost predicate Runs(d: Down, es: seq<Event>, d': Down)
    decreases |es|
  {
    if es == [] then d == d' else Enabled(d, es[0]) && Runs(Next(d, es[0]), es[1..], d')
  }

  // ---- The invariant --------------------------------------------------------------------------------

  /** The entry has been removed: its actor went down since `s0` and the entry is the actor's own reference. */
  ghost predicate Gone(s0: Store, dead: set<Actor>, a: Actor, c: ActorRefImpl) {
    && c in s0.target
    && var d := s0.target[c];
    && d in dead && d !in s0.dead && d != s0.root
    && d in s0.self && s0.self[d] == c
    && d.parent != null && d.parent in s0.target && s0.target[d.parent] == a
  }

  ghost function Pruned(s0: Store, dead: set<Actor>, a: Actor, cs: seq<ActorRefImpl>): seq<ActorRefImpl> {
    if cs == [] then []
    else
      var rest := Pruned(s0, dead, a, cs[..|cs| - 1]);
      if Gone(s0, dead, a, cs[|cs| - 1]) then rest else rest + [cs[|cs| - 1]]
  }

  /** If the parent is down, so is the child. */
  ghost predicate NotOrphaned(s0: Store, dead: set<Actor>, b: Actor) {
    b.parent != null && b.parent in s0.target && s0.target[b.parent] in dead ==> b in dead
  }

  ghost predicate LeavesFirst(s0: Store, dead: set<Actor>) {
    forall b {:trigger NotOrphaned(s0, dead, b)} :: b in s0.children && Live(s0, b) && b != s0.root ==>
      NotOrphaned(s0, dead, b)
  }

  ghost predicate StoreOk(s0: Store, s: Store) {
    && Closed(s) && s.root == s0.root && s.target == s0.target && s.self == s0.self
    && s0.dead <= s.dead
    && (forall b :: b in s.dead ==> b in s0.dead || (b in s0.children && Live(s0, b)))
    && s.registry == (map m | m in s0.registry && s0.registry[m] !in s.dead :: s0.registry[m])
    && (forall a {:trigger a in s.children} :: a in s0.children ==> a in s.children)
    && (forall a {:trigger a in s.children} :: a in s.children ==> a in s0.children)
    && (forall a {:trigger s.children[a]} :: a in s0.children ==>
      s.children[a] == Pruned(s0, s.dead, a, s0.children[a]))
    && LeavesFirst(s0, s.dead)
  }

  /** The child is down, or the call waits for a call on it. */
  ghost predicate Covered(d: Down, task: Task, c: ActorRefImpl)
    requires c in d.store.target
  {
    d.store.target[c] in d.store.dead
    || exists w: nat :: task.first <= w < task.last && w < |d.tasks| && d.tasks[w].actor == d.store.target[c]
  }

  ghost predicate Asked(s0: Store, called: set<Actor>, a: Actor)
    requires Closed(s0) && a in s0.children
  {
    exists r :: r in called && Under(s0, a, r)
  }

  ghost predicate TaskOk(s0: Store, d: Down, t: nat)
    requires Closed(s0) && t < |d.tasks|
  {
    var task := d.tasks[t];
    && task.actor in s0.children && task.last <= |d.tasks|
    && Asked(s0, d.called, task.actor)
    && (Live(s0, task.actor) || task.stage.Done?)
    && (task.stage.Finished? || task.stage.Done? ==> task.actor in d.store.dead)
    && (task.stage.Waiting? ==> AllCovered(d, task))
  }

  ghost predicate AllCovered(d: Down, task: Task) {
    && task.actor in d.store.children
    && forall c :: c in d.store.children[task.actor] ==> c in d.store.target && Covered(d, task, c)
  }

  ghost predicate Inv(s0: Store, d: Down) {
    && Tidy(s0) && StoreOk(s0, d.store)
    && forall t: nat {:trigger TaskOk(s0, d, t)} :: t < |d.tasks| ==> TaskOk(s0, d, t)
  }

  // ---- The steps keep it ----------------------------------------------------------------------------

  lemma {:induction false} PrunedIn(s0: Store, dead: set<Actor>, a: Actor, cs: seq<ActorRefImpl>)
    ensures forall c :: c in Pruned(s0, dead, a, cs) ==> c in cs && !Gone(s0, dead, a, c)
    ensures forall c :: c in cs && !Gone(s0, dead, a, c) ==> c in Pruned(s0, dead, a, cs)
  {
    if cs != [] {
      PrunedIn(s0, dead, a, cs[..|cs| - 1]);
      assert cs == cs[..|cs| - 1] + [cs[|cs| - 1]];
    }
  }

  /** `removeChild` on the parent's list is the only change to any list when `b` goes down. */
  lemma {:induction false} PrunedStep(s0: Store, dead: set<Actor>, b: Actor, a: Actor, cs: seq<ActorRefImpl>)
    requires Tidy(s0) && b in s0.children && Live(s0, b) && b !in s0.dead && b != s0.root
    ensures b.parent != null && b.parent in s0.target && b in s0.self
    ensures Pruned(s0, dead + {b}, a, cs) ==
      if s0.target[b.parent] == a then Without(Pruned(s0, dead, a, cs), s0.self[b]) else Pruned(s0, dead, a, cs)
  {
    assert s0.target[s0.self[b]] == b;
    if cs != [] {
      var c := cs[|cs| - 1];
      var rest := Pruned(s0, dead, a, cs[..|cs| - 1]);
      PrunedStep(s0, dead, b, a, cs[..|cs| - 1]);
      assert (rest + [c])[..|rest|] == rest;
    }
  }

  lemma {:induction false} PrunedRoot(s0: Store, dead: set<Actor>, a: Actor, cs: seq<ActorRefImpl>)
    ensures Pruned(s0, dead + {s0.root}, a, cs) == Pruned(s0, dead, a, cs)
  {
    if cs != [] {
      PrunedRoot(s0, dead, a, cs[..|cs| - 1]);
    }
  }

  /** An actor may be marked once no living child is left in its list. */
  lemma KidsDown(s0: Store, s: Store, a: Actor, b: Actor)
    requires Tidy(s0) && StoreOk(s0, s) && a in s0.children && Live(s0, a)
    requires b in s0.children && Live(s0, b) && b != s0.root
    requires b.parent != null && b.parent in s0.target && s0.target[b.parent] == a
    requires forall c :: c in s.children[a] ==> c in s.target && s.target[c] in s.dead
    ensures b in s.dead
  {
    assert Placed(s0, b);
    var c := CountWitness(s0.target, s0.children[a], b);
    PrunedIn(s0, s.dead, a, s0.children[a]);
    assert Gone(s0, s.dead, a, c) || c in s.children[a];
  }

  lemma MarkLists(s0: Store, s: Store, a: Actor)
    requires Tidy(s0) && StoreOk(s0, s) && a in s0.children && Live(s0, a)
    ensures a in s.children
    ensures forall x {:trigger Finish(s, a).children[x]} :: x in s0.children ==>
      x in Finish(s, a).children && Finish(s, a).children[x] == Pruned(s0, s.dead + {a}, x, s0.children[x])
  {
    var s' := Finish(s, a);
    forall x | x in s0.children
      ensures x in s'.children && s'.children[x] == Pruned(s0, s.dead + {a}, x, s0.children[x])
    {
      assert x in s.children;
      if a == s0.root {
        PrunedRoot(s0, s.dead, x, s0.children[x]);
      } else {
        assert s0.registry[a.name] !in s0.dead;
        PrunedStep(s0, s.dead, a, x, s0.children[x]);
      }
    }
  }

  lemma MarkRegistry(s0: Store, s: Store, a: Actor)
    requires Tidy(s0) && StoreOk(s0, s) && a in s0.children && Live(s0, a)
    ensures a in s.children
    ensures Finish(s, a).registry ==
      map m | m in s0.registry && s0.registry[m] !in s.dead + {a} :: s0.registry[m]
  {
    forall m | m in s0.registry ensures s0.registry[m] == a <==> m == a.name {
      if m == a.name && a == s0.root {
        LongerThanRoot(s0, s0.registry[m]);
      }
    }
  }

  lemma MarkLeavesFirst(s0: Store, s: Store, a: Actor)
    requires Tidy(s0) && StoreOk(s0, s) && a in s0.children && Live(s0, a)
    requires forall c :: c in s.children[a] ==> c in s.target && s.target[c] in s.dead
    ensures LeavesFirst(s0, s.dead + {a})
  {
    hide Tidy, Closed, Live, Pruned;
    forall b {:trigger NotOrphaned(s0, s.dead + {a}, b)} | b in s0.children && Live(s0, b) && b != s0.root
      ensures NotOrphaned(s0, s.dead + {a}, b)
    {
      assert NotOrphaned(s0, s.dead, b);
      if b.parent != null && b.parent in s0.target && s0.target[b.parent] == a {
        KidsDown(s0, s, a, b);
      }
    }
  }

  lemma MarkStore(s0: Store, s: Store, a: Actor)
    requires Tidy(s0) && StoreOk(s0, s) && a in s0.children && Live(s0, a)
    requires forall c :: c in s.children[a] ==> c in s.target && s.target[c] in s.dead
    ensures a in s.children && StoreOk(s0, Finish(s, a))
  {
    hide Tidy, Closed, Pruned, LeavesFirst;
    FinishClosed(s, a);
    MarkLists(s0, s, a);
    MarkRegistry(s0, s, a);
    MarkLeavesFirst(s0, s, a);
  }

  lemma {:induction false} AliveKidsIn(s: Store, cs: seq<ActorRefImpl>)
    ensures forall c :: c in cs && c in s.target && s.target[c] !in s.dead ==> s.target[c] in AliveKids(s, cs)
    ensures forall k :: k in AliveKids(s, cs) ==>
      k !in s.dead && exists c :: c in cs && c in s.target && s.target[c] == k
  {
    if cs != [] {
      AliveKidsIn(s, cs[..|cs| - 1]);
      assert cs == cs[..|cs| - 1] + [cs[|cs| - 1]];
    }
  }

  /** The children a call fans out to are live children of its actor, so they are asked too. */
  lemma KidAsked(s0: Store, d: Down, a: Actor, k: Actor)
    requires Inv(s0, d) && a in s0.children && Live(s0, a) && Asked(s0, d.called, a)
    requires a in d.store.children && k in AliveKids(d.store, d.store.children[a])
    ensures k in s0.children && Live(s0, k) && Asked(s0, d.called, k)
  {
    AliveKidsIn(d.store, d.store.children[a]);
    var c :| c in d.store.children[a] && c in d.store.target && d.store.target[c] == k;
    PrunedIn(s0, d.store.dead, a, s0.children[a]);
    assert c in s0.children[a] && EntryOk(s0, a, c);
    var r :| r in d.called && Under(s0, a, r);
    assert Under(s0, k, r);
  }

  lemma CallKeeps(s0: Store, d: Down, a: Actor)
    requires Inv(s0, d) && Enabled(d, Call(a))
    ensures Inv(s0, Next(d, Call(a)))
  {
    var d' := Next(d, Call(a));
    forall t: nat {:trigger TaskOk(s0, d', t)} | t < |d'.tasks| ensures TaskOk(s0, d', t) {
      if t < |d.tasks| {
        assert TaskOk(s0, d, t);
        CoveredStays(d, d', d.tasks[t]);
      } else {
        assert Under(s0, a, a);
      }
    }
  }

  /** After the fan-out every living child has a call on it. */
  lemma FanOutCovers(d: Down, t: nat)
    requires Enabled(d, FanOut(t)) && Closed(d.store)
    ensures AllCovered(Next(d, FanOut(t)), Next(d, FanOut(t)).tasks[t])
  {
    var d', a := Next(d, FanOut(t)), d.tasks[t].actor;
    var kids := AliveKids(d.store, d.store.children[a]);
    AliveKidsIn(d.store, d.store.children[a]);
    forall c | c in d.store.children[a] ensures c in d.store.target && Covered(d', d'.tasks[t], c) {
      assert c in d.store.target;
      if d.store.target[c] !in d.store.dead {
        var k :| 0 <= k < |kids| && kids[k] == d.store.target[c];
        assert d'.tasks[|d.tasks| + k].actor == d.store.target[c];
      }
    }
  }

  /** A new task is fine: it is a call on a living child of an actor that was asked. */
  lemma SpawnedTask(s0: Store, d: Down, t: nat, i: nat)
    requires Inv(s0, d) && Enabled(d, FanOut(t)) && |d.tasks| <= i < |Next(d, FanOut(t)).tasks|
    ensures TaskOk(s0, Next(d, FanOut(t)), i)
  {
    hide AllPlaced, EntriesOk, SelfOk, RegisteredAlive, Closed, AllCovered, AliveKids, StoreOk;
    var d', a := Next(d, FanOut(t)), d.tasks[t].actor;
    assert TaskOk(s0, d, t);
    var kids := AliveKids(d.store, d.store.children[a]);
    assert d'.tasks[i] == Task(kids[i - |d.tasks|], Begun, 0, 0);
    KidAsked(s0, d, a, kids[i - |d.tasks|]);
  }

  lemma OtherTask(s0: Store, d: Down, t: nat, i: nat)
    requires Inv(s0, d) && Enabled(d, FanOut(t)) && i < |d.tasks| && i != t
    ensures TaskOk(s0, Next(d, FanOut(t)), i)
  {
    hide AllPlaced, EntriesOk, SelfOk, RegisteredAlive, AllCovered, AliveKids, LeavesFirst, Pruned;
    assert TaskOk(s0, d, i);
    CoveredStays(d, Next(d, FanOut(t)), d.tasks[i]);
  }

  lemma FanOutTask(s0: Store, d: Down, t: nat, i: nat)
    requires Inv(s0, d) && Enabled(d, FanOut(t)) && i < |Next(d, FanOut(t)).tasks|
    ensures TaskOk(s0, Next(d, FanOut(t)), i)
  {
    hide AllPlaced, EntriesOk, SelfOk, RegisteredAlive, AllCovered, AliveKids, LeavesFirst, Pruned;
    if i >= |d.tasks| {
      SpawnedTask(s0, d, t, i);
    } else if i == t {
      assert TaskOk(s0, d, t);
      FanOutCovers(d, t);
    } else {
      OtherTask(s0, d, t, i);
    }
  }

  lemma FanOutKeeps(s0: Store, d: Down, t: nat)
    requires Inv(s0, d) && Enabled(d, FanOut(t))
    ensures Inv(s0, Next(d, FanOut(t)))
  {
    var d' := Next(d, FanOut(t));
    forall i: nat {:trigger TaskOk(s0, d', i)} | i < |d'.tasks| ensures TaskOk(s0, d', i) {
      FanOutTask(s0, d, t, i);
    }
  }

  /** What a call waits for stays covered while the other calls move on. */
  lemma CoveredStays(d: Down, d': Down, task: Task)
    requires task.stage.Waiting? ==> AllCovered(d, task)
    requires d'.store.target == d.store.target && d.store.dead <= d'.store.dead
    requires task.actor in d.store.children ==>
      && task.actor in d'.store.children
      && forall c :: c in d'.store.children[task.actor] ==> c in d.store.children[task.actor]
    requires |d.tasks| <= |d'.tasks| && forall i :: 0 <= i < |d.tasks| ==> d'.tasks[i].actor == d.tasks[i].actor
    ensures task.stage.Waiting? ==> AllCovered(d', task)
  {
    if task.stage.Waiting? {
      forall c | c in d'.store.children[task.actor] ensures c in d'.store.target && Covered(d', task, c) {
        assert Covered(d, task, c);
        if d.store.target[c] !in d.store.dead {
          var w: nat :| task.first <= w < task.last && w < |d.tasks| && d.tasks[w].actor == d.store.target[c];
          assert d'.tasks[w].actor == d.store.target[c];
        }
      }
    }
  }

  /** When all the calls it waits for have returned, every child of the actor is down. */
  lemma MarkReady(s0: Store, d: Down, t: nat)
    requires Inv(s0, d) && Enabled(d, Mark(t))
    ensures d.tasks[t].actor in s0.children && Live(s0, d.tasks[t].actor)
    ensures forall c :: c in d.store.children[d.tasks[t].actor] ==>
      c in d.store.target && d.store.target[c] in d.store.dead
  {
    assert TaskOk(s0, d, t);
    var task, s := d.tasks[t], d.store;
    forall w: nat | task.first <= w < task.last ensures d.tasks[w].actor in s.dead {
      assert TaskOk(s0, d, w);
    }
    forall c | c in s.children[task.actor] ensures c in s.target && s.target[c] in s.dead {
      assert Covered(d, task, c);
    }
  }

  lemma FinishShrinks(s: Store, a: Actor, x: Actor)
    requires CanFinish(s, a) && x in s.children
    ensures x in Finish(s, a).children
    ensures forall c :: c in Finish(s, a).children[x] ==> c in s.children[x]
  {
    if a.parent != null {
      WithoutIn(s.children[s.target[a.parent]], s.self[a]);
    }
  }

  lemma MarkTask(s0: Store, d: Down, t: nat, i: nat)
    requires Inv(s0, d) && Enabled(d, Mark(t)) && i < |d.tasks|
    ensures TaskOk(s0, Next(d, Mark(t)), i)
  {
    assert TaskOk(s0, d, i);
    if d.tasks[i].actor in d.store.children {
      FinishShrinks(d.store, d.tasks[t].actor, d.tasks[i].actor);
    }
    CoveredStays(d, Next(d, Mark(t)), d.tasks[i]);
  }

  lemma MarkKeeps(s0: Store, d: Down, t: nat)
    requires Inv(s0, d) && Enabled(d, Mark(t))
    ensures Inv(s0, Next(d, Mark(t)))
  {
    var d' := Next(d, Mark(t));
    MarkReady(s0, d, t);
    MarkStore(s0, d.store, d.tasks[t].actor);
    forall i: nat {:trigger TaskOk(s0, d', i)} | i < |d'.tasks| ensures TaskOk(s0, d', i) {
      MarkTask(s0, d, t, i);
    }
  }

  lemma ReturnKeeps(s0: Store, d: Down, t: nat)
    requires Inv(s0, d) && Enabled(d, Return(t))
    ensures Inv(s0, Next(d, Return(t)))
  {
    var d' := Next(d, Return(t));
    forall i: nat {:trigger TaskOk(s0, d', i)} | i < |d'.tasks| ensures TaskOk(s0, d', i) {
      assert TaskOk(s0, d, i);
      CoveredStays(d, d', d.tasks[i]);
    }
  }

  lemma StepKeeps(s0: Store, d: Down, e: Event)
    requires Inv(s0, d) && Enabled(d, e)
    ensures Inv(s0, Next(d, e))
  {
    match e {
      case Call(a) => CallKeeps(s0, d, a);
      case FanOut(t) => FanOutKeeps(s0, d, t);
      case Mark(t) => MarkKeeps(s0, d, t);
      case Return(t) => ReturnKeeps(s0, d, t);
    }
  }

  lemma {:induction false} RunKeeps(s0: Store, d: Down, es: seq<Event>, d': Down)
    requires Inv(s0, d) && Runs(d, es, d')
    ensures Inv(s0, d')
    decreases |es|
  {
    if es != [] {
      StepKeeps(s0, d, es[0]);
      RunKeeps(s0, Next(d, es[0]), es[1..], d');
    }
  }

  // ---- The theorems ---------------------------------------------------------------------------------

  ghost function Start(s0: Store): Down {
    Down(s0, [], {})
  }

  lemma {:induction false} PrunedNothing(s0: Store, a: Actor, cs: seq<ActorRefImpl>)
    ensures Pruned(s0, s0.dead, a, cs) == cs
  {
    if cs != [] {
      PrunedNothing(s0, a, cs[..|cs| - 1]);
    }
  }

  lemma StartInv(s0: Store)
    requires Tidy(s0)
    ensures Inv(s0, Start(s0))
  {
    forall a | a in s0.children ensures s0.children[a] == Pruned(s0, s0.dead, a, s0.children[a]) {
      PrunedNothing(s0, a, s0.children[a]);
    }
    forall b {:trigger NotOrphaned(s0, s0.dead, b)} | b in s0.children && Live(s0, b) && b != s0.root
      ensures NotOrphaned(s0, s0.dead, b)
    {
      assert Placed(s0, b);
    }
    assert s0.registry == map m | m in s0.registry && s0.registry[m] !in s0.dead :: s0.registry[m];
  }

  /** If an actor is down, so is everybody under it, and none of them is in the registry. */
  lemma {:induction false} DownwardClosed(s0: Store, s: Store, a: Actor, b: Actor)
    requires Tidy(s0) && StoreOk(s0, s) && a in s.dead && a !in s0.dead
    requires b in s0.children && Live(s0, b) && Under(s0, b, a)
    ensures b in s.dead && b.name !in s.registry
    decreases |b.name|
  {
    if b != a {
      assert Placed(s0, b);
      DownwardClosed(s0, s, a, s0.target[b.parent]);
      assert NotOrphaned(s0, s.dead, b);
    }
    if b == s0.root && b.name in s.registry {
      LongerThanRoot(s0, s0.registry[b.name]);
    }
  }

  lemma {:induction false} CountPruned(s0: Store, dead: set<Actor>, p: Actor, cs: seq<ActorRefImpl>, a: Actor)
    requires a !in dead
    ensures Count(s0.target, Pruned(s0, dead, p, cs), a) == Count(s0.target, cs, a)
  {
    if cs != [] {
      var rest := Pruned(s0, dead, p, cs[..|cs| - 1]);
      CountPruned(s0, dead, p, cs[..|cs| - 1], a);
      assert (rest + [cs[|cs| - 1]])[..|rest|] == rest;
    }
  }

  lemma StillPlaced(s0: Store, s: Store, a: Actor)
    requires Tidy(s0) && StoreOk(s0, s) && a in s.children && Live(s, a) && a != s.root
    ensures Placed(s, a)
  {
    assert Placed(s0, a) && NotOrphaned(s0, s.dead, a);
    var p := s0.target[a.parent];
    assert p in s.children;
    CountPruned(s0, s.dead, p, s0.children[p], a);
  }

  /** Every intermediate state is a tidy tree of the actors that are still up. */
  lemma StaysTidy(s0: Store, s: Store)
    requires Tidy(s0) && StoreOk(s0, s)
    ensures Tidy(s)
  {
    forall a {:trigger Placed(s, a)} | a in s.children && Live(s, a) && a != s.root ensures Placed(s, a) {
      StillPlaced(s0, s, a);
    }
    assert EntriesOk(s) by {
      forall a, c {:trigger c in s.children[a]} | a in s.children && Live(s, a) && c in s.children[a]
        ensures c in s.target && EntryOk(s, a, c)
      {
        PrunedIn(s0, s.dead, a, s0.children[a]);
        assert c in s0.children[a] && EntryOk(s0, a, c);
      }
    }
  }

  /** The list of `x` may change: `x` was asked to shut down, or is the parent of an actor that was. */
  ghost predicate Touched(s0: Store, called: set<Actor>, x: Actor)
    requires Closed(s0) && x in s0.children
  {
    || Asked(s0, called, x)
    || exists r :: r in called && r.parent != null && r.parent in s0.target && s0.target[r.parent] == x
  }

  /** Only actors that were asked, directly or through an ancestor, go down. */
  ghost predicate OnlyAsked(s0: Store, d: Down)
    requires Closed(s0)
  {
    forall b :: b in d.store.dead ==> b in s0.dead || (b in s0.children && Asked(s0, d.called, b))
  }

  lemma GoneTouches(s0: Store, d: Down, x: Actor, c: ActorRefImpl)
    requires Closed(s0) && OnlyAsked(s0, d) && x in s0.children
    ensures Gone(s0, d.store.dead, x, c) ==> Touched(s0, d.called, x)
  {
    if Gone(s0, d.store.dead, x, c) {
      var b := s0.target[c];
      var r :| r in d.called && Under(s0, b, r);
      assert b == r || Under(s0, x, r);
    }
  }

  lemma {:induction false} PrunedUntouched(s0: Store, d: Down, x: Actor, cs: seq<ActorRefImpl>)
    requires Closed(s0) && OnlyAsked(s0, d) && x in s0.children && !Touched(s0, d.called, x)
    ensures Pruned(s0, d.store.dead, x, cs) == cs
  {
    if cs != [] {
      PrunedUntouched(s0, d, x, cs[..|cs| - 1]);
      GoneTouches(s0, d, x, cs[|cs| - 1]);
    }
  }

  lemma StepOnlyAsked(s0: Store, d: Down, e: Event)
    requires Inv(s0, d) && OnlyAsked(s0, d) && Enabled(d, e)
    ensures OnlyAsked(s0, Next(d, e))
  {
    if e.Mark? {
      assert TaskOk(s0, d, e.t);
    }
    forall b | b in s0.children && Asked(s0, d.called, b) ensures Asked(s0, Next(d, e).called, b) {
      var r :| r in d.called && Under(s0, b, r);
      assert r in Next(d, e).called;
    }
  }

  lemma {:induction false} RunOnlyAsked(s0: Store, d: Down, es: seq<Event>, d': Down)
    requires Inv(s0, d) && OnlyAsked(s0, d) && Runs(d, es, d')
    ensures OnlyAsked(s0, d')
    decreases |es|
  {
    if es != [] {
      StepKeeps(s0, d, es[0]);
      StepOnlyAsked(s0, d, es[0]);
      RunOnlyAsked(s0, Next(d, es[0]), es[1..], d');
    }
  }

  /**
   At every moment of any run of overlapping shutdowns: an actor that is down has only descendants
   that are down and out of the registry; only actors that were asked go down, and everybody else stays
   registered; nobody else's list changes except that of the parent of an actor that was called; and the
   rest is a tidy tree.
   */
  lemma ShutdownIsLeavesFirst(s0: Store, es: seq<Event>, d: Down)
    requires Tidy(s0) && s0.root !in s0.dead && Runs(Start(s0), es, d)
    ensures Tidy(d.store)
    ensures forall a, b :: a in d.store.dead && a !in s0.dead && b in s0.children && Live(s0, b) && Under(s0, b, a) ==>
      b in d.store.dead && b.name !in d.store.registry
    ensures OnlyAsked(s0, d)
    ensures d.store.registry == map m | m in s0.registry && s0.registry[m] !in d.store.dead :: s0.registry[m]
    ensures forall x :: x in s0.children && !Touched(s0, d.called, x) ==>
      x in d.store.children && d.store.children[x] == s0.children[x]
  {
    StartInv(s0);
    RunKeeps(s0, Start(s0), es, d);
    RunOnlyAsked(s0, Start(s0), es, d);
    StaysTidy(s0, d.store);
    forall a, b | a in d.store.dead && a !in s0.dead && b in s0.children && Live(s0, b) && Under(s0, b, a)
      ensures b in d.store.dead && b.name !in d.store.registry
    {
      DownwardClosed(s0, d.store, a, b);
    }
    forall x | x in s0.children && !Touched(s0, d.called, x)
      ensures x in d.store.children && d.store.children[x] == s0.children[x]
    {
      PrunedUntouched(s0, d, x, s0.children[x]);
    }
  }

  /** When a call returns, the whole subtree of its actor is down and unregistered. */
  lemma ShutdownCompletes(s0: Store, es: seq<Event>, d: Down, t: nat)
    requires Tidy(s0) && s0.root !in s0.dead && Runs(Start(s0), es, d)
    requires t < |d.tasks| && d.tasks[t].stage.Done? && d.tasks[t].actor in s0.children && Live(s0, d.tasks[t].actor)
    ensures forall b :: b in s0.children && Live(s0, b) && Under(s0, b, d.tasks[t].actor) ==>
      b in d.store.dead && b.name !in d.store.registry
  {
    StartInv(s0);
    RunKeeps(s0, Start(s0), es, d);
    assert TaskOk(s0, d, t);
    var a := d.tasks[t].actor;
    assert a != s0.root ==> s0.registry[a.name] !in s0.dead;
    forall b | b in s0.children && Live(s0, b) && Under(s0, b, a)
      ensures b in d.store.dead && b.name !in d.store.registry
    {
      DownwardClosed(s0, d.store, a, b);
    }
  }

  /** Shutting down the system actor empties the registry and leaves nobody up. */
  lemma SystemShutdownEmpties(s0: Store, es: seq<Event>, d: Down, t: nat)
    requires Tidy(s0) && s0.root !in s0.dead && Runs(Start(s0), es, d)
    requires t < |d.tasks| && d.tasks[t].stage.Done? && d.tasks[t].actor == s0.root
    ensures d.store.registry == map[]
    ensures forall b :: b in s0.children && Live(s0, b) ==> b in d.store.dead
  {
    ShutdownCompletes(s0, es, d, t);
    StartInv(s0);
    RunKeeps(s0, Start(s0), es, d);
    forall b | b in s0.children && Live(s0, b) ensures b in d.store.dead {
      EveryoneUnderRoot(s0, b);
    }
    forall m | m in s0.registry ensures m !in d.store.registry {
      assert s0.registry[m] in d.store.dead;
    }
  }
}
