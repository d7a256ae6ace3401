/**
 Whole runs of the system: any sequence of look-ups, restarts and shutdowns, and of creations that
 begin and finish one by one, any number of them in flight at a time.
 */
module Lifecycle {
  import opened Paths
  import opened ActorTree
  import opened TidyTree
  import R = Restarts
  import D = Shutdowns

  /**
   The hierarchy, the references handed to users by `createActor` and `getActorRef`, each with the name
   it was handed out for, and the instances whose creation waits for `beforeStart`.
   */
  datatype World = World(store: Store, handed: map<ActorRefImpl, string>, pending: set<Actor>)

  datatype Op =
    | BeginCreate(parent: ActorRefImpl, local: string, n: Actor, f: ActorRefImpl)
    | FinishCreate(n: Actor)
    | Lookup(name: string)
    | RestartAll(plan: R.Plan, begun: Store, order: seq<R.Event>)
    | ShutdownAll(calls: seq<D.Event>, down: D.Down)

  /** createActor is called with the live parent's own reference and a local name without slashes. */
  ghost predicate CanCreate(s: Store, parent: ActorRefImpl, local: string, n: Actor, f: ActorRefImpl) {
    && parent in s.target
    && var p := s.target[parent];
    && Live(s, p) && p !in s.dead && p in s.self && s.self[p] == parent && SlashFree(local)
    && n !in s.children && f !in s.target && n.name == p.name + "/" + local && n.parent == parent
  }

  /** The parent that a creation was begun under is still up. */
  ghost predicate ParentReady(s: Store, n: Actor) {
    && n.parent != null && n.parent in s.target
    && var p := s.target[n.parent];
    && Live(s, p) && p !in s.dead && p in s.self && s.self[p] == n.parent
  }

  ghost predicate NewName(pending: set<Actor>, n: Actor) {
    forall m :: m in pending ==> m.name != n.name
  }

  /**
   A creation may begin unless one in flight has the same name, and finish unless its parent has been
   shut down; both are the caller's to see to.
   */
  ghost predicate Steps(w: World, op: Op, w': World) {
    match op
    case BeginCreate(parent, local, n, f) =>
      && CanCreate(w.store, parent, local, n, f)
      && if n.name in w.store.registry then w' == w
         else NewName(w.pending, n) && w' == w.(store := Instantiate(w.store, n, f), pending := w.pending + {n})
    case FinishCreate(n) =>
      && n in w.pending && CanRegister(w.store, n) && ParentReady(w.store, n)
      && w' == World(Register(w.store, n), w.handed[w.store.self[n] := n.name], w.pending - {n})
    case Lookup(name) =>
      && Wired(w.store)
      && w' == (match LookedUp(w.store, name)
                case Some(r) => w.(handed := w.handed[r := name])
                case None => w)
    case RestartAll(plan, begun, order) =>
      && R.PlanOk(w.store, plan) && R.Begun(w.store, plan, begun)
      && R.Legal(plan, {}, {}, order) && R.Runs(plan, begun, order, w'.store)
      && w'.handed == w.handed && w'.pending == w.pending
    case ShutdownAll(order, down) =>
      && w.store.root !in w.store.dead
      && D.Runs(D.Start(w.store), order, down)
      && (forall t :: 0 <= t < |down.tasks| ==> down.tasks[t].stage.Done?)
      && w' == w.(store := down.store)
  }

  ghost predicate Runs(w: World, ops: seq<Op>, states: seq<World>)
  {
    && |states| == |ops| + 1 && states[0] == w
    && forall i :: 0 <= i < |ops| ==> Steps(states[i], ops[i], states[i + 1])
  }

  /** The reference leads to the newest instance called `name`, or to an actor of that name that was shut down. */
  ghost predicate RefOk(s: Store, r: ActorRefImpl, name: string) {
    && r in s.target && s.target[r].name == name
    && (s.target[r] in s.dead || (Live(s, s.target[r]) && s.target[r] in s.self && s.self[s.target[r]] == r))
  }

  /** An instance that the tree does not know yet. */
  ghost predicate InFlight(s: Store, n: Actor) {
    && n in s.children && n != s.root && s.children[n] == [] && n !in s.dead && !Live(s, n)
    && n in s.self && s.self[n] in s.target && s.target[s.self[n]] == n
  }

  ghost predicate PendingOk(w: World) {
    && (forall n {:trigger InFlight(w.store, n)} :: n in w.pending ==> InFlight(w.store, n))
    && (forall n :: n in w.pending ==> n.name !in w.store.registry && NewName(w.pending - {n}, n))
  }

  ghost predicate Good(w: World) {
    && Tidy(w.store) && PendingOk(w)
    && forall r :: r in w.handed ==> RefOk(w.store, r, w.handed[r])
  }

  // ---- Creation -------------------------------------------------------------------------------------

  lemma InstantiateClosed(s: Store, parent: ActorRefImpl, local: string, n: Actor, f: ActorRefImpl)
    requires Tidy(s) && CanCreate(s, parent, local, n, f)
    ensures Closed(Instantiate(s, n, f))
  {
    ChildNameBelow(s.target[parent].name, local);
    var s' := Instantiate(s, n, f);
    assert EntriesBelow(s');
    assert ParentsAbove(s');
  }

  /** Beginning a creation leaves the tree alone. */
  lemma InstantiateTidy(s: Store, parent: ActorRefImpl, local: string, n: Actor, f: ActorRefImpl)
    requires Tidy(s) && CanCreate(s, parent, local, n, f)
    ensures Tidy(Instantiate(s, n, f)) && InFlight(Instantiate(s, n, f), n)
  {
    InstantiateClosed(s, parent, local, n, f);
    var s' := Instantiate(s, n, f);
    forall a {:trigger Placed(s', a)} | a in s'.children && Live(s', a) && a != s'.root ensures Placed(s', a) {
      assert Placed(s, a);
      CountAgree(s.target, s'.target, s.children[s.target[a.parent]], a);
    }
    assert EntriesOk(s') by {
      forall a, c {:trigger c in s'.children[a]} | a in s'.children && Live(s', a) && c in s'.children[a]
        ensures c in s'.target && EntryOk(s', a, c)
      {
        assert EntryOk(s, a, c);
      }
    }
  }

  lemma {:induction false} CountNone(target: map<ActorRefImpl, Actor>, cs: seq<ActorRefImpl>, a: Actor)
    requires forall c :: c in cs ==> c in target && target[c] != a
    ensures Count(target, cs, a) == 0
  {
    if cs != [] {
      CountNone(target, cs[..|cs| - 1], a);
    }
  }

  /** No live actor lists an instance in flight. */
  lemma NotListed(s: Store, n: Actor, a: Actor)
    requires Tidy(s) && InFlight(s, n) && a in s.children && Live(s, a)
    ensures forall c :: c in s.children[a] ==> c in s.target && s.target[c] != n
  {
    forall c | c in s.children[a] ensures c in s.target && s.target[c] != n {
      assert EntryOk(s, a, c);
    }
  }

  lemma RegisterPlaces(s: Store, n: Actor, s': Store, a: Actor)
    requires Tidy(s) && InFlight(s, n) && n.name !in s.registry && ParentReady(s, n)
    requires CanRegister(s, n) && s' == Register(s, n)
    requires a in s'.children && Live(s', a) && a != s'.root
    ensures Placed(s', a)
  {
    var p := s.target[n.parent];
    var list := s.children[p];
    if a == n {
      NotListed(s, n, p);
      CountNone(s'.target, list, n);
      assert (list + [s.self[n]])[..|list|] == list;
    } else {
      assert Placed(s, a);
      if s.target[a.parent] == p {
        assert (list + [s.self[n]])[..|list|] == list;
      }
    }
  }

  lemma RegisterTidy(s: Store, n: Actor)
    requires Tidy(s) && InFlight(s, n) && n.name !in s.registry && ParentReady(s, n)
    ensures CanRegister(s, n) && Tidy(Register(s, n))
  {
    RegisterClosed(s, n);
    var s' := Register(s, n);
    forall a {:trigger Placed(s', a)} | a in s'.children && Live(s', a) && a != s'.root ensures Placed(s', a) {
      RegisterPlaces(s, n, s', a);
    }
    assert EntriesOk(s') by {
      forall a, c {:trigger c in s'.children[a]} | a in s'.children && Live(s', a) && c in s'.children[a]
        ensures c in s'.target && EntryOk(s', a, c)
      {
        if c in s.children[a] {
          assert a != n && EntryOk(s, a, c);
        }
      }
    }
  }

  /** Registering over a live actor of the same name leaves that actor's entry dangling. */
  lemma TakenNameIsUntidy(s: Store, n: Actor)
    requires Tidy(s) && InFlight(s, n) && n.name in s.registry
    ensures CanRegister(s, n) && !Tidy(Register(s, n))
  {
    RegisterClosed(s, n);
    var s', x := Register(s, n), s.registry[n.name];
    assert Live(s, x) && Placed(s, x);
    var p := s.target[x.parent];
    var c := CountWitness(s.target, s.children[p], x);
    assert |p.name| < |x.name|;
    assert Live(s', p) && c in s'.children[p];
    assert !EntryOk(s', p, c);
  }

  /**
   A creation finishes in a tidy tree if and only if its name is still free and its parent still up;
   the look at the registry when it began does not suffice.
   */
  lemma FinishIsTidyIff(s: Store, n: Actor)
    requires Tidy(s) && InFlight(s, n)
    ensures CanRegister(s, n)
    ensures Tidy(Register(s, n)) <==> n.name !in s.registry && ParentReady(s, n)
  {
    RegisterClosed(s, n);
    if n.name in s.registry {
      TakenNameIsUntidy(s, n);
    } else if ParentReady(s, n) {
      RegisterTidy(s, n);
    } else {
      assert Live(Register(s, n), n) && !Placed(Register(s, n), n);
    }
  }

  // ---- Every operation keeps it -----------------------------------------------------------------------

  lemma BeginKeeps(w: World, parent: ActorRefImpl, local: string, n: Actor, f: ActorRefImpl, w': World)
    requires Good(w) && Steps(w, BeginCreate(parent, local, n, f), w')
    ensures Good(w')
  {
    if n.name !in w.store.registry {
      InstantiateTidy(w.store, parent, local, n, f);
      forall m {:trigger InFlight(w'.store, m)} | m in w'.pending ensures InFlight(w'.store, m) {
        assert m != n ==> InFlight(w.store, m);
      }
      forall m | m in w'.pending ensures m.name !in w'.store.registry && NewName(w'.pending - {m}, m) {
        assert m != n ==> NewName(w.pending - {m}, m);
      }
      forall r | r in w'.handed ensures RefOk(w'.store, r, w'.handed[r]) {
        assert RefOk(w.store, r, w.handed[r]);
      }
    }
  }

  lemma FinishKeeps(w: World, n: Actor, w': World)
    requires Good(w) && Steps(w, FinishCreate(n), w')
    ensures Good(w')
  {
    assert InFlight(w.store, n);
    RegisterTidy(w.store, n);
    forall m {:trigger InFlight(w'.store, m)} | m in w'.pending ensures InFlight(w'.store, m) {
      assert InFlight(w.store, m) && NewName(w.pending - {n}, n);
    }
    forall m | m in w'.pending ensures m.name !in w'.store.registry && NewName(w'.pending - {m}, m) {
      assert NewName(w.pending - {n}, n) && NewName(w.pending - {m}, m);
    }
    forall r | r in w'.handed ensures RefOk(w'.store, r, w'.handed[r]) {
      if r != w.store.self[n] {
        assert RefOk(w.store, r, w.handed[r]);
      }
    }
  }

  lemma RestartRef(s0: Store, plan: R.Plan, t: Store, r: ActorRefImpl, name: string)
    requires R.Finished(s0, plan, t) && RefOk(s0, r, name)
    ensures RefOk(t, r, name)
  {
    var a := s0.target[r];
    assert a in plan ==> R.FreshOk(s0, plan, a) && s0.registry[a.name] !in s0.dead;
    if a !in s0.dead {
      R.RenewedLive(s0, plan, t, a);
    }
  }

  lemma RegisterKeepsEmpty(s0: Store, plan: R.Plan, reg: set<Actor>, rew: set<Actor>, s: Store, o: Actor, x: Actor)
    requires Tidy(s0) && R.PlanOk(s0, plan) && R.Mid(s0, plan, reg, rew, s) && o in plan && o !in reg
    requires x in s0.children && !Live(s0, x) && x in s.children && s.children[x] == []
    requires CanRegister(s, plan[o].actor)
    ensures x in Register(s, plan[o].actor).children && Register(s, plan[o].actor).children[x] == []
  {
    R.ParentHolds(s0, plan, reg, rew, s, o);
    var p := s0.target[o.parent];
    assert R.FreshOk(s0, plan, o) && (p in plan ==> R.FreshOk(s0, plan, p));
  }

  lemma RewireKeepsEmpty(s0: Store, plan: R.Plan, s: Store, o: Actor, x: Actor)
    requires R.PlanOk(s0, plan) && o in plan && CanRewire(s, o, plan[o].actor)
    requires x in s0.children && x in s.children && s.children[x] == []
    ensures x in Rewire(s, o, plan[o].actor).children && Rewire(s, o, plan[o].actor).children[x] == []
  {
    assert R.FreshOk(s0, plan, o);
  }

  /** The list of an instance in flight stays empty through a restart. */
  lemma {:induction false} RunKeepsEmpty(s0: Store, plan: R.Plan, reg: set<Actor>, rew: set<Actor>, s: Store,
                                         es: seq<R.Event>, t: Store, x: Actor)
    requires Tidy(s0) && R.PlanOk(s0, plan) && R.Mid(s0, plan, reg, rew, s)
    requires R.Legal(plan, reg, rew, es) && R.Runs(plan, s, es, t)
    requires x in s0.children && !Live(s0, x) && x in s.children && s.children[x] == []
    ensures x in t.children && t.children[x] == []
    decreases |es|
  {
    hide R.Mid, Tidy, R.PlanOk;
    if es != [] {
      match es[0]
      case DoRegister(o) =>
        R.RegisterMid(s0, plan, reg, rew, s, o);
        RegisterKeepsEmpty(s0, plan, reg, rew, s, o, x);
        RunKeepsEmpty(s0, plan, reg + {o}, rew, Register(s, plan[o].actor), es[1..], t, x);
      case DoRewire(o) =>
        R.RewireMid(s0, plan, reg, rew, s, o);
        RewireKeepsEmpty(s0, plan, s, o, x);
        RunKeepsEmpty(s0, plan, reg, rew + {o}, Rewire(s, o, plan[o].actor), es[1..], t, x);
    }
  }

  lemma RestartPending(s0: Store, plan: R.Plan, begun: Store, order: seq<R.Event>, t: Store, n: Actor)
    requires Tidy(s0) && R.PlanOk(s0, plan) && R.Begun(s0, plan, begun)
    requires R.Legal(plan, {}, {}, order) && R.Runs(plan, begun, order, t) && InFlight(s0, n)
    ensures InFlight(t, n)
  {
    R.BegunMid(s0, plan, begun);
    RunKeepsEmpty(s0, plan, {}, {}, begun, order, t, n);
    R.RunMid(s0, plan, {}, {}, begun, order, t);
    assert n in plan ==> R.FreshOk(s0, plan, n);
    if n.name in s0.registry {
      var o := s0.registry[n.name];
      assert o in plan ==> R.FreshOk(s0, plan, o);
    }
  }

  lemma RestartTidy(s0: Store, plan: R.Plan, begun: Store, order: seq<R.Event>, t: Store)
    requires Tidy(s0) && R.PlanOk(s0, plan) && R.Begun(s0, plan, begun)
    requires R.Legal(plan, {}, {}, order) && R.Runs(plan, begun, order, t)
    ensures Tidy(t) && R.Finished(s0, plan, t) && t.registry.Keys == s0.registry.Keys
  {
    R.BegunMid(s0, plan, begun);
    R.RunMid(s0, plan, {}, {}, begun, order, t);
    R.FinalTidy(s0, plan, t);
  }

  lemma RestartKeeps(w: World, plan: R.Plan, begun: Store, order: seq<R.Event>, w': World)
    requires Good(w) && Steps(w, RestartAll(plan, begun, order), w')
    ensures Good(w')
  {
    hide InFlight, RefOk, Tidy, R.PlanOk, R.Begun, R.Legal, R.Runs, R.Finished;
    RestartTidy(w.store, plan, begun, order, w'.store);
    forall n {:trigger InFlight(w'.store, n)} | n in w'.pending ensures InFlight(w'.store, n) {
      RestartPending(w.store, plan, begun, order, w'.store, n);
    }
    forall r | r in w'.handed ensures RefOk(w'.store, r, w'.handed[r]) {
      RestartRef(w.store, plan, w'.store, r, w.handed[r]);
    }
  }

  lemma ShutdownTidy(s0: Store, order: seq<D.Event>, down: D.Down)
    requires Tidy(s0) && D.Runs(D.Start(s0), order, down)
    ensures Tidy(down.store) && D.StoreOk(s0, down.store)
  {
    D.StartInv(s0);
    D.RunKeeps(s0, D.Start(s0), order, down);
    D.StaysTidy(s0, down.store);
  }

  lemma ShutdownPending(s0: Store, s: Store, n: Actor)
    requires Tidy(s0) && D.StoreOk(s0, s) && InFlight(s0, n)
    ensures InFlight(s, n)
    ensures n.name !in s0.registry ==> n.name !in s.registry
  {
    assert n in s.children && s.children[n] == D.Pruned(s0, s.dead, n, []);
  }

  lemma ShutdownRef(s0: Store, s: Store, r: ActorRefImpl, name: string)
    requires Tidy(s0) && D.StoreOk(s0, s) && RefOk(s0, r, name)
    ensures RefOk(s, r, name)
  {
  }

  lemma ShutdownKeeps(w: World, order: seq<D.Event>, down: D.Down, w': World)
    requires Good(w) && Steps(w, ShutdownAll(order, down), w')
    ensures Good(w')
  {
    hide InFlight, RefOk, Tidy, D.StoreOk, D.Runs;
    ShutdownTidy(w.store, order, down);
    forall n {:trigger InFlight(w'.store, n)} | n in w'.pending
      ensures InFlight(w'.store, n) && n.name !in w'.store.registry
    {
      ShutdownPending(w.store, w'.store, n);
    }
    forall r | r in w'.handed ensures RefOk(w'.store, r, w'.handed[r]) {
      ShutdownRef(w.store, w'.store, r, w.handed[r]);
    }
  }

  lemma LookupKeeps(w: World, name: string, w': World)
    requires Good(w) && Steps(w, Lookup(name), w')
    ensures Good(w')
  {
    assert name in w.store.registry ==> w.store.registry[name] !in w.store.dead;
  }

  lemma StepKeeps(w: World, op: Op, w': World)
    requires Good(w) && Steps(w, op, w')
    ensures Good(w')
  {
    hide Good, Steps;
    match op
    case BeginCreate(parent, local, n, f) => BeginKeeps(w, parent, local, n, f, w');
    case FinishCreate(n) => FinishKeeps(w, n, w');
    case Lookup(name) => LookupKeeps(w, name, w');
    case RestartAll(plan, begun, order) => RestartKeeps(w, plan, begun, order, w');
    case ShutdownAll(order, down) => ShutdownKeeps(w, order, down, w');
  }

  // ---- The theorem ------------------------------------------------------------------------------------

  /** A fresh system: only the system actor. */
  ghost function NewSystem(root: Actor, ref: ActorRefImpl): World {
    World(Alone(root, ref), map[], {})
  }

  lemma {:induction false} RunGood(w: World, ops: seq<Op>, states: seq<World>, i: nat)
    requires Good(w) && Runs(w, ops, states) && i < |states|
    ensures Good(states[i])
  {
    if i > 0 {
      RunGood(w, ops, states, i - 1);
      StepKeeps(states[i - 1], ops[i - 1], states[i]);
    }
  }

  /** Registered under its own name. */
  ghost predicate Registered(s: Store, b: Actor) {
    b.name in s.registry && s.registry[b.name] == b
  }

  /**
   Whatever creations are in flight, the registry lists exactly the actors that live entries lead to
   from the system actor, each under its own name.
   */
  lemma RegistryMatchesTree(root: Actor, ref: ActorRefImpl, ops: seq<Op>, states: seq<World>, i: nat)
    requires root.parent == null && Runs(NewSystem(root, ref), ops, states) && i < |states|
    ensures forall n :: n in states[i].store.registry ==>
      states[i].store.registry[n].name == n && states[i].store.registry[n] !in states[i].store.dead
    ensures forall b :: b in states[i].store.children && b != states[i].store.root ==>
      (Registered(states[i].store, b) <==> exists path :: Reached(states[i].store, path, b))
  {
    RunGood(NewSystem(root, ref), ops, states, i);
    var s := states[i].store;
    forall b | b in s.children && b != s.root
      ensures Registered(s, b) <==> exists path :: Reached(s, path, b)
    {
      if Registered(s, b) {
        var path := RegisteredIsReached(s, b);
      }
      if path :| Reached(s, path, b) {
        ReachedIsRegistered(s, path, b);
      }
    }
  }

  /**
   Whatever creations are in flight, a reference that was ever handed out leads to an actor of the name
   it was handed out for: one that was shut down, or the newest instance, which is the system actor or
   the one the registry knows.
   */
  lemma HandedRefsAreCurrent(root: Actor, ref: ActorRefImpl, ops: seq<Op>, states: seq<World>, i: nat, r: ActorRefImpl)
    requires root.parent == null && Runs(NewSystem(root, ref), ops, states) && i < |states|
    requires r in states[i].handed
    ensures var s := states[i].store;
      && r in s.target && s.target[r].name == states[i].handed[r]
      && var a := s.target[r];
      a in s.dead || a == s.root || Registered(s, a)
  {
    RunGood(NewSystem(root, ref), ops, states, i);
    assert RefOk(states[i].store, r, states[i].handed[r]);
  }
}
