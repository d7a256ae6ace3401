/**
 A restart of several actors at once. Every restart is two atomic steps, REGISTER and REWIRE, and
 the steps of different actors interleave freely; the old tree `s0` and the plan say what every
 intermediate state looks like.
 */
module Restarts {
  import opened Paths
  import opened ActorTree
  import opened TidyTree

  datatype Fresh = Fresh(actor: Actor, ref: ActorRefImpl)

  /** The old instance of each restarting actor, with the instance created for it. */
  type Plan = map<Actor, Fresh>

  ghost predicate FreshOk(s0: Store, plan: Plan, o: Actor)
    requires o in plan
  {
    && Live(s0, o) && o != s0.root
    && plan[o].actor !in s0.children && plan[o].ref !in s0.target
    && plan[o].actor.name == o.name && plan[o].actor.parent == o.parent
  }

  ghost predicate PlanOk(s0: Store, plan: Plan) {
    && (forall o {:trigger plan[o]} :: o in plan ==> FreshOk(s0, plan, o))
    && (forall o, p {:trigger plan[o], plan[p]} :: o in plan && p in plan && o != p ==>
      plan[o].actor != plan[p].actor && plan[o].ref != plan[p].ref)
  }

  /** The instance that holds the child list of `a` once the actors in `rew` are rewired. */
  ghost function Hold(plan: Plan, rew: set<Actor>, a: Actor): Actor {
    if a in rew && a in plan then plan[a].actor else a
  }

  /** `m` names a restarting child of `a`. */
  ghost predicate IsRestarting(s0: Store, plan: Plan, a: Actor, m: string) {
    && m in s0.registry && s0.registry[m] in plan
    && var o := s0.registry[m];
    o.parent != null && o.parent in s0.target && s0.target[o.parent] == a
  }

  /** The entries called `m` that the list of `a` holds at this point of the restart. */
  ghost function Expect(s0: Store, plan: Plan, reg: set<Actor>, rew: set<Actor>, a: Actor, m: string): seq<ActorRefImpl>
    requires a in s0.children
  {
    var before := Named(s0.target, s0.children[a], m);
    if !IsRestarting(s0, plan, a, m) then before
    else
      var o := s0.registry[m];
      if o in rew then [plan[o].ref] else if o in reg then before + [plan[o].ref] else before
  }

  ghost predicate ListOk(s0: Store, plan: Plan, reg: set<Actor>, rew: set<Actor>, s: Store, a: Actor, m: string)
    requires a in s0.children
  {
    var h := Hold(plan, rew, a);
    h in s.children && Named(s.target, s.children[h], m) == Expect(s0, plan, reg, rew, a, m)
  }

  ghost predicate ListsOk(s0: Store, plan: Plan, reg: set<Actor>, rew: set<Actor>, s: Store) {
    forall a, m {:trigger ListOk(s0, plan, reg, rew, s, a, m)} :: a in s0.children && Live(s0, a) ==>
      ListOk(s0, plan, reg, rew, s, a, m)
  }

  ghost predicate RegistryOk(s0: Store, plan: Plan, reg: set<Actor>, s: Store) {
    && s.registry.Keys == s0.registry.Keys
    && forall m {:trigger s.registry[m]} {:trigger s0.registry[m]} :: m in s0.registry ==>
      s.registry[m] == Hold(plan, reg, s0.registry[m])
  }

  ghost predicate TargetsOk(s0: Store, plan: Plan, rew: set<Actor>, s: Store) {
    && (forall r {:trigger r in s.target} :: r in s0.target ==> r in s.target)
    && (forall r {:trigger s.target[r]} :: r in s0.target && r in s.target ==>
      s.target[r] == if s0.target[r] in s0.self && s0.self[s0.target[r]] == r then Hold(plan, rew, s0.target[r])
                     else s0.target[r])
    && (forall o {:trigger plan[o]} :: o in plan ==> plan[o].ref in s.target && s.target[plan[o].ref] == plan[o].actor)
  }

  ghost predicate SelvesOk(s0: Store, plan: Plan, rew: set<Actor>, s: Store) {
    && (forall a {:trigger a in s.self} :: a in s0.self ==> a in s.self)
    && (forall a {:trigger s.self[a]} :: a in s0.self && a in s.self ==> s.self[a] == s0.self[a])
    && (forall o {:trigger plan[o]} :: o in plan ==>
      && plan[o].actor in s.self && o in s0.self
      && s.self[plan[o].actor] == if o in rew then s0.self[o] else plan[o].ref)
  }

  ghost predicate InstancesOk(s0: Store, plan: Plan, rew: set<Actor>, s: Store) {
    && (forall a {:trigger a in s.children} :: a in s0.children ==> a in s.children)
    && (forall o {:trigger plan[o]} :: o in plan ==>
      plan[o].actor in s.children && (o !in rew ==> s.children[plan[o].actor] == []))
  }

  /** The state after the actors in `reg` have registered and those in `rew` have rewired. */
  ghost predicate Mid(s0: Store, plan: Plan, reg: set<Actor>, rew: set<Actor>, s: Store) {
    && rew <= reg <= plan.Keys
    && s.root == s0.root && s.dead == s0.dead
    && Closed(s)
    && RegistryOk(s0, plan, reg, s) && TargetsOk(s0, plan, rew, s) && SelvesOk(s0, plan, rew, s)
    && InstancesOk(s0, plan, rew, s) && ListsOk(s0, plan, reg, rew, s)
  }

  // ---- REGISTER ---------------------------------------------------------------------------------

  /** The parent an actor registers with is whichever instance holds the parent's list by then. */
  lemma ParentHolds(s0: Store, plan: Plan, reg: set<Actor>, rew: set<Actor>, s: Store, o: Actor)
    requires Tidy(s0) && PlanOk(s0, plan) && Mid(s0, plan, reg, rew, s) && o in plan
    ensures o.parent != null && o.parent in s0.target && o.parent in s.target
    ensures s0.target[o.parent] in s0.children && Live(s0, s0.target[o.parent])
    ensures s.target[o.parent] == Hold(plan, rew, s0.target[o.parent])
    ensures |s0.target[o.parent].name| < |o.name|
  {
    assert FreshOk(s0, plan, o);
    assert Placed(s0, o);
  }

  /** How a REGISTER changes what is expected of a list. */
  lemma RegisterExpect(s0: Store, plan: Plan, reg: set<Actor>, rew: set<Actor>, o: Actor, a: Actor, m: string)
    requires PlanOk(s0, plan) && RegistryKnown(s0) && o in plan && o !in reg && rew <= reg && a in s0.children
    requires o.parent != null && o.parent in s0.target
    ensures Expect(s0, plan, reg + {o}, rew, a, m) ==
      Expect(s0, plan, reg, rew, a, m) + if m == o.name && s0.target[o.parent] == a then [plan[o].ref] else []
  {
    assert FreshOk(s0, plan, o);
    var before := Expect(s0, plan, reg, rew, a, m);
    assert before + [] == before;
  }

  /** What a REGISTER does to the entries called `m`. */
  lemma RegisterNamed(s: Store, n: Actor, v: Actor, m: string)
    requires Closed(s) && CanRegister(s, n) && v in s.children
    ensures v in Register(s, n).children
    ensures Named(Register(s, n).target, Register(s, n).children[v], m) ==
      Named(s.target, s.children[v], m) + if m == n.name && v == s.target[n.parent] then [s.self[n]] else []
  {
    assert s.target[s.self[n]].name == n.name;
    NamedSnoc(s.target, s.children[v], s.self[n], m);
  }

  lemma RegisterList(s0: Store, plan: Plan, reg: set<Actor>, rew: set<Actor>, s: Store, o: Actor, a: Actor, m: string)
    requires PlanOk(s0, plan) && RegistryKnown(s0) && o in plan && o !in reg && rew <= reg
    requires o.parent != null && o.parent in s0.target && s0.target[o.parent] in s0.children
    requires Closed(s) && CanRegister(s, plan[o].actor) && s.self[plan[o].actor] == plan[o].ref
    requires s.target[o.parent] == Hold(plan, rew, s0.target[o.parent])
    requires a in s0.children && ListOk(s0, plan, reg, rew, s, a, m)
    ensures ListOk(s0, plan, reg + {o}, rew, Register(s, plan[o].actor), a, m)
  {
    assert FreshOk(s0, plan, o);
    RegisterNamed(s, plan[o].actor, Hold(plan, rew, a), m);
    RegisterExpect(s0, plan, reg, rew, o, a, m);
    var p := s0.target[o.parent];
    assert a in plan ==> FreshOk(s0, plan, a);
    assert p in plan ==> FreshOk(s0, plan, p);
    assert Hold(plan, rew, a) == Hold(plan, rew, p) <==> a == p;
  }

  lemma RegisterLists(s0: Store, plan: Plan, reg: set<Actor>, rew: set<Actor>, s: Store, o: Actor)
    requires Tidy(s0) && PlanOk(s0, plan) && Mid(s0, plan, reg, rew, s)
    requires o in plan && o !in reg && CanRegister(s, plan[o].actor)
    ensures ListsOk(s0, plan, reg + {o}, rew, Register(s, plan[o].actor))
  {
    var s' := Register(s, plan[o].actor);
    ParentHolds(s0, plan, reg, rew, s, o);
    forall a, m {:trigger ListOk(s0, plan, reg + {o}, rew, s', a, m)} | a in s0.children && Live(s0, a)
      ensures ListOk(s0, plan, reg + {o}, rew, s', a, m)
    {
      assert ListOk(s0, plan, reg, rew, s, a, m);
      RegisterList(s0, plan, reg, rew, s, o, a, m);
    }
  }

  lemma RegisterRegistry(s0: Store, plan: Plan, reg: set<Actor>, s: Store, o: Actor)
    requires PlanOk(s0, plan) && RegistryOk(s0, plan, reg, s) && RegistryKnown(s0)
    requires o in plan && o !in reg && CanRegister(s, plan[o].actor)
    ensures RegistryOk(s0, plan, reg + {o}, Register(s, plan[o].actor))
  {
    assert FreshOk(s0, plan, o) && Live(s0, o);
    var s' := Register(s, plan[o].actor);
    forall m | m in s0.registry ensures s'.registry[m] == Hold(plan, reg + {o}, s0.registry[m]) {
      assert s.registry[m] == Hold(plan, reg, s0.registry[m]);
    }
  }

  lemma RegisterInstances(s0: Store, plan: Plan, reg: set<Actor>, rew: set<Actor>, s: Store, o: Actor)
    requires Tidy(s0) && PlanOk(s0, plan) && Mid(s0, plan, reg, rew, s)
    requires o in plan && o !in reg && CanRegister(s, plan[o].actor)
    ensures InstancesOk(s0, plan, rew, Register(s, plan[o].actor))
  {
    hide Tidy, Closed, ListsOk, RegistryOk, TargetsOk, SelvesOk, Hold, Live;
    ParentHolds(s0, plan, reg, rew, s, o);
    assert FreshOk(s0, plan, o);
    var s', p := Register(s, plan[o].actor), s0.target[o.parent];
    forall q {:trigger plan[q]} | q in plan && q !in rew ensures s'.children[plan[q].actor] == [] {
      HolderName(s0, plan, rew, q, p);
    }
  }

  /** A REGISTER leaves the references alone. */
  lemma RegisterRefs(s0: Store, plan: Plan, rew: set<Actor>, s: Store, n: Actor)
    requires CanRegister(s, n) && TargetsOk(s0, plan, rew, s) && SelvesOk(s0, plan, rew, s)
    ensures TargetsOk(s0, plan, rew, Register(s, n)) && SelvesOk(s0, plan, rew, Register(s, n))
  {
    var s' := Register(s, n);
    assert s'.target == s.target && s'.self == s.self;
  }

  lemma FreshIsKnown(s0: Store, plan: Plan, reg: set<Actor>, rew: set<Actor>, s: Store, o: Actor)
    requires Tidy(s0) && PlanOk(s0, plan) && Mid(s0, plan, reg, rew, s) && o in plan
    ensures plan[o].actor in s.children && plan[o].actor != s.root
  {
    assert FreshOk(s0, plan, o);
  }

  lemma RegisterMid(s0: Store, plan: Plan, reg: set<Actor>, rew: set<Actor>, s: Store, o: Actor)
    requires Tidy(s0) && PlanOk(s0, plan) && Mid(s0, plan, reg, rew, s)
    requires o in plan && o !in reg
    ensures CanRegister(s, plan[o].actor)
    ensures Mid(s0, plan, reg + {o}, rew, Register(s, plan[o].actor))
  {
    hide PlanOk, ListsOk, TargetsOk, SelvesOk, InstancesOk, RegistryOk, CanRegister;
    FreshIsKnown(s0, plan, reg, rew, s, o);
    RegisterClosed(s, plan[o].actor);
    RegisterLists(s0, plan, reg, rew, s, o);
    RegisterRegistry(s0, plan, reg, s, o);
    RegisterInstances(s0, plan, reg, rew, s, o);
    RegisterRefs(s0, plan, rew, s, plan[o].actor);
  }

  // ---- REWIRE -----------------------------------------------------------------------------------

  /** Half-way, the holder of a parent's list has an entry that leads to the holder of the child's list. */
  lemma EntryToHolder(s0: Store, plan: Plan, reg: set<Actor>, rew: set<Actor>, s: Store, a: Actor)
    returns (c: ActorRefImpl)
    requires Tidy(s0) && PlanOk(s0, plan) && Mid(s0, plan, reg, rew, s)
    requires a in s0.children && Live(s0, a) && a != s0.root
    ensures a.parent != null && a.parent in s0.target && Live(s0, s0.target[a.parent])
    ensures s0.target[a.parent] in s0.children && |s0.target[a.parent].name| < |a.name|
    ensures var h := Hold(plan, rew, s0.target[a.parent]);
      h in s.children && c in s.children[h] && c in s.target && s.target[c] == Hold(plan, rew, a)
  {
    assert Placed(s0, a);
    var p := s0.target[a.parent];
    assert ListOk(s0, plan, reg, rew, s, p, a.name);
    var h := Hold(plan, rew, p);
    if a in rew {
      c := plan[a].ref;
      assert FreshOk(s0, plan, a);
      assert c in Named(s.target, s.children[h], a.name);
    } else {
      c := CountWitness(s0.target, s0.children[p], a);
      NamedIn(s0.target, s0.children[p], a.name);
      assert c in Named(s0.target, s0.children[p], a.name);
      assert c in Named(s.target, s.children[h], a.name) by {
        if IsRestarting(s0, plan, p, a.name) {
          assert s0.registry[a.name] == a;
        }
      }
      if s0.self[a] == c {
        assert s.target[c] == a;
      }
    }
    NamedIn(s.target, s.children[h], a.name);
  }

  /** A holder bears its actor's name, and is not an instance that has yet to take over. */
  lemma HolderName(s0: Store, plan: Plan, rew: set<Actor>, o: Actor, a: Actor)
    requires PlanOk(s0, plan) && o in plan && o !in rew && a in s0.children
    ensures Hold(plan, rew, a).name == a.name && Hold(plan, rew, a) != plan[o].actor
    ensures a == s0.root ==> Hold(plan, rew, a) == a
  {
    assert FreshOk(s0, plan, o) && (a in plan ==> FreshOk(s0, plan, a));
  }

  /** The traversal of a REWIRE comes by every holder of a list above the rewired actor. */
  lemma {:induction false} HolderVisited(s0: Store, plan: Plan, reg: set<Actor>, rew: set<Actor>, s: Store,
                                        o: Actor, a: Actor)
    requires Tidy(s0) && PlanOk(s0, plan) && Mid(s0, plan, reg, rew, s)
    requires o in reg && o !in rew && CanRewire(s, o, plan[o].actor)
    requires a in s0.children && Live(s0, a) && |a.name| < |o.name|
    ensures Visits(Taken(s, o, plan[o].actor), s.root, o.name, Hold(plan, rew, a))
    decreases |a.name|
  {
    hide Tidy, PlanOk, Closed, ListsOk, RegistryOk, TargetsOk, SelvesOk, InstancesOk, Hold, Live, Grows;
    var s1 := Taken(s, o, plan[o].actor);
    HolderName(s0, plan, rew, o, a);
    if a != s0.root {
      var c := EntryToHolder(s0, plan, reg, rew, s, a);
      var p := s0.target[a.parent];
      HolderVisited(s0, plan, reg, rew, s, o, p);
      HolderName(s0, plan, rew, o, p);
      VisitsStep(s1, s.root, o.name, Hold(plan, rew, p), c);
    } else {
      VisitsItself(s1, s.root, o.name);
    }
  }

  lemma VisitsItself(s: Store, a: Actor, m: string)
    requires Grows(s) && a in s.children
    ensures Visits(s, a, m, a)
  {
  }

  /** What a REWIRE does to the entries called `m` in a list it does not move. */
  lemma RewireNamed(s: Store, o: Actor, n: Actor, v: Actor, m: string)
    requires CanRewire(s, o, n) && v in s.children && v != o && v != n
    ensures v in Rewire(s, o, n).children
    ensures Named(Rewire(s, o, n).target, Rewire(s, o, n).children[v], m) ==
      if m == o.name && Visits(Taken(s, o, n), s.root, o.name, v) && Named(s.target, s.children[v], m) != []
      then [s.self[n]]
      else Named(s.target, s.children[v], m)
  {
    var s', f := Rewire(s, o, n), s.self[n];
    assert IsNamed(s.target, f, o.name);
    CollapseNamed(s.target, s.children[v], o.name, f, m);
    RewireNames(s, o, n);
    RewireClosed(s, o, n);
    NamedSameNames(s.target, s'.target, s'.children[v], m);
  }

  /** The fresh instance receives the old one's list unchanged. */
  lemma RewireMoves(s: Store, o: Actor, n: Actor, m: string)
    requires CanRewire(s, o, n)
    ensures n in Rewire(s, o, n).children
    ensures Named(Rewire(s, o, n).target, Rewire(s, o, n).children[n], m) == Named(s.target, s.children[o], m)
  {
    var s', cs := Rewire(s, o, n), s.children[o];
    NamedIn(s.target, cs, o.name);
    FirstIn(Named(s.target, cs, o.name));
    assert s'.children[n] == cs;
    RewireNames(s, o, n);
    NamedSameNames(s.target, s'.target, cs, m);
  }

  /** Only the parent of `o` can hold entries called like it. */
  lemma NobodyElseNames(s0: Store, a: Actor, o: Actor)
    requires Tidy(s0) && a in s0.children && Live(s0, a) && Live(s0, o) && o != s0.root
    requires Named(s0.target, s0.children[a], o.name) != []
    ensures o.parent != null && o.parent in s0.target && s0.target[o.parent] == a
  {
    assert Placed(s0, o);
    var named := Named(s0.target, s0.children[a], o.name);
    NamedIn(s0.target, s0.children[a], o.name);
    assert named[0] in named;
    LiveUnique(s0, a, s0.target[o.parent]);
  }

  lemma RewireEnabled(s0: Store, plan: Plan, reg: set<Actor>, rew: set<Actor>, s: Store, o: Actor)
    requires Tidy(s0) && PlanOk(s0, plan) && Mid(s0, plan, reg, rew, s) && o in reg && o !in rew
    ensures CanRewire(s, o, plan[o].actor)
  {
    assert FreshOk(s0, plan, o);
    assert s.target[s.self[o]] == o;
  }

  lemma RewireList(s0: Store, plan: Plan, reg: set<Actor>, rew: set<Actor>, s: Store, o: Actor, a: Actor, m: string)
    requires PlanOk(s0, plan) && o in reg && o !in rew && o in plan
    requires CanRewire(s, o, plan[o].actor) && s.self[plan[o].actor] == plan[o].ref
    requires a in s0.children && a != o && ListOk(s0, plan, reg, rew, s, a, m)
    requires Expect(s0, plan, reg, rew + {o}, a, m) ==
      if m == o.name && Expect(s0, plan, reg, rew, a, m) != [] then [plan[o].ref] else Expect(s0, plan, reg, rew, a, m)
    requires m == o.name && Expect(s0, plan, reg, rew, a, m) != [] ==>
      Visits(Taken(s, o, plan[o].actor), s.root, o.name, Hold(plan, rew, a))
    ensures ListOk(s0, plan, reg, rew + {o}, Rewire(s, o, plan[o].actor), a, m)
  {
    assert FreshOk(s0, plan, o);
    assert a in plan ==> plan[a].actor != plan[o].actor && FreshOk(s0, plan, a);
    assert Live(s0, o);
    RewireNamed(s, o, plan[o].actor, Hold(plan, rew, a), m);
  }

  /** How a REWIRE changes what is expected of a list. */
  lemma RewireExpect(s0: Store, plan: Plan, reg: set<Actor>, rew: set<Actor>, o: Actor, a: Actor, m: string)
    requires Tidy(s0) && PlanOk(s0, plan) && o in plan && o in reg && o !in rew
    requires a in s0.children && Live(s0, a)
    ensures o.parent != null && o.parent in s0.target
    ensures Expect(s0, plan, reg, rew + {o}, a, m) ==
      if m == o.name && Expect(s0, plan, reg, rew, a, m) != [] then [plan[o].ref] else Expect(s0, plan, reg, rew, a, m)
    ensures m == o.name ==> (s0.target[o.parent] == a <==> Expect(s0, plan, reg, rew, a, m) != [])
  {
    assert FreshOk(s0, plan, o);
    assert Placed(s0, o);
    if m == o.name && s0.target[o.parent] != a && Named(s0.target, s0.children[a], m) != [] {
      NobodyElseNames(s0, a, o);
    }
  }

  lemma RewireListAt(s0: Store, plan: Plan, reg: set<Actor>, rew: set<Actor>, s: Store, o: Actor, a: Actor, m: string)
    requires Tidy(s0) && PlanOk(s0, plan) && Mid(s0, plan, reg, rew, s) && o in reg && o !in rew
    requires CanRewire(s, o, plan[o].actor)
    requires a in s0.children && Live(s0, a) && ListOk(s0, plan, reg, rew, s, a, m)
    ensures ListOk(s0, plan, reg, rew + {o}, Rewire(s, o, plan[o].actor), a, m)
  {
    hide Tidy, PlanOk, Rewire, ListsOk, Visits, RegistryOk, TargetsOk, InstancesOk, Closed, Expect, Named, CanTakeOver;
    RewireExpect(s0, plan, reg, rew, o, a, m);
    ParentHolds(s0, plan, reg, rew, s, o);
    if a == o {
      RewireMoves(s, o, plan[o].actor, m);
    } else {
      if m == o.name && s0.target[o.parent] == a {
        HolderVisited(s0, plan, reg, rew, s, o, a);
      }
      RewireList(s0, plan, reg, rew, s, o, a, m);
    }
  }

  lemma RewireLists(s0: Store, plan: Plan, reg: set<Actor>, rew: set<Actor>, s: Store, o: Actor)
    requires Tidy(s0) && PlanOk(s0, plan) && Mid(s0, plan, reg, rew, s) && o in reg && o !in rew
    requires CanRewire(s, o, plan[o].actor)
    ensures ListsOk(s0, plan, reg, rew + {o}, Rewire(s, o, plan[o].actor))
  {
    hide Tidy, PlanOk, CanTakeOver, Rewire, ListOk, RegistryOk, TargetsOk, InstancesOk, Closed;
    var s' := Rewire(s, o, plan[o].actor);
    forall a, m {:trigger ListOk(s0, plan, reg, rew + {o}, s', a, m)} | a in s0.children && Live(s0, a)
      ensures ListOk(s0, plan, reg, rew + {o}, s', a, m)
    {
      assert ListOk(s0, plan, reg, rew, s, a, m);
      RewireListAt(s0, plan, reg, rew, s, o, a, m);
    }
  }

  lemma RewireTargets(s0: Store, plan: Plan, rew: set<Actor>, s: Store, o: Actor, s': Store)
    requires PlanOk(s0, plan) && TargetsOk(s0, plan, rew, s) && SelfOk(s0) && RefsKnown(s0)
    requires o in plan && o !in rew && o in s.self && o in s0.self && s.self[o] == s0.self[o]
    requires s'.target == s.target[s.self[o] := plan[o].actor]
    ensures TargetsOk(s0, plan, rew + {o}, s')
  {
    assert FreshOk(s0, plan, o);
    assert s0.target[s0.self[o]] == o;
  }

  lemma RewireSelves(s0: Store, plan: Plan, rew: set<Actor>, s: Store, o: Actor, s': Store)
    requires PlanOk(s0, plan) && SelvesOk(s0, plan, rew, s) && SelfKnown(s0) && o in plan && o !in rew
    requires o in s.self && o in s0.self && s.self[o] == s0.self[o]
    requires s'.self == s.self[plan[o].actor := s.self[o]]
    ensures SelvesOk(s0, plan, rew + {o}, s')
  {
    assert FreshOk(s0, plan, o);
  }

  lemma RewireRefs(s0: Store, plan: Plan, reg: set<Actor>, rew: set<Actor>, s: Store, o: Actor, s': Store)
    requires Tidy(s0) && PlanOk(s0, plan) && Mid(s0, plan, reg, rew, s) && o in reg && o !in rew
    requires plan[o].actor in s.self && o in s.self
    requires s'.target == s.target[s.self[o] := plan[o].actor]
    requires s'.self == s.self[plan[o].actor := s.self[o]]
    ensures TargetsOk(s0, plan, rew + {o}, s') && SelvesOk(s0, plan, rew + {o}, s')
  {
    assert FreshOk(s0, plan, o);
    RewireTargets(s0, plan, rew, s, o, s');
    RewireSelves(s0, plan, rew, s, o, s');
  }

  /** A childless actor that is not the restarted one stays childless. */
  lemma EmptyStaysEmpty(s: Store, o: Actor, n: Actor, v: Actor)
    requires CanTakeOver(s, o, n) && v in s.children && v != n && v != o && s.children[v] == []
    ensures v in Rewire(s, o, n).children && Rewire(s, o, n).children[v] == []
  {
  }

  lemma RewireKeys(s: Store, o: Actor, n: Actor)
    requires CanTakeOver(s, o, n)
    ensures Rewire(s, o, n).children.Keys == s.children.Keys
  {
  }

  lemma RewireInstances(s0: Store, plan: Plan, reg: set<Actor>, rew: set<Actor>, s: Store, o: Actor)
    requires PlanOk(s0, plan) && InstancesOk(s0, plan, rew, s) && o in plan
    requires CanTakeOver(s, o, plan[o].actor)
    ensures InstancesOk(s0, plan, rew + {o}, Rewire(s, o, plan[o].actor))
  {
    hide Rewire, CanTakeOver;
    assert FreshOk(s0, plan, o);
    var s', n := Rewire(s, o, plan[o].actor), plan[o].actor;
    RewireKeys(s, o, n);
    assert forall a :: a in s.children.Keys <==> a in s'.children.Keys;
    forall p {:trigger plan[p]} | p in plan && p !in rew + {o} ensures s'.children[plan[p].actor] == [] {
      assert FreshOk(s0, plan, p);
      EmptyStaysEmpty(s, o, n, plan[p].actor);
    }
  }

  lemma RewireMid(s0: Store, plan: Plan, reg: set<Actor>, rew: set<Actor>, s: Store, o: Actor)
    requires Tidy(s0) && PlanOk(s0, plan) && Mid(s0, plan, reg, rew, s) && o in reg && o !in rew
    ensures CanRewire(s, o, plan[o].actor)
    ensures Mid(s0, plan, reg, rew + {o}, Rewire(s, o, plan[o].actor))
  {
    hide Tidy, PlanOk, Closed, ListsOk, TargetsOk, SelvesOk, InstancesOk;
    RewireEnabled(s0, plan, reg, rew, s, o);
    RewireClosed(s, o, plan[o].actor);
    RewireLists(s0, plan, reg, rew, s, o);
    RewireRefs(s0, plan, reg, rew, s, o, Rewire(s, o, plan[o].actor));
    RewireInstances(s0, plan, reg, rew, s, o);
  }

  // ---- Runs -------------------------------------------------------------------------------------

  datatype Event = DoRegister(o: Actor) | DoRewire(o: Actor)

  /** The schedule obeys the only order there is: each actor registers once and then rewires once. */
  ghost predicate Legal(plan: Plan, reg: set<Actor>, rew: set<Actor>, es: seq<Event>)
    decreases |es|
  {
    if es == [] then reg == rew == plan.Keys
    else match es[0]
      case DoRegister(o) => o in plan && o !in reg && Legal(plan, reg + {o}, rew, es[1..])
      case DoRewire(o) => o in reg && o !in rew && Legal(plan, reg, rew + {o}, es[1..])
  }

  /** Executing the whole schedule from `s` ends in `t`. */
  ghost predicate Runs(plan: Plan, s: Store, es: seq<Event>, t: Store)
    decreases |es|
  {
    if es == [] then s == t
    else match es[0]
      case DoRegister(o) =>
        o in plan && CanRegister(s, plan[o].actor) && Runs(plan, Register(s, plan[o].actor), es[1..], t)
      case DoRewire(o) =>
        o in plan && CanRewire(s, o, plan[o].actor) && Runs(plan, Rewire(s, o, plan[o].actor), es[1..], t)
  }

  ghost predicate IsNew(plan: Plan, x: Actor) {
    exists o :: o in plan && plan[o].actor == x
  }

  ghost predicate IsNewRef(plan: Plan, r: ActorRefImpl) {
    exists o :: o in plan && plan[o].ref == r
  }

  ghost predicate BegunLists(s0: Store, plan: Plan, s: Store) {
    && (forall a {:trigger a in s.children} :: a in s0.children ==> a in s.children)
    && (forall a {:trigger s.children[a]} :: a in s0.children && a in s.children ==> s.children[a] == s0.children[a])
    && (forall a {:trigger a in s.children} :: a in s.children ==> a in s0.children || IsNew(plan, a))
    && (forall o {:trigger plan[o]} :: o in plan ==>
      plan[o].actor in s.children && s.children[plan[o].actor] == [])
  }

  ghost predicate BegunSelves(s0: Store, plan: Plan, s: Store) {
    && (forall a {:trigger a in s.self} :: a in s0.self ==> a in s.self)
    && (forall a {:trigger s.self[a]} :: a in s0.self && a in s.self ==> s.self[a] == s0.self[a])
    && (forall a {:trigger a in s.self} :: a in s.self ==> a in s0.self || IsNew(plan, a))
    && (forall o {:trigger plan[o]} :: o in plan ==>
      plan[o].actor in s.self && s.self[plan[o].actor] == plan[o].ref)
  }

  ghost predicate BegunTargets(s0: Store, plan: Plan, s: Store) {
    && (forall r {:trigger r in s.target} :: r in s0.target ==> r in s.target)
    && (forall r {:trigger s.target[r]} :: r in s0.target && r in s.target ==> s.target[r] == s0.target[r])
    && (forall r {:trigger r in s.target} :: r in s.target ==> r in s0.target || IsNewRef(plan, r))
    && (forall o {:trigger plan[o]} :: o in plan ==>
      plan[o].ref in s.target && s.target[plan[o].ref] == plan[o].actor)
  }

  /** All restarts have been started: the new instances exist, nothing else has changed. */
  ghost predicate Begun(s0: Store, plan: Plan, s: Store) {
    && s.root == s0.root && s.registry == s0.registry && s.dead == s0.dead
    && BegunLists(s0, plan, s) && BegunSelves(s0, plan, s) && BegunTargets(s0, plan, s)
  }

  lemma BegunParents(s0: Store, plan: Plan, s: Store)
    requires Tidy(s0) && PlanOk(s0, plan) && Begun(s0, plan, s)
    ensures ParentsAbove(s)
  {
    forall a {:trigger a.parent} | a in s.children && a != s.root
      ensures a.parent != null && a.parent in s.target && Below(s.target[a.parent].name, a.name)
    {
      if a !in s0.children {
        var o :| o in plan && plan[o].actor == a;
        assert FreshOk(s0, plan, o);
        assert o.parent in s0.target;
      }
    }
  }

  lemma BegunEntries(s0: Store, plan: Plan, s: Store)
    requires Tidy(s0) && PlanOk(s0, plan) && Begun(s0, plan, s)
    ensures RefsKnown(s) && SelfKnown(s) && EntriesBelow(s) && RegistryKnown(s)
  {
    hide ParentsAbove, AllPlaced, EntriesOk, SelfOk, RegisteredAlive;
  }

  lemma BegunClosed(s0: Store, plan: Plan, s: Store)
    requires Tidy(s0) && PlanOk(s0, plan) && Begun(s0, plan, s)
    ensures Closed(s)
  {
    hide PlanOk, RefsKnown, EntriesBelow, ParentsAbove, RegistryKnown, AllPlaced, EntriesOk, SelfOk, RegisteredAlive;
    BegunParents(s0, plan, s);
    BegunEntries(s0, plan, s);
  }

  lemma BegunListsOk(s0: Store, plan: Plan, s: Store)
    requires Closed(s0) && Begun(s0, plan, s)
    ensures ListsOk(s0, plan, {}, {}, s)
  {
    forall a, m {:trigger ListOk(s0, plan, {}, {}, s, a, m)} | a in s0.children && Live(s0, a)
      ensures ListOk(s0, plan, {}, {}, s, a, m)
    {
      assert s.children[a] == s0.children[a];
      NamedSameNames(s0.target, s.target, s0.children[a], m);
    }
  }

  /** Nobody has registered, nobody has rewired. */
  lemma BegunMid(s0: Store, plan: Plan, s: Store)
    requires Tidy(s0) && PlanOk(s0, plan) && Begun(s0, plan, s)
    ensures Mid(s0, plan, {}, {}, s)
  {
    hide PlanOk, ListsOk, TargetsOk, SelvesOk, InstancesOk, BegunLists, BegunSelves, BegunTargets, EntriesBelow,
      ParentsAbove, AllPlaced, EntriesOk, SelfOk, RegisteredAlive;
    BegunClosed(s0, plan, s);
    BegunListsOk(s0, plan, s);
    BegunRefsOk(s0, plan, s);
  }

  lemma BegunRefsOk(s0: Store, plan: Plan, s: Store)
    requires PlanOk(s0, plan) && SelfKnown(s0)
    requires BegunLists(s0, plan, s) && BegunSelves(s0, plan, s) && BegunTargets(s0, plan, s)
    ensures TargetsOk(s0, plan, {}, s) && SelvesOk(s0, plan, {}, s) && InstancesOk(s0, plan, {}, s)
  {
    forall o {:trigger plan[o]} | o in plan ensures o in s0.self {
      assert FreshOk(s0, plan, o);
    }
  }

  lemma {:induction false} RunMid(s0: Store, plan: Plan, reg: set<Actor>, rew: set<Actor>, s: Store,
                                  es: seq<Event>, t: Store)
    requires Tidy(s0) && PlanOk(s0, plan) && Mid(s0, plan, reg, rew, s)
    requires Legal(plan, reg, rew, es) && Runs(plan, s, es, t)
    ensures Mid(s0, plan, plan.Keys, plan.Keys, t)
    decreases |es|
  {
    if es != [] {
      match es[0]
      case DoRegister(o) =>
        RegisterMid(s0, plan, reg, rew, s, o);
        RunMid(s0, plan, reg + {o}, rew, Register(s, plan[o].actor), es[1..], t);
      case DoRewire(o) =>
        RewireMid(s0, plan, reg, rew, s, o);
        RunMid(s0, plan, reg, rew + {o}, Rewire(s, o, plan[o].actor), es[1..], t);
    }
  }

  /** No legal schedule gets stuck. */
  lemma {:induction false} RunExists(s0: Store, plan: Plan, reg: set<Actor>, rew: set<Actor>, s: Store, es: seq<Event>)
    returns (t: Store)
    requires Tidy(s0) && PlanOk(s0, plan) && Mid(s0, plan, reg, rew, s) && Legal(plan, reg, rew, es)
    ensures Runs(plan, s, es, t)
    decreases |es|
  {
    if es == [] {
      t := s;
    } else {
      match es[0]
      case DoRegister(o) =>
        RegisterMid(s0, plan, reg, rew, s, o);
        t := RunExists(s0, plan, reg + {o}, rew, Register(s, plan[o].actor), es[1..]);
      case DoRewire(o) =>
        RewireMid(s0, plan, reg, rew, s, o);
        t := RunExists(s0, plan, reg, rew + {o}, Rewire(s, o, plan[o].actor), es[1..]);
    }
  }

  // ---- The final state --------------------------------------------------------------------------

  /** The instance that stands for `a` after the restart. */
  ghost function Renewed(plan: Plan, a: Actor): Actor {
    Hold(plan, plan.Keys, a)
  }

  ghost predicate Finished(s0: Store, plan: Plan, t: Store) {
    Tidy(s0) && PlanOk(s0, plan) && Mid(s0, plan, plan.Keys, plan.Keys, t)
  }

  lemma RenewedLive(s0: Store, plan: Plan, t: Store, a: Actor)
    requires Finished(s0, plan, t) && a in s0.children && Live(s0, a)
    ensures Renewed(plan, a).name == a.name && Renewed(plan, a).parent == a.parent
    ensures Live(t, Renewed(plan, a))
    ensures a !in s0.dead ==> Renewed(plan, a) !in t.dead
    ensures a in s0.self && Renewed(plan, a) in t.self && t.self[Renewed(plan, a)] == s0.self[a]
    ensures s0.self[a] in t.target && t.target[s0.self[a]] == Renewed(plan, a)
    ensures a == s0.root <==> Renewed(plan, a) == t.root
  {
    assert a in plan ==> FreshOk(s0, plan, a);
    assert s0.target[s0.self[a]] == a;
    assert ListOk(s0, plan, plan.Keys, plan.Keys, t, a, "");
    if a != s0.root {
      assert t.registry[a.name] == Hold(plan, plan.Keys, s0.registry[a.name]);
    }
  }

  /** Every live actor afterwards stands for a live actor before. */
  lemma LiveRenewed(s0: Store, plan: Plan, t: Store, x: Actor) returns (a: Actor)
    requires Finished(s0, plan, t) && x in t.children && Live(t, x)
    ensures a in s0.children && Live(s0, a) && x == Renewed(plan, a)
  {
    if x == t.root {
      a := s0.root;
      assert a in plan ==> FreshOk(s0, plan, a);
    } else {
      a := s0.registry[x.name];
    }
  }

  /** The restarted actor's parent lists the fresh reference under its name, and nothing else. */
  lemma FinalEntry(s0: Store, plan: Plan, t: Store, a: Actor)
    requires Finished(s0, plan, t) && a in s0.children && Live(s0, a) && a != s0.root
    ensures a.parent != null && a.parent in s0.target && s0.target[a.parent] in s0.children
    ensures var h := Renewed(plan, s0.target[a.parent]);
      h in t.children && Count(t.target, t.children[h], Renewed(plan, a)) == 1
    ensures a in plan ==>
      Named(t.target, t.children[Renewed(plan, s0.target[a.parent])], a.name) == [plan[a].ref]
  {
    assert Placed(s0, a);
    var p, x := s0.target[a.parent], Renewed(plan, a);
    assert ListOk(s0, plan, plan.Keys, plan.Keys, t, p, a.name);
    RenewedLive(s0, plan, t, a);
    var list := t.children[Renewed(plan, p)];
    CountNamed(t.target, list, x);
    var named := Named(t.target, list, a.name);
    assert named == Expect(s0, plan, plan.Keys, plan.Keys, p, a.name);
    if a in plan {
      assert named == [plan[a].ref];
      assert named[..0] == [];
    } else {
      CountNamed(s0.target, s0.children[p], a);
      assert named == Named(s0.target, s0.children[p], a.name);
      NamedIn(s0.target, s0.children[p], a.name);
      CountAgree(s0.target, t.target, named, a);
    }
  }

  lemma FinalPlaced(s0: Store, plan: Plan, t: Store)
    requires Finished(s0, plan, t)
    ensures AllPlaced(t)
  {
    forall x {:trigger Placed(t, x)} | x in t.children && Live(t, x) && x != t.root
      ensures Placed(t, x)
    {
      var a := LiveRenewed(s0, plan, t, x);
      assert Placed(s0, a);
      FinalEntry(s0, plan, t, a);
      RenewedLive(s0, plan, t, a);
      RenewedLive(s0, plan, t, s0.target[a.parent]);
    }
  }

  lemma FinalEntryOk(s0: Store, plan: Plan, t: Store, a: Actor, c: ActorRefImpl)
    requires Finished(s0, plan, t) && a in s0.children && Live(s0, a)
    requires Renewed(plan, a) in t.children && c in t.children[Renewed(plan, a)]
    ensures c in t.target && EntryOk(t, Renewed(plan, a), c)
  {
    var x := Renewed(plan, a);
    var m := t.target[c].name;
    assert ListOk(s0, plan, plan.Keys, plan.Keys, t, a, m);
    NamedIn(t.target, t.children[x], m);
    assert c in Named(t.target, t.children[x], m);
    RenewedLive(s0, plan, t, a);
    if IsRestarting(s0, plan, a, m) {
      var o := s0.registry[m];
      assert FreshOk(s0, plan, o);
      RenewedLive(s0, plan, t, o);
      assert Placed(s0, o);
    } else {
      NamedIn(s0.target, s0.children[a], m);
      assert EntryOk(s0, a, c);
      var d := s0.target[c];
      assert d in plan ==> FreshOk(s0, plan, d);
      if Live(s0, d) && d !in s0.dead {
        RenewedLive(s0, plan, t, d);
        assert Placed(s0, d);
      }
    }
  }

  lemma FinalTidy(s0: Store, plan: Plan, t: Store)
    requires Finished(s0, plan, t)
    ensures Tidy(t)
  {
    FinalPlaced(s0, plan, t);
    assert EntriesOk(t) by {
      forall x, c {:trigger c in t.children[x]} | x in t.children && Live(t, x) && c in t.children[x]
        ensures c in t.target && EntryOk(t, x, c)
      {
        var a := LiveRenewed(s0, plan, t, x);
        FinalEntryOk(s0, plan, t, a, c);
      }
    }
    assert SelfOk(t) by {
      forall x {:trigger t.self[x]} | x in t.children && Live(t, x)
        ensures x in t.self && t.self[x] in t.target && t.target[t.self[x]] == x
      {
        var a := LiveRenewed(s0, plan, t, x);
        RenewedLive(s0, plan, t, a);
      }
    }
    assert RegisteredAlive(t) by {
      forall n {:trigger t.registry[n]} | n in t.registry ensures t.registry[n] !in t.dead {
        var a := s0.registry[n];
        RenewedLive(s0, plan, t, a);
      }
    }
  }

  // ---- The theorems -------------------------------------------------------------------------------

  /** The registry, the original reference and the one entry in the parent's list all lead to the fresh instance. */
  ghost predicate Replaced(s0: Store, plan: Plan, t: Store, o: Actor)
    requires o in plan
  {
    var n, f := plan[o].actor, plan[o].ref;
    && n !in s0.children && n.name == o.name && n.parent == o.parent
    && o.name in t.registry && t.registry[o.name] == n
    && o in s0.self && s0.self[o] in t.target && t.target[s0.self[o]] == n
    && n in t.self && t.self[n] == s0.self[o]
    && n.parent != null && n.parent in t.target && t.target[n.parent] in t.children
    && var siblings := t.children[t.target[n.parent]];
    && Named(t.target, siblings, n.name) == [f] && f in t.target && t.target[f] == n
    && Count(t.target, siblings, n) == 1
  }

  /** The tree as it was, with every restarted actor replaced by its fresh instance. */
  ghost predicate SameShape(s0: Store, plan: Plan, t: Store) {
    && t.root == s0.root && t.dead == s0.dead
    && t.registry == (map m | m in s0.registry :: Renewed(plan, s0.registry[m]))
    && (forall a {:trigger Renewed(plan, a)} :: a in s0.children && Live(s0, a) ==>
      && Live(t, Renewed(plan, a)) && Renewed(plan, a).name == a.name
      && (a != s0.root ==>
        && a.parent != null && a.parent in s0.target
        && Renewed(plan, a).parent == a.parent && a.parent in t.target
        && t.target[a.parent] == Renewed(plan, s0.target[a.parent])))
  }

  lemma FinalReplaced(s0: Store, plan: Plan, t: Store, o: Actor)
    requires Finished(s0, plan, t) && o in plan
    ensures Replaced(s0, plan, t, o)
  {
    assert FreshOk(s0, plan, o);
    RenewedLive(s0, plan, t, o);
    FinalEntry(s0, plan, t, o);
    assert Placed(s0, o);
    RenewedLive(s0, plan, t, s0.target[o.parent]);
  }

  lemma FinalShape(s0: Store, plan: Plan, t: Store)
    requires Finished(s0, plan, t)
    ensures SameShape(s0, plan, t)
  {
    forall a {:trigger Renewed(plan, a)} | a in s0.children && Live(s0, a)
      ensures Live(t, Renewed(plan, a)) && Renewed(plan, a).name == a.name
      ensures a != s0.root ==>
        && a.parent != null && a.parent in s0.target
        && Renewed(plan, a).parent == a.parent && a.parent in t.target
        && t.target[a.parent] == Renewed(plan, s0.target[a.parent])
    {
      RenewedLive(s0, plan, t, a);
      if a != s0.root {
        assert Placed(s0, a);
        RenewedLive(s0, plan, t, s0.target[a.parent]);
      }
    }
  }

  /** No legal order of the steps gets stuck. */
  lemma AnyInterleavingCompletes(s0: Store, plan: Plan, s: Store, es: seq<Event>)
    requires Tidy(s0) && PlanOk(s0, plan) && Begun(s0, plan, s) && Legal(plan, {}, {}, es)
    ensures exists t :: Runs(plan, s, es, t)
  {
    BegunMid(s0, plan, s);
    var t := RunExists(s0, plan, {}, {}, s, es);
  }

  /**
   Whatever the order of the steps, a restart that has been started ends in the old tree with every
   restarted actor replaced by its one fresh instance.
   */
  lemma AnyInterleavingRestarts(s0: Store, plan: Plan, s: Store, es: seq<Event>, t: Store)
    requires Tidy(s0) && PlanOk(s0, plan) && Begun(s0, plan, s) && Legal(plan, {}, {}, es) && Runs(plan, s, es, t)
    ensures Tidy(t) && SameShape(s0, plan, t)
    ensures forall o :: o in plan ==> Replaced(s0, plan, t, o)
  {
    RunFinished(s0, plan, s, es, t);
    FinalTidy(s0, plan, t);
    FinalShape(s0, plan, t);
    forall o | o in plan ensures Replaced(s0, plan, t, o) {
      FinalReplaced(s0, plan, t, o);
    }
  }

  lemma {:induction false} RunKeys(plan: Plan, s: Store, es: seq<Event>, t: Store)
    requires Runs(plan, s, es, t)
    ensures t.target.Keys == s.target.Keys && t.self.Keys == s.self.Keys
    decreases |es|
  {
    if es != [] {
      match es[0]
      case DoRegister(o) =>
        RunKeys(plan, Register(s, plan[o].actor), es[1..], t);
      case DoRewire(o) =>
        RewireNames(s, o, plan[o].actor);
        RunKeys(plan, Rewire(s, o, plan[o].actor), es[1..], t);
    }
  }

  lemma FinalTargetsAgree(s0: Store, plan: Plan, t1: Store, t2: Store)
    requires TargetsOk(s0, plan, plan.Keys, t1) && TargetsOk(s0, plan, plan.Keys, t2)
    requires t1.target.Keys == t2.target.Keys
    requires forall r {:trigger r in t1.target} :: r in t1.target ==> r in s0.target || IsNewRef(plan, r)
    ensures t1.target == t2.target
  {
    forall r | r in t1.target ensures r in t2.target && t1.target[r] == t2.target[r] {
      if r !in s0.target {
        assert IsNewRef(plan, r);
      }
    }
  }

  lemma FinalSelvesAgree(s0: Store, plan: Plan, t1: Store, t2: Store)
    requires SelvesOk(s0, plan, plan.Keys, t1) && SelvesOk(s0, plan, plan.Keys, t2)
    requires t1.self.Keys == t2.self.Keys
    requires forall a {:trigger a in t1.self} :: a in t1.self ==> a in s0.self || IsNew(plan, a)
    ensures t1.self == t2.self
  {
    forall a | a in t1.self ensures a in t2.self && t1.self[a] == t2.self[a] {
      if a !in s0.self {
        assert IsNew(plan, a);
      }
    }
  }

  /** Registries and references do not depend on the order of the steps. */
  lemma FinalRefsAgree(s0: Store, plan: Plan, s: Store, es1: seq<Event>, t1: Store, es2: seq<Event>, t2: Store)
    requires Begun(s0, plan, s) && Finished(s0, plan, t1) && Finished(s0, plan, t2)
    requires Runs(plan, s, es1, t1) && Runs(plan, s, es2, t2)
    ensures t1.target == t2.target && t1.self == t2.self
  {
    hide Tidy, PlanOk, Closed, ListsOk, InstancesOk, RegistryOk, TargetsOk, SelvesOk, BegunLists, Runs;
    RunKeys(plan, s, es1, t1);
    RunKeys(plan, s, es2, t2);
    BegunRefs(s0, plan, s, t1);
    FinalTargetsAgree(s0, plan, t1, t2);
    FinalSelvesAgree(s0, plan, t1, t2);
  }

  lemma BegunRefs(s0: Store, plan: Plan, s: Store, t: Store)
    requires BegunTargets(s0, plan, s) && BegunSelves(s0, plan, s)
    requires t.target.Keys == s.target.Keys && t.self.Keys == s.self.Keys
    ensures forall r {:trigger r in t.target} :: r in t.target ==> r in s0.target || IsNewRef(plan, r)
    ensures forall a {:trigger a in t.self} :: a in t.self ==> a in s0.self || IsNew(plan, a)
  {
    forall r {:trigger r in t.target} | r in t.target ensures r in s0.target || IsNewRef(plan, r) {
      assert r in s.target;
    }
    forall a {:trigger a in t.self} | a in t.self ensures a in s0.self || IsNew(plan, a) {
      assert a in s.self;
    }
  }

  lemma FinalList(s0: Store, plan: Plan, t: Store, a: Actor, c: ActorRefImpl)
    requires Finished(s0, plan, t) && a in s0.children && Live(s0, a) && c in t.target
    ensures Renewed(plan, a) in t.children
    ensures multiset(t.children[Renewed(plan, a)])[c] ==
            multiset(Expect(s0, plan, plan.Keys, plan.Keys, a, t.target[c].name))[c]
  {
    hide Tidy, PlanOk, Closed, InstancesOk, RegistryOk, TargetsOk, SelvesOk, Expect, Live, Named;
    assert ListOk(s0, plan, plan.Keys, plan.Keys, t, a, t.target[c].name);
    Occurrences(t.target, t.children[Renewed(plan, a)], c);
  }

  lemma FinalEntryKnown(s0: Store, plan: Plan, t: Store, h: Actor, c: ActorRefImpl)
    requires Finished(s0, plan, t) && h in t.children && c in t.children[h]
    ensures c in t.target
  {
  }

  lemma FinalListsAgree(s0: Store, plan: Plan, t1: Store, t2: Store, a: Actor)
    requires Finished(s0, plan, t1) && Finished(s0, plan, t2) && t1.target == t2.target
    requires a in s0.children && Live(s0, a)
    ensures Renewed(plan, a) in t1.children && Renewed(plan, a) in t2.children
    ensures multiset(t1.children[Renewed(plan, a)]) == multiset(t2.children[Renewed(plan, a)])
  {
    hide Finished, Expect, Live, Renewed;
    var h := Renewed(plan, a);
    HolderKnown(s0, plan, t1, a);
    HolderKnown(s0, plan, t2, a);
    var xs, ys := t1.children[h], t2.children[h];
    forall c | c in xs + ys ensures multiset(xs)[c] == multiset(ys)[c] {
      FinalEntryKnown(s0, plan, if c in xs then t1 else t2, h, c);
      FinalList(s0, plan, t1, a, c);
      FinalList(s0, plan, t2, a, c);
    }
  }

  lemma HolderKnown(s0: Store, plan: Plan, t: Store, a: Actor)
    requires Finished(s0, plan, t) && a in s0.children && Live(s0, a)
    ensures Renewed(plan, a) in t.children
  {
    assert ListOk(s0, plan, plan.Keys, plan.Keys, t, a, "");
  }

  lemma RunFinished(s0: Store, plan: Plan, s: Store, es: seq<Event>, t: Store)
    requires Tidy(s0) && PlanOk(s0, plan) && Begun(s0, plan, s) && Legal(plan, {}, {}, es) && Runs(plan, s, es, t)
    ensures Finished(s0, plan, t)
  {
    hide *;
    BegunMid(s0, plan, s);
    RunMid(s0, plan, {}, {}, s, es, t);
    FinishedIf(s0, plan, t);
  }

  lemma FinishedIf(s0: Store, plan: Plan, t: Store)
    requires Tidy(s0) && PlanOk(s0, plan) && Mid(s0, plan, plan.Keys, plan.Keys, t)
    ensures Finished(s0, plan, t)
  {
  }
}
