/**
 The order of the child lists after a restart: what was not restarted keeps its place at the front, and
 the fresh entries follow in the order of their REWIRE steps.
 */
module RestartOrder {
  import opened ActorTree
  import opened TidyTree
  import opened Restarts

  /** The entry bears the name of an actor in `gone`. */
  ghost predicate NamesOneOf(s0: Store, gone: set<Actor>, c: ActorRefImpl) {
    c in s0.target && s0.target[c].name in s0.registry && s0.registry[s0.target[c].name] in gone
  }

  /** The entries that do not, in order. */
  ghost function Kept(s0: Store, gone: set<Actor>, cs: seq<ActorRefImpl>): seq<ActorRefImpl> {
    if cs == [] then []
    else
      var rest := Kept(s0, gone, cs[..|cs| - 1]);
      if NamesOneOf(s0, gone, cs[|cs| - 1]) then rest else rest + [cs[|cs| - 1]]
  }

  ghost predicate IsChildOf(s0: Store, o: Actor, a: Actor) {
    o.parent != null && o.parent in s0.target && s0.target[o.parent] == a
  }

  /** The fresh entries in the list of `a` after these events: a REGISTER appends, a REWIRE moves to the end. */
  ghost function Appended(s0: Store, plan: Plan, a: Actor, es: seq<Event>): seq<ActorRefImpl> {
    if es == [] then []
    else
      var before := Appended(s0, plan, a, es[..|es| - 1]);
      match es[|es| - 1]
      case DoRegister(o) => if o in plan && IsChildOf(s0, o, a) then before + [plan[o].ref] else before
      case DoRewire(o) =>
        if o in plan && IsChildOf(s0, o, a) then Without(before, plan[o].ref) + [plan[o].ref] else before
  }

  /** The fresh entries of the children of `a`, in the order of their REWIRE steps. */
  ghost function RewireOrder(s0: Store, plan: Plan, a: Actor, es: seq<Event>): seq<ActorRefImpl> {
    if es == [] then []
    else
      var before := RewireOrder(s0, plan, a, es[..|es| - 1]);
      match es[|es| - 1]
      case DoRegister(o) => before
      case DoRewire(o) => if o in plan && IsChildOf(s0, o, a) then before + [plan[o].ref] else before
  }

  /** The exact list of `a` at this point. */
  ghost predicate InOrder(s0: Store, plan: Plan, rew: set<Actor>, done: seq<Event>, s: Store, a: Actor)
    requires a in s0.children
  {
    var h := Hold(plan, rew, a);
    h in s.children && s.children[h] == Kept(s0, rew, s0.children[a]) + Appended(s0, plan, a, done)
  }

  lemma {:induction false} KeptMore(s0: Store, rew: set<Actor>, o: Actor, cs: seq<ActorRefImpl>)
    requires RegistryKnown(s0) && Live(s0, o) && o != s0.root
    ensures Kept(s0, rew + {o}, cs) == Others(s0.target, Kept(s0, rew, cs), o.name)
  {
    if cs != [] {
      var c, before := cs[|cs| - 1], cs[..|cs| - 1];
      KeptMore(s0, rew, o, before);
      var kept := Kept(s0, rew, before);
      assert (kept + [c])[..|kept|] == kept;
      assert IsNamed(s0.target, c, o.name) ==> NamesOneOf(s0, {o}, c);
    }
  }

  lemma {:induction false} OthersConcat(target: map<ActorRefImpl, Actor>, xs: seq<ActorRefImpl>,
                                        ys: seq<ActorRefImpl>, m: string)
    ensures Others(target, xs + ys, m) == Others(target, xs, m) + Others(target, ys, m)
  {
    if ys == [] {
      assert xs + ys == xs;
    } else {
      OthersConcat(target, xs, ys[..|ys| - 1], m);
      assert (xs + ys)[..|xs + ys| - 1] == xs + ys[..|ys| - 1];
    }
  }

  lemma {:induction false} OthersSameNames(t1: map<ActorRefImpl, Actor>, t2: map<ActorRefImpl, Actor>,
                                           cs: seq<ActorRefImpl>, m: string)
    requires forall c :: c in cs ==> (IsNamed(t1, c, m) <==> IsNamed(t2, c, m))
    ensures Others(t1, cs, m) == Others(t2, cs, m)
  {
    if cs != [] {
      assert cs == cs[..|cs| - 1] + [cs[|cs| - 1]];
      OthersSameNames(t1, t2, cs[..|cs| - 1], m);
    }
  }

  lemma {:induction false} KeptIn(s0: Store, gone: set<Actor>, cs: seq<ActorRefImpl>)
    ensures forall c :: c in Kept(s0, gone, cs) ==> c in cs
  {
    if cs != [] {
      KeptIn(s0, gone, cs[..|cs| - 1]);
      assert cs == cs[..|cs| - 1] + [cs[|cs| - 1]];
    }
  }

  /** The fresh entries are those of children of `a` that have registered. */
  lemma {:induction false} AppendedIn(s0: Store, plan: Plan, a: Actor, es: seq<Event>)
    ensures forall c :: c in Appended(s0, plan, a, es) ==>
      exists o: Actor :: o in plan && IsChildOf(s0, o, a) && plan[o].ref == c
  {
    if es != [] {
      var before := Appended(s0, plan, a, es[..|es| - 1]);
      AppendedIn(s0, plan, a, es[..|es| - 1]);
      if es[|es| - 1].DoRewire? && es[|es| - 1].o in plan {
        WithoutIn(before, plan[es[|es| - 1].o].ref);
      }
    }
  }

  lemma {:induction false} OthersIsWithout(target: map<ActorRefImpl, Actor>, cs: seq<ActorRefImpl>, m: string,
                                           f: ActorRefImpl)
    requires forall c :: c in cs ==> (IsNamed(target, c, m) <==> c == f)
    ensures Others(target, cs, m) == Without(cs, f)
  {
    if cs != [] {
      assert cs == cs[..|cs| - 1] + [cs[|cs| - 1]];
      OthersIsWithout(target, cs[..|cs| - 1], m, f);
    }
  }

  // ---- The steps --------------------------------------------------------------------------------------

  lemma AppendedPush(s0: Store, plan: Plan, a: Actor, es: seq<Event>, e: Event)
    ensures var before := Appended(s0, plan, a, es);
      Appended(s0, plan, a, es + [e]) ==
        if e.o !in plan || !IsChildOf(s0, e.o, a) then before
        else if e.DoRegister? then before + [plan[e.o].ref]
        else Without(before, plan[e.o].ref) + [plan[e.o].ref]
  {
    assert (es + [e])[..|es|] == es;
  }

  /** Different actors have different holders. */
  lemma HoldersDiffer(s0: Store, plan: Plan, rew: set<Actor>, a: Actor, p: Actor)
    requires PlanOk(s0, plan) && a in s0.children && p in s0.children
    ensures Hold(plan, rew, a) == Hold(plan, rew, p) <==> a == p
  {
    assert (a in plan ==> FreshOk(s0, plan, a)) && (p in plan ==> FreshOk(s0, plan, p));
  }

  lemma ListAfterRegister(s: Store, n: Actor, v: Actor)
    requires CanRegister(s, n) && v in s.children
    ensures v in Register(s, n).children
    ensures Register(s, n).children[v] == s.children[v] + if v == s.target[n.parent] then [s.self[n]] else []
  {
    assert s.children[v] + [] == s.children[v];
  }

  /** What a REGISTER does to the lists. */
  lemma ListRegistered(s0: Store, plan: Plan, reg: set<Actor>, rew: set<Actor>, s: Store, o: Actor, a: Actor)
    requires Tidy(s0) && PlanOk(s0, plan) && Mid(s0, plan, reg, rew, s) && o in plan && o !in reg
    requires CanRegister(s, plan[o].actor) && a in s0.children && Live(s0, a)
    requires Hold(plan, rew, a) in s.children
    ensures var h, s' := Hold(plan, rew, a), Register(s, plan[o].actor);
      h in s'.children && s'.children[h] == s.children[h] + if IsChildOf(s0, o, a) then [plan[o].ref] else []
  {
    hide ListsOk, PlanOk, Tidy, Closed, Register, Hold, RegistryOk, InstancesOk, TargetsOk;
    ParentHolds(s0, plan, reg, rew, s, o);
    HoldersDiffer(s0, plan, rew, a, s0.target[o.parent]);
    ListAfterRegister(s, plan[o].actor, Hold(plan, rew, a));
    FreshParent(s0, plan, o);
  }

  lemma FreshParent(s0: Store, plan: Plan, o: Actor)
    requires PlanOk(s0, plan) && o in plan
    ensures plan[o].actor.parent == o.parent
  {
    assert FreshOk(s0, plan, o);
  }

  lemma RegisterInOrder(s0: Store, plan: Plan, reg: set<Actor>, rew: set<Actor>, done: seq<Event>, s: Store,
                        o: Actor, a: Actor)
    requires Tidy(s0) && PlanOk(s0, plan) && Mid(s0, plan, reg, rew, s) && o in plan && o !in reg
    requires CanRegister(s, plan[o].actor)
    requires a in s0.children && Live(s0, a) && InOrder(s0, plan, rew, done, s, a)
    ensures InOrder(s0, plan, rew, done + [DoRegister(o)], Register(s, plan[o].actor), a)
  {
    hide Mid, Kept, Appended, Tidy, PlanOk, Register;
    ListRegistered(s0, plan, reg, rew, s, o, a);
    AppendedPush(s0, plan, a, done, DoRegister(o));
    var kept, tail := Kept(s0, rew, s0.children[a]), Appended(s0, plan, a, done);
    assert kept + tail + [plan[o].ref] == kept + (tail + [plan[o].ref]) && kept + tail + [] == kept + tail;
  }

  /** A name behind an old reference never changes. */
  lemma NameKept(s0: Store, plan: Plan, rew: set<Actor>, s: Store, c: ActorRefImpl)
    requires PlanOk(s0, plan) && TargetsOk(s0, plan, rew, s) && c in s0.target
    ensures c in s.target && s.target[c].name == s0.target[c].name
  {
    var d := s0.target[c];
    assert d in plan ==> FreshOk(s0, plan, d);
  }

  /** Collapsing the list of the parent of `o`. */
  lemma CollapsedInOrder(s0: Store, plan: Plan, rew: set<Actor>, done: seq<Event>, s: Store, o: Actor, a: Actor)
    requires Tidy(s0) && PlanOk(s0, plan) && TargetsOk(s0, plan, rew, s) && o in plan
    requires a in s0.children && Live(s0, a) && IsChildOf(s0, o, a)
    ensures Others(s.target, Kept(s0, rew, s0.children[a]) + Appended(s0, plan, a, done), o.name) ==
            Kept(s0, rew + {o}, s0.children[a]) + Without(Appended(s0, plan, a, done), plan[o].ref)
  {
    assert FreshOk(s0, plan, o);
    var kept, tail := Kept(s0, rew, s0.children[a]), Appended(s0, plan, a, done);
    OthersConcat(s.target, kept, tail, o.name);
    KeptIn(s0, rew, s0.children[a]);
    forall c | c in kept ensures IsNamed(s.target, c, o.name) <==> IsNamed(s0.target, c, o.name) {
      NameKept(s0, plan, rew, s, c);
    }
    OthersSameNames(s.target, s0.target, kept, o.name);
    KeptMore(s0, rew, o, s0.children[a]);
    AppendedIn(s0, plan, a, done);
    forall c | c in tail ensures IsNamed(s.target, c, o.name) <==> c == plan[o].ref {
      var o' :| o' in plan && IsChildOf(s0, o', a) && plan[o'].ref == c;
      assert FreshOk(s0, plan, o');
      if o'.name == o.name {
        LiveUnique(s0, o, o');
      }
    }
    OthersIsWithout(s.target, tail, o.name, plan[o].ref);
  }

  /** No other list holds an entry called like `o`. */
  lemma KeptElsewhere(s0: Store, rew: set<Actor>, o: Actor, a: Actor)
    requires Tidy(s0) && a in s0.children && Live(s0, a) && Live(s0, o) && o != s0.root && !IsChildOf(s0, o, a)
    ensures Kept(s0, rew + {o}, s0.children[a]) == Kept(s0, rew, s0.children[a])
  {
    if Named(s0.target, s0.children[a], o.name) != [] {
      NobodyElseNames(s0, a, o);
    }
    KeptMore(s0, rew, o, s0.children[a]);
    var kept := Kept(s0, rew, s0.children[a]);
    KeptIn(s0, rew, s0.children[a]);
    NamedIn(s0.target, s0.children[a], o.name);
    forall c | c in kept ensures !IsNamed(s0.target, c, o.name) {
      assert c in s0.children[a];
    }
    OthersAll(s0.target, kept, o.name);
  }

  lemma {:induction false} OthersAll(target: map<ActorRefImpl, Actor>, cs: seq<ActorRefImpl>, m: string)
    requires forall c :: c in cs ==> !IsNamed(target, c, m)
    ensures Others(target, cs, m) == cs
  {
    if cs != [] {
      assert cs == cs[..|cs| - 1] + [cs[|cs| - 1]];
      OthersAll(target, cs[..|cs| - 1], m);
    }
  }

  lemma RewiredList(s: Store, o: Actor, n: Actor, v: Actor)
    requires CanRewire(s, o, n) && v in s.children && v != o && v != n
    ensures v in Rewire(s, o, n).children
    ensures Rewire(s, o, n).children[v] ==
            if Visits(Taken(s, o, n), s.root, o.name, v) then Collapse(s.target, s.children[v], o.name, s.self[n])
            else s.children[v]
  {
  }

  lemma MovedList(s: Store, o: Actor, n: Actor)
    requires CanRewire(s, o, n)
    ensures n in Rewire(s, o, n).children && Rewire(s, o, n).children[n] == s.children[o]
  {
    NamedIn(s.target, s.children[o], o.name);
    FirstIn(Named(s.target, s.children[o], o.name));
  }

  /** What a REWIRE does to the list of the parent, to its own and to the others. */
  lemma ListRewired(s0: Store, plan: Plan, reg: set<Actor>, rew: set<Actor>, s: Store, o: Actor, a: Actor)
    requires Tidy(s0) && PlanOk(s0, plan) && Mid(s0, plan, reg, rew, s) && o in reg && o !in rew
    requires CanRewire(s, o, plan[o].actor) && a in s0.children && Live(s0, a)
    ensures var h, h' := Hold(plan, rew, a), Hold(plan, rew + {o}, a);
      && h in s.children && h' in Rewire(s, o, plan[o].actor).children
      && Rewire(s, o, plan[o].actor).children[h'] ==
         if IsChildOf(s0, o, a) then Others(s.target, s.children[h], o.name) + [plan[o].ref] else s.children[h]
  {
    hide Tidy, PlanOk, Closed, RegistryOk, TargetsOk, InstancesOk, Visits, Rewire, Named, Others, CanTakeOver, Expect;
    assert ListOk(s0, plan, reg, rew, s, a, o.name);
    if a == o {
      FreshIsLive(s0, plan, o);
      NotOwnChild(s0, o);
      MovedList(s, o, plan[o].actor);
    } else {
      ListRewiredElsewhere(s0, plan, reg, rew, s, o, a);
    }
  }

  lemma FreshIsLive(s0: Store, plan: Plan, o: Actor)
    requires PlanOk(s0, plan) && o in plan
    ensures Live(s0, o) && o != s0.root
  {
    assert FreshOk(s0, plan, o);
  }

  lemma HolderIsOther(s0: Store, plan: Plan, rew: set<Actor>, o: Actor, a: Actor)
    requires PlanOk(s0, plan) && o in plan && a in s0.children && a != o
    ensures Hold(plan, rew, a) != o && Hold(plan, rew, a) != plan[o].actor
    ensures Hold(plan, rew + {o}, a) == Hold(plan, rew, a)
  {
    assert FreshOk(s0, plan, o) && (a in plan ==> FreshOk(s0, plan, a));
  }

  lemma ListRewiredElsewhere(s0: Store, plan: Plan, reg: set<Actor>, rew: set<Actor>, s: Store, o: Actor, a: Actor)
    requires Tidy(s0) && PlanOk(s0, plan) && Mid(s0, plan, reg, rew, s) && o in reg && o !in rew
    requires CanRewire(s, o, plan[o].actor) && a in s0.children && Live(s0, a) && a != o
    requires ListOk(s0, plan, reg, rew, s, a, o.name)
    ensures var h := Hold(plan, rew, a);
      && h in s.children && h in Rewire(s, o, plan[o].actor).children && Hold(plan, rew + {o}, a) == h
      && Rewire(s, o, plan[o].actor).children[h] ==
         if IsChildOf(s0, o, a) then Others(s.target, s.children[h], o.name) + [plan[o].ref] else s.children[h]
  {
    hide Tidy, PlanOk, Closed, ListsOk, RegistryOk, TargetsOk, InstancesOk, Visits, Rewire, Named, Others, CanTakeOver,
      Live, Expect, Hold;
    HolderIsOther(s0, plan, rew, o, a);
    RewireExpect(s0, plan, reg, rew, o, a, o.name);
    RewiredList(s, o, plan[o].actor, Hold(plan, rew, a));
    if IsChildOf(s0, o, a) {
      ParentHolds(s0, plan, reg, rew, s, o);
      HolderVisited(s0, plan, reg, rew, s, o, a);
    }
  }

  lemma NotOwnChild(s0: Store, o: Actor)
    requires Tidy(s0) && o in s0.children && Live(s0, o) && o != s0.root
    ensures !IsChildOf(s0, o, o)
  {
    assert Placed(s0, o);
  }

  lemma RewireInOrder(s0: Store, plan: Plan, reg: set<Actor>, rew: set<Actor>, done: seq<Event>, s: Store,
                      o: Actor, a: Actor)
    requires Tidy(s0) && PlanOk(s0, plan) && Mid(s0, plan, reg, rew, s) && o in reg && o !in rew
    requires CanRewire(s, o, plan[o].actor)
    requires a in s0.children && Live(s0, a) && InOrder(s0, plan, rew, done, s, a)
    ensures InOrder(s0, plan, rew + {o}, done + [DoRewire(o)], Rewire(s, o, plan[o].actor), a)
  {
    hide ListsOk, Kept, Appended, CanRewire, Rewire, Tidy;
    assert FreshOk(s0, plan, o);
    ListRewired(s0, plan, reg, rew, s, o, a);
    AppendedPush(s0, plan, a, done, DoRewire(o));
    if IsChildOf(s0, o, a) {
      CollapsedInOrder(s0, plan, rew, done, s, o, a);
    } else {
      KeptElsewhere(s0, rew, o, a);
    }
  }

  // ---- Whole runs -------------------------------------------------------------------------------------

  ghost predicate WasRewired(plan: Plan, rew: set<Actor>, c: ActorRefImpl) {
    exists o :: o in rew && o in plan && plan[o].ref == c
  }

  /** The entries of actors that have rewired, in order. */
  ghost function RewiredOnly(plan: Plan, rew: set<Actor>, cs: seq<ActorRefImpl>): seq<ActorRefImpl> {
    if cs == [] then []
    else
      var rest := RewiredOnly(plan, rew, cs[..|cs| - 1]);
      if WasRewired(plan, rew, cs[|cs| - 1]) then rest + [cs[|cs| - 1]] else rest
  }

  lemma {:induction false} RewiredOnlyMore(s0: Store, plan: Plan, rew: set<Actor>, o: Actor, cs: seq<ActorRefImpl>)
    requires PlanOk(s0, plan) && o in plan && o !in rew
    ensures RewiredOnly(plan, rew + {o}, Without(cs, plan[o].ref)) == RewiredOnly(plan, rew, cs)
  {
    if cs != [] {
      var c, before := cs[|cs| - 1], cs[..|cs| - 1];
      RewiredOnlyMore(s0, plan, rew, o, before);
      assert WasRewired(plan, rew, c) ==> c != plan[o].ref;
      assert WasRewired(plan, rew + {o}, c) <==> WasRewired(plan, rew, c) || c == plan[o].ref by {
        assert o in rew + {o};
        if p :| p in rew && p in plan && plan[p].ref == c {
          assert p in rew + {o};
        }
      }
      var rest := Without(before, plan[o].ref);
      assert (rest + [c])[..|rest|] == rest;
    }
  }

  lemma RewiredOnlyUnregistered(s0: Store, plan: Plan, rew: set<Actor>, o: Actor, cs: seq<ActorRefImpl>)
    requires PlanOk(s0, plan) && o in plan && o !in rew
    ensures RewiredOnly(plan, rew, cs + [plan[o].ref]) == RewiredOnly(plan, rew, cs)
  {
    assert (cs + [plan[o].ref])[..|cs|] == cs;
    assert !WasRewired(plan, rew, plan[o].ref);
  }

  lemma RewiredOnlySame(s0: Store, plan: Plan, rew: set<Actor>, o: Actor, cs: seq<ActorRefImpl>)
    requires PlanOk(s0, plan) && o in plan && o !in rew && plan[o].ref !in cs
    ensures RewiredOnly(plan, rew + {o}, cs) == RewiredOnly(plan, rew, cs)
  {
    RewiredOnlyMore(s0, plan, rew, o, cs);
    WithoutAbsent(cs, plan[o].ref);
  }

  lemma {:induction false} WithoutAbsent(cs: seq<ActorRefImpl>, f: ActorRefImpl)
    requires f !in cs
    ensures Without(cs, f) == cs
  {
    if cs != [] {
      assert cs == cs[..|cs| - 1] + [cs[|cs| - 1]];
      WithoutAbsent(cs[..|cs| - 1], f);
    }
  }

  lemma {:induction false} RewiredOnlyAll(plan: Plan, rew: set<Actor>, cs: seq<ActorRefImpl>)
    requires forall c :: c in cs ==> WasRewired(plan, rew, c)
    ensures RewiredOnly(plan, rew, cs) == cs
  {
    if cs != [] {
      assert cs == cs[..|cs| - 1] + [cs[|cs| - 1]];
      RewiredOnlyAll(plan, rew, cs[..|cs| - 1]);
    }
  }

  lemma OrderPush(s0: Store, plan: Plan, a: Actor, es: seq<Event>, e: Event)
    ensures RewireOrder(s0, plan, a, es + [e]) ==
      RewireOrder(s0, plan, a, es) + if e.DoRewire? && e.o in plan && IsChildOf(s0, e.o, a) then [plan[e.o].ref] else []
  {
    assert (es + [e])[..|es|] == es;
    assert RewireOrder(s0, plan, a, es) + [] == RewireOrder(s0, plan, a, es);
  }

  /** So far, the rewired entries stand in the order of their REWIRE steps. */
  ghost predicate OrderSoFar(s0: Store, plan: Plan, rew: set<Actor>, done: seq<Event>, a: Actor) {
    RewiredOnly(plan, rew, Appended(s0, plan, a, done)) == RewireOrder(s0, plan, a, done)
  }

  lemma RegisterKeepsOrder(s0: Store, plan: Plan, rew: set<Actor>, done: seq<Event>, o: Actor, a: Actor)
    requires PlanOk(s0, plan) && o in plan && o !in rew && OrderSoFar(s0, plan, rew, done, a)
    ensures OrderSoFar(s0, plan, rew, done + [DoRegister(o)], a)
  {
    hide RewiredOnly, Appended, RewireOrder;
    AppendedPush(s0, plan, a, done, DoRegister(o));
    OrderPush(s0, plan, a, done, DoRegister(o));
    RewiredOnlyUnregistered(s0, plan, rew, o, Appended(s0, plan, a, done));
    assert RewireOrder(s0, plan, a, done) + [] == RewireOrder(s0, plan, a, done);
  }

  lemma RewireKeepsOrder(s0: Store, plan: Plan, rew: set<Actor>, done: seq<Event>, o: Actor, a: Actor)
    requires PlanOk(s0, plan) && o in plan && o !in rew && OrderSoFar(s0, plan, rew, done, a)
    ensures OrderSoFar(s0, plan, rew + {o}, done + [DoRewire(o)], a)
  {
    var f, before := plan[o].ref, Appended(s0, plan, a, done);
    AppendedPush(s0, plan, a, done, DoRewire(o));
    OrderPush(s0, plan, a, done, DoRewire(o));
    if IsChildOf(s0, o, a) {
      RewiredOnlyMore(s0, plan, rew, o, before);
      var rest := Without(before, f);
      assert (rest + [f])[..|rest|] == rest && WasRewired(plan, rew + {o}, f);
    } else {
      AppendedIn(s0, plan, a, done);
      assert f !in before;
      RewiredOnlySame(s0, plan, rew, o, before);
      assert RewireOrder(s0, plan, a, done) + [] == RewireOrder(s0, plan, a, done);
    }
  }

  lemma {:induction false} RunInOrder(s0: Store, plan: Plan, reg: set<Actor>, rew: set<Actor>, done: seq<Event>,
                                      s: Store, es: seq<Event>, t: Store, a: Actor)
    requires Tidy(s0) && PlanOk(s0, plan) && Mid(s0, plan, reg, rew, s)
    requires Legal(plan, reg, rew, es) && Runs(plan, s, es, t) && a in s0.children && Live(s0, a)
    requires InOrder(s0, plan, rew, done, s, a) && OrderSoFar(s0, plan, rew, done, a)
    ensures InOrder(s0, plan, plan.Keys, done + es, t, a) && OrderSoFar(s0, plan, plan.Keys, done + es, a)
    decreases |es|
  {
    hide Mid, InOrder, OrderSoFar, Tidy, PlanOk, Register, Rewire, CanRegister, CanTakeOver, Closed;
    if es == [] {
      assert done + es == done;
    } else {
      assert done + es == done + [es[0]] + es[1..];
      match es[0]
      case DoRegister(o) =>
        NotYetRewired(s0, plan, reg, rew, s, o);
        RegisterMid(s0, plan, reg, rew, s, o);
        RegisterInOrder(s0, plan, reg, rew, done, s, o, a);
        RegisterKeepsOrder(s0, plan, rew, done, o, a);
        RunInOrder(s0, plan, reg + {o}, rew, done + [es[0]], Register(s, plan[o].actor), es[1..], t, a);
      case DoRewire(o) =>
        RewireMid(s0, plan, reg, rew, s, o);
        RewireInOrder(s0, plan, reg, rew, done, s, o, a);
        RewireKeepsOrder(s0, plan, rew, done, o, a);
        RunInOrder(s0, plan, reg, rew + {o}, done + [es[0]], Rewire(s, o, plan[o].actor), es[1..], t, a);
    }
  }

  lemma NotYetRewired(s0: Store, plan: Plan, reg: set<Actor>, rew: set<Actor>, s: Store, o: Actor)
    requires Mid(s0, plan, reg, rew, s) && o !in reg
    ensures o !in rew
  {
  }

  lemma {:induction false} KeptAll(s0: Store, cs: seq<ActorRefImpl>)
    ensures Kept(s0, {}, cs) == cs
  {
    if cs != [] {
      KeptAll(s0, cs[..|cs| - 1]);
    }
  }

  /**
   The exact child lists after a restart: the entries of actors that were not restarted, where they were,
   then the fresh ones in the order of their REWIRE steps.
   */
  lemma FinalOrder(s0: Store, plan: Plan, s: Store, es: seq<Event>, t: Store, a: Actor)
    requires Tidy(s0) && PlanOk(s0, plan) && Begun(s0, plan, s)
    requires Legal(plan, {}, {}, es) && Runs(plan, s, es, t) && a in s0.children && Live(s0, a)
    ensures Renewed(plan, a) in t.children
    ensures t.children[Renewed(plan, a)] == Kept(s0, plan.Keys, s0.children[a]) + RewireOrder(s0, plan, a, es)
  {
    hide Mid, Tidy, PlanOk, Runs, Legal;
    BegunMid(s0, plan, s);
    KeptAll(s0, s0.children[a]);
    assert s0.children[a] + [] == s0.children[a];
    RunInOrder(s0, plan, {}, {}, [], s, es, t, a);
    assert [] + es == es;
    var tail := Appended(s0, plan, a, es);
    AppendedIn(s0, plan, a, es);
    assert forall c :: c in tail ==> WasRewired(plan, plan.Keys, c);
    RewiredOnlyAll(plan, plan.Keys, tail);
  }

  lemma SameTail(kept: seq<ActorRefImpl>, xs: seq<ActorRefImpl>, ys: seq<ActorRefImpl>)
    ensures kept + xs == kept + ys <==> xs == ys
  {
    assert (kept + xs)[|kept|..] == xs && (kept + ys)[|kept|..] == ys;
  }

  /** Two interleavings end in the same list exactly when they rewire the children of that actor in the same order. */
  lemma ListsAgreeIff(s0: Store, plan: Plan, s: Store, es1: seq<Event>, t1: Store, es2: seq<Event>, t2: Store, a: Actor)
    requires Tidy(s0) && PlanOk(s0, plan) && Begun(s0, plan, s) && a in s0.children && Live(s0, a)
    requires Legal(plan, {}, {}, es1) && Runs(plan, s, es1, t1)
    requires Legal(plan, {}, {}, es2) && Runs(plan, s, es2, t2)
    ensures Renewed(plan, a) in t1.children && Renewed(plan, a) in t2.children
    ensures t1.children[Renewed(plan, a)] == t2.children[Renewed(plan, a)] <==>
            RewireOrder(s0, plan, a, es1) == RewireOrder(s0, plan, a, es2)
  {
    hide Tidy, PlanOk, Begun, Legal, Runs, Kept, RewireOrder;
    FinalOrder(s0, plan, s, es1, t1, a);
    FinalOrder(s0, plan, s, es2, t2, a);
    SameTail(Kept(s0, plan.Keys, s0.children[a]), RewireOrder(s0, plan, a, es1), RewireOrder(s0, plan, a, es2));
  }

  /**
   Any two interleavings of the steps end with the same registry, references and shut-down actors, and
   with the same entries in each list; in the same order exactly when they rewire the children of that
   actor in the same order.
   */
  lemma InterleavingsAgree(s0: Store, plan: Plan, s: Store, es1: seq<Event>, t1: Store, es2: seq<Event>, t2: Store)
    requires Tidy(s0) && PlanOk(s0, plan) && Begun(s0, plan, s)
    requires Legal(plan, {}, {}, es1) && Runs(plan, s, es1, t1)
    requires Legal(plan, {}, {}, es2) && Runs(plan, s, es2, t2)
    ensures t1.registry == t2.registry && t1.target == t2.target && t1.self == t2.self && t1.dead == t2.dead
    ensures forall a {:trigger Renewed(plan, a)} :: a in s0.children && Live(s0, a) ==>
      && Renewed(plan, a) in t1.children && Renewed(plan, a) in t2.children
      && multiset(t1.children[Renewed(plan, a)]) == multiset(t2.children[Renewed(plan, a)])
      && (t1.children[Renewed(plan, a)] == t2.children[Renewed(plan, a)] <==>
          RewireOrder(s0, plan, a, es1) == RewireOrder(s0, plan, a, es2))
  {
    hide Tidy, PlanOk, Begun, Legal, Runs, Finished, RewireOrder, Live, Renewed;
    RunFinished(s0, plan, s, es1, t1);
    RunFinished(s0, plan, s, es2, t2);
    FinalShape(s0, plan, t1);
    FinalShape(s0, plan, t2);
    FinalRefsAgree(s0, plan, s, es1, t1, es2, t2);
    forall a {:trigger Renewed(plan, a)} | a in s0.children && Live(s0, a)
      ensures Renewed(plan, a) in t1.children && Renewed(plan, a) in t2.children
      ensures multiset(t1.children[Renewed(plan, a)]) == multiset(t2.children[Renewed(plan, a)])
      ensures t1.children[Renewed(plan, a)] == t2.children[Renewed(plan, a)] <==>
              RewireOrder(s0, plan, a, es1) == RewireOrder(s0, plan, a, es2)
    {
      FinalListsAgree(s0, plan, t1, t2, a);
      ListsAgreeIff(s0, plan, s, es1, t1, es2, t2, a);
    }
  }
}
