/**
 What a restart leads to that brings an actor back under another name.
 */
module RenamedRestarts {
  import opened ActorTree
  import opened TidyTree
  import opened WiredTree
  import R = Restarts
  import RO = RestartOrder

  /**
   An actor that comes back under another name stays registered under the old one, where its own
   reference already leads to the new instance: no tidy tree.
   */
  lemma RenamedRestartIsUntidy(s: Store, o: Actor, f: ActorRefImpl, n: Actor)
    requires Closed(s) && CanReplace(s, o, f) && s.target[f] == n && n.name != o.name
    requires o.name in s.registry && s.registry[o.name] == o
    ensures var t := RewireTree(s, o, f);
      && o.name in t.registry && t.registry[o.name] == o
      && o in t.self && t.self[o] in t.target && t.target[t.self[o]] == n
      && !Tidy(t)
  {
    var t := RewireTree(s, o, f);
    assert t.self[o] == s.self[o] && t.target[s.self[o]] == n;
    assert o in t.children && Live(t, o);
    assert !SelfOk(t);
  }

  /** Lists whose owners' names are shorter than `m` still hold their entries, and those lead where they did. */
  ghost predicate KeepsShort(s0: Store, s: Store, m: string) {
    forall x, c {:trigger c in s0.children[x]} :: x in s0.children && |x.name| < |m| && c in s0.children[x] ==>
      x in s.children && c in s.children[x] && c in s0.target && c in s.target && s.target[c] == s0.target[c]
  }

  /** Then the traversal comes by every live actor with a shorter name. */
  lemma {:induction false} LiveVisited(s0: Store, s: Store, m: string, a: Actor)
    requires Tidy(s0) && Grows(s) && s.root == s0.root && s.root in s.children && KeepsShort(s0, s, m)
    requires a in s0.children && Live(s0, a) && |a.name| < |m|
    ensures a in s.children && Visits(s, s.root, m, a)
    decreases |a.name|
  {
    if a == s0.root {
      R.VisitsItself(s, s.root, m);
    } else {
      assert Placed(s0, a);
      var p := s0.target[a.parent];
      LiveVisited(s0, s, m, p);
      var c := CountWitness(s0.target, s0.children[p], a);
      VisitsStep(s, s.root, m, p, c);
    }
  }

  /** The fresh instance `n` has been registered; the old one is about to hand over. */
  ghost predicate Renames(s0: Store, o: Actor, n: Actor, f: ActorRefImpl) {
    && Tidy(s0) && o in s0.children && Live(s0, o) && o != s0.root
    && CanInstantiate(s0, n, f) && n.parent == o.parent && |n.name| == |o.name| && n.name != o.name
  }

  ghost function Registered(s0: Store, o: Actor, n: Actor, f: ActorRefImpl): Store
    requires Renames(s0, o, n, f)
  {
    ReadyToRename(s0, o, n, f);
    Register(Instantiate(s0, n, f), n)
  }

  lemma ReadyToRename(s0: Store, o: Actor, n: Actor, f: ActorRefImpl)
    requires Renames(s0, o, n, f)
    ensures CanRegister(Instantiate(s0, n, f), n) && CanReplace(Register(Instantiate(s0, n, f), n), o, f)
    ensures o.parent != null && o.parent in s0.target
    ensures var p := s0.target[o.parent];
      && p in s0.children && Live(s0, p) && p != o && p != n && |p.name| < |o.name|
      && o in s0.self && s0.self[o] in s0.target
      && s0.target[s0.self[o]] == o
  {
    ClosedIsWired(s0);
    InstantiateWired(s0, n, f);
    RegisterWired(Instantiate(s0, n, f), n);
    assert Placed(s0, o);
    ReplaceEnabled(Register(Instantiate(s0, n, f), n), o, f);
  }

  lemma RegisteredState(s0: Store, o: Actor, n: Actor, f: ActorRefImpl)
    requires Renames(s0, o, n, f) && o.parent != null && o.parent in s0.target
    ensures var s, p := Registered(s0, o, n, f), s0.target[o.parent];
      && s.root == s0.root && f in s.target && s.target[f] == n && n in s.children
      && (forall x {:trigger x in s0.children} :: x in s0.children ==>
            x in s.children && x != n && s.children[x] == if x == p then s0.children[x] + [f] else s0.children[x])
      && (forall r {:trigger r in s0.target} :: r in s0.target ==>
            r in s.target && r != f && s.target[r] == s0.target[r])
      && (forall a {:trigger s.self[a]} :: a in s0.self ==> a in s.self && a != n && s.self[a] == s0.self[a])
  {
    ReadyToRename(s0, o, n, f);
    SelvesKnown(s0);
  }

  lemma SelvesKnown(s: Store)
    requires Tidy(s)
    ensures forall a {:trigger a in s.self} :: a in s.self ==> a in s.children
    ensures forall a {:trigger a in s.self} :: a in s.children ==> a in s.self
    ensures forall a, c {:trigger c in s.children[a]} :: a in s.children && c in s.children[a] ==> c in s.target
    ensures Grows(s) && s.root in s.children
  {
  }

  lemma TakenKeepsShort(s0: Store, o: Actor, n: Actor, f: ActorRefImpl)
    requires Renames(s0, o, n, f)
    ensures CanReplace(Registered(s0, o, n, f), o, f)
    ensures Grows(Taken(Registered(s0, o, n, f), o, n))
    ensures KeepsShort(s0, Taken(Registered(s0, o, n, f), o, n), o.name)
  {
    hide Tidy, Live;
    ReadyToRename(s0, o, n, f);
    RegisteredState(s0, o, n, f);
    SelvesKnown(s0);
  }

  /** Collapsing the parent's list by an entry of another name. */
  lemma ParentCollapses(s0: Store, s: Store, o: Actor, n: Actor, f: ActorRefImpl, cs: seq<ActorRefImpl>)
    requires o.name != n.name && IsNamed(s.target, f, n.name)
    requires forall c :: c in cs ==> c in s0.target && c in s.target && s.target[c] == s0.target[c]
    requires Count(s0.target, cs, o) >= 1
    ensures Collapse(s.target, cs + [f], o.name, f) == Others(s0.target, cs, o.name) + [f, f]
  {
    RO.OthersSameNames(s.target, s0.target, cs, o.name);
    RO.OthersConcat(s.target, cs, [f], o.name);
    assert Others(s.target, [f], o.name) == [f];
    var c := CountWitness(s0.target, cs, o);
    NamedIn(s.target, cs + [f], o.name);
    assert c in cs + [f] && IsNamed(s.target, c, o.name);
    assert Others(s0.target, cs, o.name) + [f] + [f] == Others(s0.target, cs, o.name) + [f, f];
  }

  /** No other live list has an entry of the old name. */
  lemma OthersKeep(s0: Store, s: Store, o: Actor, f: ActorRefImpl, a: Actor)
    requires Tidy(s0) && o in s0.children && Live(s0, o) && o != s0.root && a in s0.children && Live(s0, a)
    requires o.parent != null && o.parent in s0.target && a != s0.target[o.parent]
    requires forall r {:trigger r in s0.target} :: r in s0.target ==> r in s.target && s.target[r] == s0.target[r]
    ensures Collapse(s.target, s0.children[a], o.name, f) == s0.children[a]
  {
    if Named(s0.target, s0.children[a], o.name) != [] {
      R.NobodyElseNames(s0, a, o);
    }
    SelvesKnown(s0);
    assert forall c :: c in s0.children[a] ==> c in s0.target;
    NamedSameNames(s0.target, s.target, s0.children[a], o.name);
  }

  /**
   The lists after a restart that renames: the fresh instance has the old one's children, who has none left;
   the parent's list holds no entry of the old name, the others in order, and the fresh one twice at the end;
   every other live list is as it was.
   */
  lemma RenamedLists(s0: Store, o: Actor, n: Actor, f: ActorRefImpl)
    requires Renames(s0, o, n, f)
    ensures CanReplace(Registered(s0, o, n, f), o, f) && o.parent != null && o.parent in s0.target
    ensures var t, p := RewireTree(Registered(s0, o, n, f), o, f), s0.target[o.parent];
      && n in t.children && t.children[n] == s0.children[o] && o in t.children && t.children[o] == []
      && p in s0.children && p in t.children
      && t.children[p] == Others(s0.target, s0.children[p], o.name) + [f, f]
      && forall a {:trigger a in s0.children} :: a in s0.children && Live(s0, a) && a != o && a != p ==>
        a in t.children && t.children[a] == s0.children[a]
  {
    hide Tidy, Live, Visits, Collapse, RewireTree, Registered, Closed;
    ReadyToRename(s0, o, n, f);
    RegisteredState(s0, o, n, f);
    TakenKeepsShort(s0, o, n, f);
    var s, p := Registered(s0, o, n, f), s0.target[o.parent];
    var t := RewireTree(s, o, f);
    FreshTakesChildren(s, o, f);
    ParentList(s0, o, n, f);
    forall a {:trigger a in s0.children} | a in s0.children && Live(s0, a) && a != o && a != p
      ensures a in t.children && t.children[a] == s0.children[a]
    {
      RewireTreeLists(s, o, f, a);
      OthersKeep(s0, s, o, f, a);
    }
  }

  lemma ParentList(s0: Store, o: Actor, n: Actor, f: ActorRefImpl)
    requires Renames(s0, o, n, f) && CanReplace(Registered(s0, o, n, f), o, f)
    requires o.parent != null && o.parent in s0.target
    ensures var t, p := RewireTree(Registered(s0, o, n, f), o, f), s0.target[o.parent];
      p in s0.children && p in t.children && t.children[p] == Others(s0.target, s0.children[p], o.name) + [f, f]
  {
    hide Live, Visits, Collapse, RewireTree, Registered, Closed, EntriesOk, SelfOk, RegisteredAlive;
    ReadyToRename(s0, o, n, f);
    RegisteredState(s0, o, n, f);
    TakenKeepsShort(s0, o, n, f);
    SelvesKnown(s0);
    var s, p := Registered(s0, o, n, f), s0.target[o.parent];
    LiveVisited(s0, Taken(s, o, n), o.name, p);
    RewireTreeLists(s, o, f, p);
    assert Placed(s0, o);
    ParentCollapses(s0, s, o, n, f, s0.children[p]);
  }
}
