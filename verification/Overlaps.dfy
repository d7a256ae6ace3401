/**
 Overlapping restarts of one actor without children: when the tree is tidy again.
 */
module Overlaps {
  import opened Paths
  import opened ActorTree
  import opened TidyTree
  import opened WiredTree
  import opened RestartStart
  import opened RestartRuns
  import R = Restarts
  import RO = RestartOrder

  /** All these restarts are of `o`, which has no children, and keep its name. */
  ghost predicate AllOf(s0: Store, o: Actor, starts: seq<Start>) {
    && Tidy(s0) && o in s0.children && Live(s0, o) && o != s0.root && s0.children[o] == [] && StartsFresh(s0, starts)
    && forall k {:trigger starts[k]} :: 0 <= k < |starts| ==>
      starts[k].prior == o && starts[k].next.name == o.name && starts[k].next.parent == o.parent
  }

  /** A restart of a childless actor is one call, so any number of them are as many starts. */
  lemma ReachesItself(s0: Store, o: Actor, starts: seq<Start>)
    requires AllOf(s0, o, starts)
    ensures Grows(s0) && o in s0.children && PostOrder(s0, o) == [o]
  {
  }

  /** The start that registered last, and the one that rewired last. */
  function LastToRegister(es: seq<Step>): Option<nat> {
    if es == [] then None
    else if es[|es| - 1].Registers? then Some(es[|es| - 1].k) else LastToRegister(es[..|es| - 1])
  }

  function LastToRewire(es: seq<Step>): Option<nat> {
    if es == [] then None
    else if es[|es| - 1].Rewires? then Some(es[|es| - 1].k) else LastToRewire(es[..|es| - 1])
  }

  /** The list of the parent: a REGISTER appends, a REWIRE leaves one entry of the name. */
  ghost function ParentList(s0: Store, o: Actor, starts: seq<Start>, cs: seq<ActorRefImpl>,
                            es: seq<Step>): seq<ActorRefImpl>
    requires forall e :: e in es ==> e.k < |starts|
  {
    if es == [] then cs
    else
      var last := es[|es| - 1];
      assert last in es;
      if last.Registers? then ParentList(s0, o, starts, cs, es[..|es| - 1]) + [starts[last.k].ref]
      else Others(s0.target, cs, o.name) + [starts[last.k].ref]
  }

  lemma Push(s0: Store, o: Actor, starts: seq<Start>, cs: seq<ActorRefImpl>, es: seq<Step>, e: Step)
    requires (forall d :: d in es ==> d.k < |starts|) && e.k < |starts|
    ensures forall d :: d in es + [e] ==> d.k < |starts|
    ensures LastToRegister(es + [e]) == if e.Registers? then Some(e.k) else LastToRegister(es)
    ensures LastToRewire(es + [e]) == if e.Rewires? then Some(e.k) else LastToRewire(es)
    ensures ParentList(s0, o, starts, cs, es + [e]) ==
            if e.Registers? then ParentList(s0, o, starts, cs, es) + [starts[e.k].ref]
            else Others(s0.target, cs, o.name) + [starts[e.k].ref]
  {
    assert (es + [e])[..|es|] == es;
  }

  // ---- The state after some steps -----------------------------------------------------------------------

  ghost predicate RegistryOk(s0: Store, o: Actor, starts: seq<Start>, done: seq<Step>, s: Store) {
    match LastToRegister(done)
    case None => s.registry == s0.registry
    case Some(k) => k < |starts| && s.registry == s0.registry[o.name := starts[k].next]
  }

  ghost predicate TargetsOk(s0: Store, o: Actor, starts: seq<Start>, done: seq<Step>, s: Store) {
    && (forall r {:trigger r in s.target} :: r in s0.target ==> r in s.target)
    && o in s0.self && s0.self[o] in s0.target && s0.self[o] in s.target
    && (forall r {:trigger s.target[r]} :: r in s0.target && r in s.target && r != s0.self[o] ==>
      s.target[r] == s0.target[r])
    && (forall r {:trigger s.target[r]} :: r in s0.target && r in s.target ==> s.target[r].name == s0.target[r].name)
    && (forall k {:trigger starts[k]} :: 0 <= k < |starts| ==>
      starts[k].ref in s.target && s.target[starts[k].ref] == starts[k].next)
    && match LastToRewire(done)
       case None => s.target[s0.self[o]] == o
       case Some(k) => k < |starts| && s.target[s0.self[o]] == starts[k].next
  }

  ghost predicate SelvesOk(s0: Store, o: Actor, starts: seq<Start>, rew: set<nat>, s: Store) {
    && (forall a {:trigger a in s.self} :: a in s0.self ==> a in s.self)
    && (forall a {:trigger s.self[a]} :: a in s0.self && a in s.self ==> s.self[a] == s0.self[a])
    && o in s0.self
    && (forall k {:trigger starts[k]} :: 0 <= k < |starts| ==>
      starts[k].next in s.self && s.self[starts[k].next] == if k in rew then s0.self[o] else starts[k].ref)
  }

  ghost predicate ListsOk(s0: Store, o: Actor, starts: seq<Start>, done: seq<Step>, s: Store) {
    && (forall e :: e in done ==> e.k < |starts|)
    && (forall a {:trigger a in s.children} :: a in s0.children ==> a in s.children)
    && (forall k {:trigger starts[k]} :: 0 <= k < |starts| ==>
      starts[k].next in s.children && s.children[starts[k].next] == [])
    && o.parent != null && o.parent in s0.target && s0.target[o.parent] in s0.children
    && (forall a {:trigger s.children[a]} :: a in s0.children && a in s.children && Live(s0, a) ==>
      s.children[a] ==
        if a == s0.target[o.parent] then ParentList(s0, o, starts, s0.children[a], done) else s0.children[a])
  }

  ghost predicate Mid(s0: Store, o: Actor, starts: seq<Start>, reg: set<nat>, rew: set<nat>, done: seq<Step>,
                      s: Store)
  {
    && Closed(s) && s.root == s0.root && s.dead == s0.dead
    && RegistryOk(s0, o, starts, done, s) && TargetsOk(s0, o, starts, done, s)
    && SelvesOk(s0, o, starts, rew, s) && ListsOk(s0, o, starts, done, s)
  }

  // ---- The beginning --------------------------------------------------------------------------------------

  lemma InstantiateClosed(s: Store, n: Actor, f: ActorRefImpl)
    requires Closed(s) && n !in s.children && f !in s.target
    requires n.parent != null && n.parent in s.target && Below(s.target[n.parent].name, n.name)
    ensures Closed(Instantiate(s, n, f))
  {
  }

  lemma {:induction false} StartedClosed(s0: Store, o: Actor, starts: seq<Start>)
    requires AllOf(s0, o, starts)
    ensures Closed(StartedFrom(s0, starts))
  {
    hide AllPlaced, EntriesOk, SelfOk, RegisteredAlive, RefsKnown, EntriesBelow, RegistryKnown;
    if starts != [] {
      var before, last := starts[..|starts| - 1], starts[|starts| - 1];
      ClosedIsWired(s0);
      StartedClosed(s0, o, before);
      StartedExtends(s0, before);
      LastIsNew(s0, starts);
      InstantiateClosed(StartedFrom(s0, before), last.next, last.ref);
    }
  }

  lemma ListsBegin(s0: Store, o: Actor, starts: seq<Start>)
    requires AllOf(s0, o, starts)
    ensures ListsOk(s0, o, starts, [], StartedFrom(s0, starts))
  {
    hide Closed, EntriesOk, RegisteredAlive, SelfOk;
    var s := StartedFrom(s0, starts);
    Sized(s0);
    StartedExtends(s0, starts);
    assert Placed(s0, o);
    forall k {:trigger starts[k]} | 0 <= k < |starts|
      ensures starts[k].next in s.children && s.children[starts[k].next] == []
    {
      StartedWaits(s0, starts, k);
    }
  }

  lemma RefsBegin(s0: Store, o: Actor, starts: seq<Start>)
    requires AllOf(s0, o, starts)
    ensures TargetsOk(s0, o, starts, [], StartedFrom(s0, starts))
    ensures SelvesOk(s0, o, starts, {}, StartedFrom(s0, starts))
  {
    hide EntriesOk, RegisteredAlive, AllPlaced, EntriesBelow, ParentsAbove;
    var s := StartedFrom(s0, starts);
    Sized(s0);
    StartedExtends(s0, starts);
    OldKnown(s0, o);
    forall k {:trigger starts[k]} | 0 <= k < |starts| ensures Waits(s, starts[k]) {
      StartedWaits(s0, starts, k);
    }
  }

  lemma MidBegins(s0: Store, o: Actor, starts: seq<Start>)
    requires AllOf(s0, o, starts)
    ensures Mid(s0, o, starts, {}, {}, [], StartedFrom(s0, starts))
  {
    hide Tidy, Closed, TargetsOk, SelvesOk, ListsOk, StartedFrom, StartsFresh;
    StartedClosed(s0, o, starts);
    Sized(s0);
    StartedExtends(s0, starts);
    ListsBegin(s0, o, starts);
    RefsBegin(s0, o, starts);
  }

  lemma Sized(s: Store)
    requires Tidy(s)
    ensures SelfSized(s)
  {
  }

  // ---- REGISTER -----------------------------------------------------------------------------------------------

  lemma ParentIs(s0: Store, o: Actor, starts: seq<Start>, done: seq<Step>, s: Store)
    requires AllOf(s0, o, starts) && TargetsOk(s0, o, starts, done, s)
    ensures o.parent != null && o.parent in s0.target && o.parent in s.target
    ensures s.target[o.parent] == s0.target[o.parent] != o
    ensures s0.target[o.parent] in s0.children && Live(s0, s0.target[o.parent])
    ensures Below(s0.target[o.parent].name, o.name)
  {
    assert Placed(s0, o);
    assert s0.target[s0.self[o]] == o;
  }

  lemma RegisterLists(s0: Store, o: Actor, starts: seq<Start>, rew: set<nat>, done: seq<Step>, s: Store, k: nat)
    requires AllOf(s0, o, starts) && k < |starts| && k !in rew && CanRegister(s, starts[k].next)
    requires TargetsOk(s0, o, starts, done, s) && SelvesOk(s0, o, starts, rew, s) && ListsOk(s0, o, starts, done, s)
    ensures ListsOk(s0, o, starts, done + [Registers(k)], Register(s, starts[k].next))
  {
    hide Tidy, ParentList;
    ParentIs(s0, o, starts, done, s);
    assert starts[k].next !in s0.children;
    var s' := Register(s, starts[k].next);
    Push(s0, o, starts, [], done, Registers(k));
    forall a {:trigger s'.children[a]} | a in s0.children && a in s'.children && Live(s0, a)
      ensures s'.children[a] == if a == s0.target[o.parent]
        then ParentList(s0, o, starts, s0.children[a], done + [Registers(k)]) else s0.children[a]
    {
      Push(s0, o, starts, s0.children[a], done, Registers(k));
    }
  }

  lemma RegisterRefs(s0: Store, o: Actor, starts: seq<Start>, rew: set<nat>, done: seq<Step>, s: Store, k: nat)
    requires AllOf(s0, o, starts) && k < |starts| && (forall e :: e in done ==> e.k < |starts|)
    requires RegistryOk(s0, o, starts, done, s) && CanRegister(s, starts[k].next)
    requires TargetsOk(s0, o, starts, done, s) && SelvesOk(s0, o, starts, rew, s)
    ensures var s' := Register(s, starts[k].next);
      && RegistryOk(s0, o, starts, done + [Registers(k)], s') && TargetsOk(s0, o, starts, done + [Registers(k)], s')
      && SelvesOk(s0, o, starts, rew, s')
  {
    hide Tidy, StartsFresh;
    Push(s0, o, starts, [], done, Registers(k));
    var s' := Register(s, starts[k].next);
    assert s'.target == s.target && s'.self == s.self;
  }

  lemma FreshKnown(s0: Store, o: Actor, starts: seq<Start>, done: seq<Step>, s: Store, k: nat)
    requires AllOf(s0, o, starts) && ListsOk(s0, o, starts, done, s) && k < |starts|
    ensures starts[k].next in s.children && starts[k].next !in s0.children && starts[k].next != s0.root
  {
    assert starts[k].prior == o;
  }

  lemma RegisterKeeps(s0: Store, o: Actor, starts: seq<Start>, reg: set<nat>, rew: set<nat>, done: seq<Step>,
                      s: Store, k: nat)
    requires AllOf(s0, o, starts) && Mid(s0, o, starts, reg, rew, done, s) && k < |starts| && k !in rew
    ensures Enabled(starts, s, Registers(k))
    ensures Mid(s0, o, starts, reg + {k}, rew, done + [Registers(k)], After(starts, s, Registers(k)))
  {
    hide AllOf, Closed, TargetsOk, SelvesOk, RegistryOk, ParentList, CanRegister;
    FreshKnown(s0, o, starts, done, s, k);
    RegisterClosed(s, starts[k].next);
    RegisterLists(s0, o, starts, rew, done, s, k);
    RegisterRefs(s0, o, starts, rew, done, s, k);
  }

  // ---- REWIRE -------------------------------------------------------------------------------------------------

  /** The traversal comes by the parent: no list above it has changed. */
  lemma {:induction false} Visited(s0: Store, o: Actor, starts: seq<Start>, reg: set<nat>, rew: set<nat>,
                                   done: seq<Step>, s: Store, n: Actor, a: Actor)
    requires AllOf(s0, o, starts) && Mid(s0, o, starts, reg, rew, done, s) && CanRewire(s, o, n) && n !in s0.children
    requires a in s0.children && Live(s0, a) && o.parent != null && o.parent in s0.target
    requires |a.name| <= |s0.target[o.parent].name|
    ensures Visits(Taken(s, o, n), s.root, o.name, a)
    decreases |a.name|
  {
    hide RegistryOk, SelvesOk, ParentList, RegistryKnown;
    var s1 := Taken(s, o, n);
    ParentIs(s0, o, starts, done, s);
    if a != s0.root {
      assert Placed(s0, a);
      var q := s0.target[a.parent];
      Visited(s0, o, starts, reg, rew, done, s, n, q);
      var c := CountWitness(s0.target, s0.children[q], a);
      assert s1.children[q] == s0.children[q];
      assert s0.target[s0.self[o]] == o && s.target[c] == a;
      VisitsStep(s1, s.root, o.name, q, c);
    } else {
      R.VisitsItself(s1, s.root, o.name);
    }
  }

  /** No live list but the parent's holds an entry of the name. */
  lemma NotNamed(s0: Store, o: Actor, starts: seq<Start>, done: seq<Step>, s: Store, a: Actor)
    requires AllOf(s0, o, starts) && TargetsOk(s0, o, starts, done, s) && a in s0.children && Live(s0, a)
    requires o.parent != null && o.parent in s0.target && a != s0.target[o.parent]
    ensures Named(s.target, s0.children[a], o.name) == []
  {
    if Named(s0.target, s0.children[a], o.name) != [] {
      R.NobodyElseNames(s0, a, o);
    }
    forall c | c in s0.children[a] ensures c in s0.target && c in s.target && s0.target[c].name == s.target[c].name {
      assert EntryOk(s0, a, c);
    }
    NamedSameNames(s0.target, s.target, s0.children[a], o.name);
  }

  /** The parent's list has the other entries as before, and some of the name. */
  lemma {:induction false} ParentListParts(s0: Store, o: Actor, starts: seq<Start>, cs: seq<ActorRefImpl>,
                                           done: seq<Step>, target: map<ActorRefImpl, Actor>)
    requires forall e :: e in done ==> e.k < |starts|
    requires forall c :: c in cs ==> c in s0.target && c in target && s0.target[c].name == target[c].name
    requires forall k {:trigger starts[k]} :: 0 <= k < |starts| ==> IsNamed(target, starts[k].ref, o.name)
    requires Named(s0.target, cs, o.name) != []
    ensures Others(target, ParentList(s0, o, starts, cs, done), o.name) == Others(s0.target, cs, o.name)
    ensures Named(target, ParentList(s0, o, starts, cs, done), o.name) != []
  {
    if done == [] {
      RO.OthersSameNames(target, s0.target, cs, o.name);
      NamedSameNames(target, s0.target, cs, o.name);
    } else {
      var before, last := done[..|done| - 1], done[|done| - 1];
      assert last in done && forall e :: e in before ==> e in done;
      ParentListParts(s0, o, starts, cs, before, target);
      var f, list := starts[last.k].ref, ParentList(s0, o, starts, cs, done);
      assert IsNamed(target, f, o.name);
      NamedSnoc(target, list[..|list| - 1], f, o.name);
      assert list == list[..|list| - 1] + [f];
      if last.Rewires? {
        OthersTwice(s0, cs, target, o.name);
      }
    }
  }

  lemma OthersTwice(s0: Store, cs: seq<ActorRefImpl>, target: map<ActorRefImpl, Actor>, m: string)
    requires forall c :: c in cs ==> c in s0.target && c in target && s0.target[c].name == target[c].name
    ensures Others(target, Others(s0.target, cs, m), m) == Others(s0.target, cs, m)
  {
    OthersIn(s0.target, cs, m);
    RO.OthersAll(target, Others(s0.target, cs, m), m);
  }

  lemma ClosedGrows(s: Store)
    requires Closed(s)
    ensures Grows(s) && s.root in s.children
  {
  }

  /** The references of `o` and of a fresh instance that has not rewired. */
  lemma RefsOfBoth(s0: Store, o: Actor, starts: seq<Start>, rew: set<nat>, done: seq<Step>, s: Store, k: nat)
    requires AllOf(s0, o, starts) && k < |starts| && k !in rew
    requires TargetsOk(s0, o, starts, done, s) && SelvesOk(s0, o, starts, rew, s)
    ensures var n := starts[k].next;
      && o in s.self && s.self[o] == s0.self[o] && s.self[o] in s.target && s.target[s.self[o]].name == o.name
      && n in s.self && s.self[n] == starts[k].ref != s.self[o] && s.self[n] in s.target && s.target[s.self[n]] == n
      && n.name == o.name
  {
    hide Closed, AllPlaced, EntriesOk, RegisteredAlive;
    assert s0.target[s0.self[o]] == o;
    assert o in s.self && s.self[o] == s0.self[o] && starts[k].next.name == o.name;
  }

  lemma RewireEnabled(s0: Store, o: Actor, starts: seq<Start>, reg: set<nat>, rew: set<nat>, done: seq<Step>,
                      s: Store, k: nat)
    requires AllOf(s0, o, starts) && Mid(s0, o, starts, reg, rew, done, s) && k < |starts| && k !in rew
    ensures CanRewire(s, o, starts[k].next) && s.self[starts[k].next] == starts[k].ref && s.self[o] == s0.self[o]
    ensures Enabled(starts, s, Rewires(k)) && After(starts, s, Rewires(k)) == Rewire(s, o, starts[k].next)
  {
    hide Closed, Grows, ParentList, RegistryOk, TargetsOk, SelvesOk, Tidy, RewireTree, Rewire, CanReplace;
    FreshKnown(s0, o, starts, done, s, k);
    ClosedGrows(s);
    RefsOfBoth(s0, o, starts, rew, done, s, k);
    RewireTreeIsRewire(s, o, starts[k].next);
    assert starts[k].prior == o;
  }

  /** The name has entries in the parent's list, and they are the ones that a REWIRE collapses. */
  lemma ParentListRewired(s0: Store, o: Actor, starts: seq<Start>, reg: set<nat>, rew: set<nat>, done: seq<Step>,
                          s: Store, k: nat)
    requires AllOf(s0, o, starts) && Mid(s0, o, starts, reg, rew, done, s) && k < |starts|
    requires CanRewire(s, o, starts[k].next) && s.self[starts[k].next] == starts[k].ref
    ensures o.parent != null && o.parent in s0.target && s0.target[o.parent] in s0.children
    ensures var p, s' := s0.target[o.parent], Rewire(s, o, starts[k].next);
      p in s'.children && s'.children[p] == Others(s0.target, s0.children[p], o.name) + [starts[k].ref]
  {
    hide ParentsAbove, Traverse, ParentList, Collapse, Visits, SelvesOk, RegistryOk, RefsKnown;
    ParentIs(s0, o, starts, done, s);
    var p, n := s0.target[o.parent], starts[k].next;
    assert n !in s0.children;
    var cs := s0.children[p];
    Visited(s0, o, starts, reg, rew, done, s, n, p);
    RO.RewiredList(s, o, n, p);
    assert Placed(s0, o);
    var c := CountWitness(s0.target, cs, o);
    NamedIn(s0.target, cs, o.name);
    assert forall j :: 0 <= j < |starts| ==> IsNamed(s.target, starts[j].ref, o.name);
    ParentListParts(s0, o, starts, cs, done, s.target);
    CollapsedTo(s.target, s.children[p], o.name, starts[k].ref);
  }

  lemma CollapsedTo(target: map<ActorRefImpl, Actor>, cs: seq<ActorRefImpl>, m: string, f: ActorRefImpl)
    requires Named(target, cs, m) != []
    ensures Collapse(target, cs, m, f) == Others(target, cs, m) + [f]
  {
  }

  /** Every other live list, and those of the fresh instances, stay as they are. */
  lemma OtherListRewired(s0: Store, o: Actor, starts: seq<Start>, reg: set<nat>, rew: set<nat>, done: seq<Step>,
                         s: Store, k: nat, a: Actor)
    requires AllOf(s0, o, starts) && Mid(s0, o, starts, reg, rew, done, s) && k < |starts|
    requires CanRewire(s, o, starts[k].next) && o.parent != null && o.parent in s0.target
    requires a in s0.children && Live(s0, a) && a != s0.target[o.parent]
    ensures a in Rewire(s, o, starts[k].next).children
    ensures Rewire(s, o, starts[k].next).children[a] == s0.children[a]
  {
    hide ParentsAbove, Visits, SelvesOk, RegistryOk, RefsKnown, ParentList;
    var n := starts[k].next;
    assert n !in s0.children;
    if a != o {
      NotNamed(s0, o, starts, done, s, a);
      RO.RewiredList(s, o, n, a);
    }
  }

  lemma FreshListRewired(s0: Store, o: Actor, starts: seq<Start>, reg: set<nat>, rew: set<nat>, done: seq<Step>,
                         s: Store, k: nat, j: nat)
    requires AllOf(s0, o, starts) && Mid(s0, o, starts, reg, rew, done, s) && k < |starts| && j < |starts|
    requires CanRewire(s, o, starts[k].next)
    ensures starts[j].next in Rewire(s, o, starts[k].next).children
    ensures Rewire(s, o, starts[k].next).children[starts[j].next] == []
  {
    hide Closed, ParentList, SelvesOk, RegistryOk, Rewire, EntriesOk, SelfOk, RegisteredAlive;
    assert starts[j].next in s.children && starts[j].next !in s0.children;
    ParentIs(s0, o, starts, done, s);
    if j == k {
      RO.MovedList(s, o, starts[k].next);
      assert s.children[o] == s0.children[o];
    } else {
      R.EmptyStaysEmpty(s, o, starts[k].next, starts[j].next);
    }
  }

  lemma RewireLists(s0: Store, o: Actor, starts: seq<Start>, reg: set<nat>, rew: set<nat>, done: seq<Step>,
                    s: Store, k: nat)
    requires AllOf(s0, o, starts) && Mid(s0, o, starts, reg, rew, done, s) && k < |starts|
    requires CanRewire(s, o, starts[k].next) && s.self[starts[k].next] == starts[k].ref
    ensures ListsOk(s0, o, starts, done + [Rewires(k)], Rewire(s, o, starts[k].next))
  {
    hide Tidy, Closed, CanTakeOver, Rewire, ParentList, RegistryOk, TargetsOk, SelvesOk, StartsFresh;
    var s' := Rewire(s, o, starts[k].next);
    ParentListRewired(s0, o, starts, reg, rew, done, s, k);
    R.RewireKeys(s, o, starts[k].next);
    assert forall a :: a in s.children.Keys <==> a in s'.children.Keys;
    Push(s0, o, starts, [], done, Rewires(k));
    forall j {:trigger starts[j]} | 0 <= j < |starts|
      ensures starts[j].next in s'.children && s'.children[starts[j].next] == []
    {
      FreshListRewired(s0, o, starts, reg, rew, done, s, k, j);
    }
    forall a {:trigger s'.children[a]} | a in s0.children && a in s'.children && Live(s0, a)
      ensures s'.children[a] == if a == s0.target[o.parent]
        then ParentList(s0, o, starts, s0.children[a], done + [Rewires(k)]) else s0.children[a]
    {
      Push(s0, o, starts, s0.children[a], done, Rewires(k));
      if a != s0.target[o.parent] {
        OtherListRewired(s0, o, starts, reg, rew, done, s, k, a);
      }
    }
  }

  lemma RewireRefs(s0: Store, o: Actor, starts: seq<Start>, rew: set<nat>, done: seq<Step>, s: Store, k: nat)
    requires AllOf(s0, o, starts) && k < |starts| && k !in rew && (forall e :: e in done ==> e.k < |starts|)
    requires RegistryOk(s0, o, starts, done, s) && TargetsOk(s0, o, starts, done, s) && SelvesOk(s0, o, starts, rew, s)
    requires CanRewire(s, o, starts[k].next) && s.self[o] == s0.self[o]
    ensures var s' := Rewire(s, o, starts[k].next);
      && RegistryOk(s0, o, starts, done + [Rewires(k)], s') && TargetsOk(s0, o, starts, done + [Rewires(k)], s')
      && SelvesOk(s0, o, starts, rew + {k}, s')
  {
    hide Closed, ParentList, Grows, AllPlaced, EntriesOk, SelfOk, RegisteredAlive;
    Push(s0, o, starts, [], done, Rewires(k));
    OldKnown(s0, o);
    var s' := Rewire(s, o, starts[k].next);
    assert s'.target == s.target[s.self[o] := starts[k].next] && s'.self == s.self[starts[k].next := s.self[o]];
    assert s'.registry == s.registry && starts[k].next !in s0.children;
  }

  lemma OldKnown(s: Store, o: Actor)
    requires Tidy(s) && o in s.children && Live(s, o)
    ensures forall a {:trigger a in s.self} :: a in s.self ==> a in s.children
    ensures o in s.self && s.self[o] in s.target && s.target[s.self[o]] == o
  {
  }

  lemma RewireKeeps(s0: Store, o: Actor, starts: seq<Start>, reg: set<nat>, rew: set<nat>, done: seq<Step>,
                    s: Store, k: nat)
    requires AllOf(s0, o, starts) && Mid(s0, o, starts, reg, rew, done, s) && k < |starts| && k !in rew
    ensures Enabled(starts, s, Rewires(k))
    ensures Mid(s0, o, starts, reg, rew + {k}, done + [Rewires(k)], After(starts, s, Rewires(k)))
  {
    hide AllOf, Closed, RegistryOk, TargetsOk, SelvesOk, RewireTree, CanReplace, CanTakeOver;
    RewireEnabled(s0, o, starts, reg, rew, done, s, k);
    RewireClosed(s, o, starts[k].next);
    RewireLists(s0, o, starts, reg, rew, done, s, k);
    RewireRefs(s0, o, starts, rew, done, s, k);
  }

  // ---- Whole runs -------------------------------------------------------------------------------------------

  lemma {:induction false} RunsMid(s0: Store, o: Actor, starts: seq<Start>, reg: set<nat>, rew: set<nat>,
                                   done: seq<Step>, s: Store, es: seq<Step>, t: Store)
    requires AllOf(s0, o, starts) && Mid(s0, o, starts, reg, rew, done, s)
    requires rew <= reg <= Indices(|starts|) && Legal(|starts|, reg, rew, es) && Runs(starts, s, es, t)
    ensures Mid(s0, o, starts, Indices(|starts|), Indices(|starts|), done + es, t)
    decreases |es|
  {
    hide AllOf, Mid, Enabled, After;
    if es == [] {
      assert done + es == done;
    } else {
      assert done + es == done + [es[0]] + es[1..];
      match es[0]
      case Registers(k) =>
        RegisterKeeps(s0, o, starts, reg, rew, done, s, k);
        RunsMid(s0, o, starts, reg + {k}, rew, done + [es[0]], After(starts, s, es[0]), es[1..], t);
      case Rewires(k) =>
        RewireKeeps(s0, o, starts, reg, rew, done, s, k);
        RunsMid(s0, o, starts, reg, rew + {k}, done + [es[0]], After(starts, s, es[0]), es[1..], t);
    }
  }

  /** The last step of a whole schedule is a REWIRE. */
  lemma {:induction false} EndsWithRewire(n: nat, reg: set<nat>, rew: set<nat>, es: seq<Step>)
    requires rew <= reg && Legal(n, reg, rew, es) && es != []
    ensures es[|es| - 1].Rewires?
    decreases |es|
  {
    if |es| == 1 {
      assert es[1..] == [] && es[0].k in reg + {es[0].k};
    } else {
      assert es[1..][|es[1..]| - 1] == es[|es| - 1];
      match es[0]
      case Registers(k) => EndsWithRewire(n, reg + {k}, rew, es[1..]);
      case Rewires(k) => EndsWithRewire(n, reg, rew + {k}, es[1..]);
    }
  }

  lemma {:induction false} SomeRegisters(es: seq<Step>, e: Step)
    requires e in es && e.Registers?
    ensures LastToRegister(es).Some?
  {
    if es[|es| - 1].Rewires? {
      assert es == es[..|es| - 1] + [es[|es| - 1]];
      SomeRegisters(es[..|es| - 1], e);
    }
  }

  /** After all the steps: the instances that registered last, `j`, and rewired last, `k`. */
  ghost predicate Final(s0: Store, o: Actor, starts: seq<Start>, es: seq<Step>, t: Store, j: nat, k: nat) {
    && AllOf(s0, o, starts) && j < |starts| && k < |starts|
    && Closed(t) && t.root == s0.root && t.dead == s0.dead
    && t.registry == s0.registry[o.name := starts[j].next]
    && TargetsOk(s0, o, starts, es, t) && t.target[s0.self[o]] == starts[k].next
    && SelvesOk(s0, o, starts, Indices(|starts|), t) && ListsOk(s0, o, starts, es, t)
    && es != [] && es[|es| - 1] == Rewires(k)
  }

  lemma HeldByLast(s0: Store, o: Actor, starts: seq<Start>, es: seq<Step>, t: Store)
    requires TargetsOk(s0, o, starts, es, t) && es != [] && es[|es| - 1].Rewires?
    ensures LastToRewire(es) == Some(es[|es| - 1].k) && es[|es| - 1].k < |starts|
    ensures o in s0.self && s0.self[o] in t.target && t.target[s0.self[o]] == starts[es[|es| - 1].k].next
  {
  }

  lemma RunsFinal(s0: Store, o: Actor, starts: seq<Start>, es: seq<Step>, t: Store)
    requires AllOf(s0, o, starts) && starts != []
    requires Legal(|starts|, {}, {}, es) && Runs(starts, StartedFrom(s0, starts), es, t)
    ensures LastToRegister(es).Some? && LastToRewire(es).Some?
    ensures Final(s0, o, starts, es, t, LastToRegister(es).value, LastToRewire(es).value)
  {
    hide AllOf, Closed, Runs, ParentList, Legal, TargetsOk, SelvesOk, ListsOk, LastToRegister, LastToRewire, Indices;
    MidBegins(s0, o, starts);
    RunsMid(s0, o, starts, {}, {}, [], StartedFrom(s0, starts), es, t);
    assert [] + es == es;
    EachRegisters(|starts|, {}, {}, es, 0);
    SomeRegisters(es, Registers(0));
    EndsWithRewire(|starts|, {}, {}, es);
    HeldByLast(s0, o, starts, es, t);
  }

  // ---- When the tree is tidy ----------------------------------------------------------------------------------

  /** The registered instance's own reference leads to the instance that rewired last. */
  lemma TidyOnlyIf(s0: Store, o: Actor, starts: seq<Start>, es: seq<Step>, t: Store, j: nat, k: nat)
    requires Final(s0, o, starts, es, t, j, k) && Tidy(t)
    ensures j == k
  {
    hide Closed, ParentList, AllPlaced, EntriesOk, RegisteredAlive, ListsOk;
    var n := starts[j].next;
    assert n !in s0.children && n in t.self && t.self[n] == s0.self[o];
    FreshHeld(s0, o, starts, es, t, j);
    assert Live(t, n);
    assert t.target[t.self[n]] == n;
    assert starts[k].next == n;
  }

  lemma FreshHeld(s0: Store, o: Actor, starts: seq<Start>, es: seq<Step>, t: Store, j: nat)
    requires ListsOk(s0, o, starts, es, t) && j < |starts|
    ensures starts[j].next in t.children
  {
    assert starts[j] == starts[j];
  }

  /** Who is live afterwards: the instance that took the name, and whoever else was live. */
  lemma LiveAfter(s0: Store, o: Actor, starts: seq<Start>, es: seq<Step>, t: Store, k: nat, x: Actor)
    requires Final(s0, o, starts, es, t, k, k) && x in t.children
    ensures Live(t, x) <==> x == starts[k].next || (x in s0.children && Live(s0, x) && x != o)
  {
    hide Closed, ParentList, TargetsOk, SelvesOk, AllPlaced, EntriesOk, SelfOk, RegisteredAlive;
    OldNames(s0, o);
    FreshHeld(s0, o, starts, es, t, k);
  }

  lemma OldNames(s0: Store, o: Actor)
    requires Tidy(s0) && o in s0.children && Live(s0, o) && o != s0.root
    ensures o.name in s0.registry && s0.registry[o.name] == o && s0.root in s0.children && |s0.root.name| < |o.name|
    ensures forall m {:trigger s0.registry[m]} :: m in s0.registry ==>
      s0.registry[m] in s0.children && s0.registry[m].name == m
  {
    LongerThanRoot(s0, o);
  }

  /** The old references of live actors other than `o` lead where they led. */
  lemma OldPlace(s0: Store, o: Actor, starts: seq<Start>, es: seq<Step>, t: Store, k: nat, x: Actor)
    requires Final(s0, o, starts, es, t, k, k) && x in s0.children && Live(s0, x) && x != s0.root && x != o
    ensures x.parent != null && x.parent in s0.target && x.parent in t.target
    ensures var q := s0.target[x.parent];
      && t.target[x.parent] == q && q != o && q in s0.children && Live(s0, q) && q !in s0.dead
      && q in t.self && t.self[q] == x.parent && q in t.children && Count(s0.target, s0.children[q], x) == 1
  {
    hide Closed, ParentList, EntriesOk, RegisteredAlive;
    assert Placed(s0, x);
    OldKnown(s0, o);
    var q := s0.target[x.parent];
    var c := CountWitness(s0.target, s0.children[q], x);
    assert s0.self[q] == x.parent;
  }

  lemma CountElsewhere(s0: Store, t: Store, o: Actor, n: Actor, cs: seq<ActorRefImpl>, x: Actor)
    requires x != o && x != n && o in s0.self
    requires forall c :: c in cs ==> c in s0.target && c in t.target
    requires forall c :: c in cs && c != s0.self[o] ==> t.target[c] == s0.target[c]
    requires s0.self[o] in cs ==> s0.target[s0.self[o]] == o && t.target[s0.self[o]] == n
    ensures Count(t.target, cs, x) == Count(s0.target, cs, x)
  {
    CountAgree(s0.target, t.target, cs, x);
  }

  /** An entry of another name survives in the parent's list. */
  lemma {:induction false} CountOthers(target: map<ActorRefImpl, Actor>, cs: seq<ActorRefImpl>, m: string, x: Actor)
    ensures Count(target, Others(target, cs, m), x) == if x.name == m then 0 else Count(target, cs, x)
  {
    if cs != [] {
      var rest, c := Others(target, cs[..|cs| - 1], m), cs[|cs| - 1];
      CountOthers(target, cs[..|cs| - 1], m, x);
      assert (rest + [c])[..|rest|] == rest;
    }
  }

  lemma CountSnoc(target: map<ActorRefImpl, Actor>, cs: seq<ActorRefImpl>, c: ActorRefImpl, x: Actor)
    requires c in target
    ensures Count(target, cs + [c], x) == Count(target, cs, x) + if target[c] == x then 1 else 0
  {
    assert (cs + [c])[..|cs|] == cs;
  }

  lemma FinalParentList(s0: Store, o: Actor, starts: seq<Start>, es: seq<Step>, t: Store, k: nat)
    requires Final(s0, o, starts, es, t, k, k)
    ensures o.parent != null && o.parent in s0.target && s0.target[o.parent] in s0.children
    ensures s0.target[o.parent] in t.children
    ensures t.children[s0.target[o.parent]] ==
            Others(s0.target, s0.children[s0.target[o.parent]], o.name) + [starts[k].ref]
  {
    hide Closed, EntriesOk, RegisteredAlive;
    ParentIs(s0, o, starts, es, t);
  }

  /** Entries of live lists are known before and after. */
  lemma EntriesKnown(s0: Store, o: Actor, starts: seq<Start>, es: seq<Step>, t: Store, a: Actor)
    requires Tidy(s0) && a in s0.children && TargetsOk(s0, o, starts, es, t)
    ensures forall c :: c in s0.children[a] ==> c in s0.target && c in t.target && s0.target[c] in s0.children
  {
  }

  lemma DifferentName(s: Store, x: Actor, o: Actor)
    requires Tidy(s) && x in s.children && o in s.children && Live(s, x) && Live(s, o) && x != o
    ensures x.name != o.name
  {
    if x.name == o.name {
      LiveUnique(s, x, o);
    }
  }

  lemma OldCount(s0: Store, o: Actor, starts: seq<Start>, es: seq<Step>, t: Store, k: nat, q: Actor, x: Actor)
    requires Final(s0, o, starts, es, t, k, k) && q in s0.children && Live(s0, q) && q in t.children
    requires x in s0.children && Live(s0, x) && x != s0.root && x != o
    ensures Count(t.target, t.children[q], x) == Count(s0.target, s0.children[q], x)
  {
    hide Closed, EntriesOk, RegisteredAlive, AllPlaced;
    var n, cs := starts[k].next, s0.children[q];
    OldKnown(s0, o);
    EntriesKnown(s0, o, starts, es, t, q);
    assert n !in s0.children;
    FinalParentList(s0, o, starts, es, t, k);
    if q == s0.target[o.parent] {
      var rest := Others(s0.target, cs, o.name);
      OthersIn(s0.target, cs, o.name);
      DifferentName(s0, x, o);
      CountOthers(s0.target, cs, o.name, x);
      CountElsewhere(s0, t, o, n, rest, x);
      CountSnoc(t.target, rest, starts[k].ref, x);
    } else {
      CountElsewhere(s0, t, o, n, cs, x);
    }
  }

  lemma OldPlaced(s0: Store, o: Actor, starts: seq<Start>, es: seq<Step>, t: Store, k: nat, x: Actor)
    requires Final(s0, o, starts, es, t, k, k) && x in s0.children && Live(s0, x) && x != s0.root && x != o
    ensures Placed(t, x)
  {
    hide Closed, AllOf, TargetsOk, SelvesOk, ListsOk;
    OldPlace(s0, o, starts, es, t, k, x);
    var q := s0.target[x.parent];
    LiveAfter(s0, o, starts, es, t, k, q);
    OldCount(s0, o, starts, es, t, k, q, x);
  }

  lemma FreshPlaced(s0: Store, o: Actor, starts: seq<Start>, es: seq<Step>, t: Store, k: nat)
    requires Final(s0, o, starts, es, t, k, k)
    ensures Placed(t, starts[k].next)
  {
    hide Closed, AllPlaced, EntriesOk, SelvesOk, RegisteredAlive;
    var n := starts[k].next;
    ParentIs(s0, o, starts, es, t);
    FinalParentList(s0, o, starts, es, t, k);
    var p := s0.target[o.parent];
    ParentHeld(s0, o, starts, es, t, k);
    LiveAfter(s0, o, starts, es, t, k, p);
    var rest := Others(s0.target, s0.children[p], o.name);
    OthersIn(s0.target, s0.children[p], o.name);
    EntriesKnown(s0, o, starts, es, t, p);
    OldKnown(s0, o);
    forall c | c in rest ensures c in t.target && t.target[c] != n {
      assert c != s0.self[o] && s0.target[c] in s0.children;
    }
    CountNone(t.target, rest, n);
    CountSnoc(t.target, rest, starts[k].ref, n);
  }

  lemma ParentHeld(s0: Store, o: Actor, starts: seq<Start>, es: seq<Step>, t: Store, k: nat)
    requires Final(s0, o, starts, es, t, k, k)
    ensures o.parent != null && o.parent in s0.target
    ensures var p := s0.target[o.parent];
      p in t.children && p !in t.dead && p in t.self && t.self[p] == o.parent
  {
    hide Closed, EntriesOk, SelfOk, RegisteredAlive, TargetsOk;
    assert Placed(s0, o);
  }

  lemma {:induction false} CountNone(target: map<ActorRefImpl, Actor>, cs: seq<ActorRefImpl>, a: Actor)
    requires forall c :: c in cs ==> c in target && target[c] != a
    ensures Count(target, cs, a) == 0
  {
    if cs != [] {
      CountNone(target, cs[..|cs| - 1], a);
    }
  }

  /** An old entry that led to somebody else than `o` is as good as it was. */
  lemma OldEntryOk(s0: Store, o: Actor, starts: seq<Start>, es: seq<Step>, t: Store, k: nat, a: Actor, c: ActorRefImpl)
    requires Final(s0, o, starts, es, t, k, k) && a in s0.children && Live(s0, a)
    requires c in s0.children[a] && c in s0.target && s0.target[c] != o
    ensures c in t.target && EntryOk(t, a, c)
  {
    hide Closed, AllOf, TargetsOk, SelvesOk, ListsOk;
    OldEntry(s0, o, starts, es, t, k, a, c);
    var d := s0.target[c];
    if d !in s0.dead {
      OldPlace(s0, o, starts, es, t, k, d);
      LiveAfter(s0, o, starts, es, t, k, d);
    }
  }

  lemma OldEntry(s0: Store, o: Actor, starts: seq<Start>, es: seq<Step>, t: Store, k: nat, a: Actor, c: ActorRefImpl)
    requires Final(s0, o, starts, es, t, k, k) && a in s0.children && Live(s0, a)
    requires c in s0.children[a] && c in s0.target && s0.target[c] != o
    ensures c in t.target && t.target[c] == s0.target[c] && EntryOk(s0, a, c)
    ensures s0.target[c] in s0.children && s0.target[c] in t.children
  {
    hide AllPlaced, ParentList;
    OldKnown(s0, o);
  }

  lemma EntryOkAfter(s0: Store, o: Actor, starts: seq<Start>, es: seq<Step>, t: Store, k: nat,
                     x: Actor, c: ActorRefImpl)
    requires Final(s0, o, starts, es, t, k, k) && x in t.children && Live(t, x) && c in t.children[x]
    ensures c in t.target && EntryOk(t, x, c)
  {
    hide Closed, AllPlaced, EntriesOk, SelfOk, RegisteredAlive, TargetsOk, SelvesOk, ParentList, EntryOk;
    LiveAfter(s0, o, starts, es, t, k, x);
    FreshHeld(s0, o, starts, es, t, k);
    FinalParentList(s0, o, starts, es, t, k);
    if x != starts[k].next {
      if x == s0.target[o.parent] && c == starts[k].ref {
        FreshEntryOk(s0, o, starts, es, t, k);
      } else {
        OthersIn(s0.target, s0.children[x], o.name);
        NotTheOld(s0, o, x, c);
        OldEntryOk(s0, o, starts, es, t, k, x, c);
      }
    }
  }

  lemma FreshEntryOk(s0: Store, o: Actor, starts: seq<Start>, es: seq<Step>, t: Store, k: nat)
    requires Final(s0, o, starts, es, t, k, k)
    ensures o.parent != null && o.parent in s0.target && starts[k].ref in t.target
    ensures EntryOk(t, s0.target[o.parent], starts[k].ref)
  {
    hide Closed, AllPlaced, EntriesOk, SelfOk, RegisteredAlive, SelvesOk, ParentList;
    ParentIs(s0, o, starts, es, t);
    FreshHeld(s0, o, starts, es, t, k);
    LiveAfter(s0, o, starts, es, t, k, starts[k].next);
    OldNames(s0, o);
    assert starts[k].next !in s0.children;
  }

  /** In a live list, an entry of another name, or in another list than the parent's, does not lead to `o`. */
  lemma NotTheOld(s0: Store, o: Actor, a: Actor, c: ActorRefImpl)
    requires Tidy(s0) && o in s0.children && Live(s0, o) && o != s0.root && a in s0.children && Live(s0, a)
    requires c in s0.children[a] && o.parent != null && o.parent in s0.target
    requires a == s0.target[o.parent] ==> !IsNamed(s0.target, c, o.name)
    ensures c in s0.target && s0.target[c] != o
  {
    assert EntryOk(s0, a, c);
    OldNames(s0, o);
  }

  lemma SelfAfter(s0: Store, o: Actor, starts: seq<Start>, es: seq<Step>, t: Store, k: nat, x: Actor)
    requires Final(s0, o, starts, es, t, k, k) && x in t.children && Live(t, x)
    ensures x in t.self && t.self[x] in t.target && t.target[t.self[x]] == x
  {
    hide Closed, AllPlaced, EntriesOk, RegisteredAlive, ListsOk;
    LiveAfter(s0, o, starts, es, t, k, x);
    if x != starts[k].next {
      OldKnown(s0, o);
      OldKnown(s0, x);
    }
  }

  /** If the instance that registered last also rewired last, the tree is tidy. */
  lemma TidyIf(s0: Store, o: Actor, starts: seq<Start>, es: seq<Step>, t: Store, k: nat)
    requires Final(s0, o, starts, es, t, k, k)
    ensures Tidy(t)
  {
    hide Final, AllOf, Placed, EntryOk, Closed, Live;
    FinalIsClosed(s0, o, starts, es, t, k);
    assert AllPlaced(t) by {
      forall x {:trigger Placed(t, x)} | x in t.children && Live(t, x) && x != t.root ensures Placed(t, x) {
        LiveAfter(s0, o, starts, es, t, k, x);
        if x == starts[k].next {
          FreshPlaced(s0, o, starts, es, t, k);
        } else {
          OldPlaced(s0, o, starts, es, t, k, x);
        }
      }
    }
    assert EntriesOk(t) by {
      forall x, c {:trigger c in t.children[x]} | x in t.children && Live(t, x) && c in t.children[x]
        ensures c in t.target && EntryOk(t, x, c)
      {
        EntryOkAfter(s0, o, starts, es, t, k, x, c);
      }
    }
    SelvesAfter(s0, o, starts, es, t, k);
  }

  lemma SelvesAfter(s0: Store, o: Actor, starts: seq<Start>, es: seq<Step>, t: Store, k: nat)
    requires Final(s0, o, starts, es, t, k, k)
    ensures SelfOk(t)
  {
    forall x {:trigger t.self[x]} | x in t.children && Live(t, x)
      ensures x in t.self && t.self[x] in t.target && t.target[t.self[x]] == x
    {
      SelfAfter(s0, o, starts, es, t, k, x);
    }
  }

  lemma FinalIsClosed(s0: Store, o: Actor, starts: seq<Start>, es: seq<Step>, t: Store, k: nat)
    requires Final(s0, o, starts, es, t, k, k)
    ensures Closed(t) && RegisteredAlive(t) && t.root == s0.root && k < |starts|
  {
    hide AllPlaced, EntriesOk, SelfOk;
    assert starts[k].next !in s0.children;
  }

  /**
   However many restarts of a childless actor overlap, and in whatever order their steps come: the tree is
   tidy again if and only if the instance that registered last also rewired last.
   */
  lemma OverlapIsTidyIff(s0: Store, o: Actor, starts: seq<Start>, es: seq<Step>, t: Store)
    requires AllOf(s0, o, starts) && starts != []
    requires Legal(|starts|, {}, {}, es) && Runs(starts, StartedFrom(s0, starts), es, t)
    ensures Grows(s0) && PostOrder(s0, o) == [o]
    ensures Tidy(t) <==> LastToRegister(es) == LastToRewire(es)
  {
    hide *;
    ReachesItself(s0, o, starts);
    RunsFinal(s0, o, starts, es, t);
    var j, k := LastToRegister(es).value, LastToRewire(es).value;
    if Tidy(t) {
      TidyOnlyIf(s0, o, starts, es, t, j, k);
    }
    if j == k {
      TidyIf(s0, o, starts, es, t, k);
    }
  }
}
