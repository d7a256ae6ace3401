/**
 The supervised actor tree: actors, the references handed to users, and the system's registry.
 */
module ActorTree {
  import opened Paths

  datatype Option<+T> = None | Some(value: T)

  datatype Strategy = Restart | Resume | Shutdown

  /** What the creator of an actor asked for; an empty name stands for none. */
  datatype ActorOptions = ActorOptions(name: string, parent: ActorRefImpl?, strategy: Option<Strategy>)

  /**
   The whole mutable hierarchy as a value: what the registry, every actor's fields and every
   reference's `actor` field hold.
   */
  datatype Store = Store(
    root: Actor,
    registry: map<string, Actor>,
    children: map<Actor, seq<ActorRefImpl>>,
    target: map<ActorRefImpl, Actor>,
    self: map<Actor, ActorRefImpl>,
    dead: set<Actor>)

  /** Every entry of a child list leads to an actor with a longer name: following entries terminates. */
  ghost predicate Grows(s: Store) {
    forall a, c {:trigger c in s.children[a]} :: a in s.children && c in s.children[a] ==>
      c in s.target && s.target[c] in s.children && |a.name| < |s.target[c].name|
  }

  ghost predicate RefsKnown(s: Store) {
    forall r {:trigger s.target[r]} :: r in s.target ==> s.target[r] in s.children
  }

  ghost predicate SelfKnown(s: Store) {
    && (forall a {:trigger a in s.self} :: a in s.children ==> a in s.self)
    && (forall a {:trigger a in s.self} :: a in s.self ==> a in s.children)
    && (forall a {:trigger s.self[a]} :: a in s.self ==>
      s.self[a] in s.target && s.target[s.self[a]].name == a.name)
  }

  ghost predicate EntriesBelow(s: Store) {
    forall a, c {:trigger c in s.children[a]} :: a in s.children && c in s.children[a] ==>
      c in s.target && Below(a.name, s.target[c].name)
  }

  ghost predicate ParentsAbove(s: Store) {
    forall a {:trigger a.parent} :: a in s.children && a != s.root ==>
      a.parent != null && a.parent in s.target && Below(s.target[a.parent].name, a.name)
  }

  ghost predicate RegistryKnown(s: Store) {
    forall n {:trigger s.registry[n]} :: n in s.registry ==>
      s.registry[n] in s.children && s.registry[n].name == n && s.registry[n] != s.root
  }

  /** No dangling references, and names follow the hierarchy. Holds in every state, mid-restart included. */
  ghost predicate Closed(s: Store) {
    && s.root in s.children && s.root.parent == null
    && RefsKnown(s) && SelfKnown(s) && EntriesBelow(s) && ParentsAbove(s) && RegistryKnown(s)
    && s.dead <= s.children.Keys
    && s.target[s.self[s.root]] == s.root
  }

  ghost predicate SelfSized(s: Store) {
    && (forall a {:trigger a in s.self} :: a in s.children ==> a in s.self)
    && (forall a {:trigger a in s.self} :: a in s.self ==> a in s.children)
    && (forall a {:trigger s.self[a]} :: a in s.self ==>
      s.self[a] in s.target && |s.target[s.self[a]].name| == |a.name|)
  }

  ghost predicate ParentsShorter(s: Store) {
    forall a {:trigger a.parent} :: a in s.children && a != s.root ==>
      a.parent != null && a.parent in s.target && |s.target[a.parent].name| < |a.name|
  }

  /**
   No dangling references, and names grow down the hierarchy. Holds in every state of every interleaving,
   whatever names restarted actors come back under.
   */
  ghost predicate Wired(s: Store) {
    && s.root in s.children && s.root.parent == null
    && RefsKnown(s) && SelfSized(s) && Grows(s) && ParentsShorter(s) && RegistryKnown(s)
    && s.dead <= s.children.Keys
    && s.target[s.self[s.root]] == s.root
  }

  lemma ClosedIsWired(s: Store)
    requires Closed(s)
    ensures Wired(s)
  {
  }

  /** A new system: the system actor and nothing else. */
  ghost function Alone(root: Actor, ref: ActorRefImpl): Store {
    Store(root, map[], map[root := []], map[ref := root], map[root := ref], {})
  }

  lemma AloneIsClosed(root: Actor, ref: ActorRefImpl)
    requires root.parent == null
    ensures Closed(Alone(root, ref))
  {
  }

  /** The reference that `getActorRef` finds. */
  ghost function LookedUp(s: Store, name: string): Option<ActorRefImpl>
    requires Wired(s)
  {
    if name == s.root.name then Some(s.self[s.root])
    else if name in s.registry then Some(s.self[s.registry[name]])
    else None
  }

  // ---- Child lists ------------------------------------------------------------------------

  predicate IsNamed(target: map<ActorRefImpl, Actor>, c: ActorRefImpl, m: string) {
    c in target && target[c].name == m
  }

  /** The entries called `m`, in order. */
  function Named(target: map<ActorRefImpl, Actor>, cs: seq<ActorRefImpl>, m: string): seq<ActorRefImpl> {
    if cs == [] then []
    else
      var rest := Named(target, cs[..|cs| - 1], m);
      if IsNamed(target, cs[|cs| - 1], m) then rest + [cs[|cs| - 1]] else rest
  }

  /** The entries not called `m`, in order. */
  function Others(target: map<ActorRefImpl, Actor>, cs: seq<ActorRefImpl>, m: string): seq<ActorRefImpl> {
    if cs == [] then []
    else
      var rest := Others(target, cs[..|cs| - 1], m);
      if IsNamed(target, cs[|cs| - 1], m) then rest else rest + [cs[|cs| - 1]]
  }

  /** All entries called `m` replaced by one `f` at the end; unchanged when there is none. */
  function Collapse(target: map<ActorRefImpl, Actor>, cs: seq<ActorRefImpl>, m: string,
                    f: ActorRefImpl): seq<ActorRefImpl> {
    if Named(target, cs, m) == [] then cs else Others(target, cs, m) + [f]
  }

  /** How many entries dereference to `a`. */
  function Count(target: map<ActorRefImpl, Actor>, cs: seq<ActorRefImpl>, a: Actor): nat {
    if cs == [] then 0
    else
      Count(target, cs[..|cs| - 1], a)
      + if cs[|cs| - 1] in target && target[cs[|cs| - 1]] == a then 1 else 0
  }

  lemma {:induction false} CountWitness(target: map<ActorRefImpl, Actor>, cs: seq<ActorRefImpl>, a: Actor)
    returns (c: ActorRefImpl)
    requires Count(target, cs, a) > 0
    ensures c in cs && c in target && target[c] == a
  {
    if cs[|cs| - 1] in target && target[cs[|cs| - 1]] == a {
      c := cs[|cs| - 1];
    } else {
      c := CountWitness(target, cs[..|cs| - 1], a);
      assert cs == cs[..|cs| - 1] + [cs[|cs| - 1]];
    }
  }

  lemma {:induction false} CountNamed(target: map<ActorRefImpl, Actor>, cs: seq<ActorRefImpl>, a: Actor)
    ensures Count(target, Named(target, cs, a.name), a) == Count(target, cs, a)
  {
    if cs != [] {
      var rest := Named(target, cs[..|cs| - 1], a.name);
      CountNamed(target, cs[..|cs| - 1], a);
      assert (rest + [cs[|cs| - 1]])[..|rest|] == rest;
    }
  }

  lemma {:induction false} CountAgree(t1: map<ActorRefImpl, Actor>, t2: map<ActorRefImpl, Actor>,
                                      cs: seq<ActorRefImpl>, a: Actor)
    requires forall c :: c in cs ==> c in t1 && c in t2 && (t1[c] == a <==> t2[c] == a)
    ensures Count(t1, cs, a) == Count(t2, cs, a)
  {
    if cs != [] {
      CountAgree(t1, t2, cs[..|cs| - 1], a);
    }
  }

  /** How often an entry occurs can be read off the entries with its name. */
  lemma {:induction false} Occurrences(target: map<ActorRefImpl, Actor>, cs: seq<ActorRefImpl>, c: ActorRefImpl)
    requires c in target
    ensures multiset(Named(target, cs, target[c].name))[c] == multiset(cs)[c]
  {
    if cs != [] {
      Occurrences(target, cs[..|cs| - 1], c);
      assert cs == cs[..|cs| - 1] + [cs[|cs| - 1]];
    }
  }

  lemma NamedSnoc(target: map<ActorRefImpl, Actor>, cs: seq<ActorRefImpl>, c: ActorRefImpl, m: string)
    ensures Named(target, cs + [c], m) == Named(target, cs, m) + if IsNamed(target, c, m) then [c] else []
  {
    assert (cs + [c])[..|cs|] == cs;
  }

  lemma FirstIn(cs: seq<ActorRefImpl>)
    ensures cs == [] || cs[0] in cs
  {
  }

  lemma {:induction false} NamedIn(target: map<ActorRefImpl, Actor>, cs: seq<ActorRefImpl>, m: string)
    ensures forall c :: c in Named(target, cs, m) ==> c in cs && IsNamed(target, c, m)
    ensures forall c :: c in cs && IsNamed(target, c, m) ==> c in Named(target, cs, m)
  {
    if cs != [] {
      NamedIn(target, cs[..|cs| - 1], m);
      assert cs == cs[..|cs| - 1] + [cs[|cs| - 1]];
    }
  }

  lemma {:induction false} OthersIn(target: map<ActorRefImpl, Actor>, cs: seq<ActorRefImpl>, m: string)
    ensures forall c :: c in Others(target, cs, m) ==> c in cs && !IsNamed(target, c, m)
    ensures forall c :: c in cs && !IsNamed(target, c, m) ==> c in Others(target, cs, m)
  {
    if cs != [] {
      OthersIn(target, cs[..|cs| - 1], m);
      assert cs == cs[..|cs| - 1] + [cs[|cs| - 1]];
    }
  }

  lemma CollapseIn(target: map<ActorRefImpl, Actor>, cs: seq<ActorRefImpl>, m: string, f: ActorRefImpl)
    ensures forall c :: c in Collapse(target, cs, m, f) ==> c in cs || (c == f && Named(target, cs, m) != [])
    ensures forall c :: c in cs && !IsNamed(target, c, m) ==> c in Collapse(target, cs, m, f)
  {
    OthersIn(target, cs, m);
    if Named(target, cs, m) != [] {
      forall c | c in Collapse(target, cs, m, f) ensures c in cs || c == f {
        var others := Others(target, cs, m);
        assert Collapse(target, cs, m, f) == others + [f];
        if c in others {
          assert c in cs;
        }
      }
    }
  }

  /** Only the names of the entries matter. */
  lemma {:induction false} NamedSameNames(t1: map<ActorRefImpl, Actor>, t2: map<ActorRefImpl, Actor>,
                                        cs: seq<ActorRefImpl>, m: string)
    requires forall c :: c in cs ==> c in t1 && c in t2 && t1[c].name == t2[c].name
    ensures Named(t1, cs, m) == Named(t2, cs, m)
  {
    if cs != [] {
      NamedSameNames(t1, t2, cs[..|cs| - 1], m);
    }
  }

  lemma {:induction false} NamedOfOthers(target: map<ActorRefImpl, Actor>, cs: seq<ActorRefImpl>, m: string, k: string)
    ensures Named(target, Others(target, cs, m), k) == if k == m then [] else Named(target, cs, k)
  {
    if cs != [] {
      var c := cs[|cs| - 1];
      NamedOfOthers(target, cs[..|cs| - 1], m, k);
      NamedSnoc(target, Others(target, cs[..|cs| - 1], m), c, k);
    }
  }

  /** What collapsing means for each name. */
  lemma CollapseNamed(target: map<ActorRefImpl, Actor>, cs: seq<ActorRefImpl>, m: string, f: ActorRefImpl, k: string)
    requires IsNamed(target, f, m)
    ensures Named(target, Collapse(target, cs, m, f), k) ==
            if k != m then Named(target, cs, k) else if Named(target, cs, m) == [] then [] else [f]
  {
    NamedOfOthers(target, cs, m, k);
    NamedSnoc(target, Others(target, cs, m), f, k);
  }

  lemma {:induction false} OthersSame(target: map<ActorRefImpl, Actor>, cs: seq<ActorRefImpl>, m: string)
    requires Named(target, cs, m) == []
    ensures Others(target, cs, m) == cs
  {
    if cs != [] {
      OthersSame(target, cs[..|cs| - 1], m);
    }
  }

  /** Collapsing a list again by the same new entry, whatever that is called, changes nothing. */
  lemma CollapseTwice(target: map<ActorRefImpl, Actor>, cs: seq<ActorRefImpl>, m: string, f: ActorRefImpl)
    ensures Collapse(target, Collapse(target, cs, m, f), m, f) == Collapse(target, cs, m, f)
  {
    if Named(target, cs, m) != [] {
      var rest := Others(target, cs, m);
      NamedSnoc(target, rest, f, m);
      NamedOfOthers(target, cs, m, m);
      OthersSame(target, rest, m);
      assert (rest + [f])[..|rest|] == rest;
    }
  }

  // ---- The traversal behind updateChildren ---------------------------------------------------

  ghost function NotShorter(s: Store, a: Actor): set<Actor> {
    set b | b in s.children && |b.name| >= |a.name|
  }

  lemma NotShorterDrops(s: Store, si: Store, a: Actor, c: ActorRefImpl)
    requires Grows(s) && a in s.children && c in s.children[a] && si.children.Keys == s.children.Keys
    ensures NotShorter(si, s.target[c]) < NotShorter(s, a)
  {
    assert a in NotShorter(s, a);
  }

  /** `f` may take the place of entries called `m` without an entry leading to a shorter name. */
  ghost predicate CanUpdate(s: Store, m: string, f: ActorRefImpl) {
    Grows(s) && f in s.target && s.target[f] in s.children && |m| <= |s.target[f].name|
  }

  ghost predicate SameActors(s: Store, r: Store) {
    r.children.Keys == s.children.Keys && r == s.(children := r.children)
  }

  ghost function CollapseAt(s: Store, a: Actor, m: string, f: ActorRefImpl): (r: Store)
    requires CanUpdate(s, m, f) && a in s.children
    ensures SameActors(s, r) && CanUpdate(r, m, f)
  {
    CollapseIn(s.target, s.children[a], m, f);
    if Named(s.target, s.children[a], m) != [] then
      NamedIn(s.target, s.children[a], m);
      FirstIn(Named(s.target, s.children[a], m));
      s.(children := s.children[a := Collapse(s.target, s.children[a], m, f)])
    else s.(children := s.children[a := Collapse(s.target, s.children[a], m, f)])
  }

  /** `updateChildren` on `a`: its own list first, then, one after the other, the actors behind the other entries. */
  ghost function UpdateTree(s: Store, a: Actor, m: string, f: ActorRefImpl): (r: Store)
    requires CanUpdate(s, m, f) && a in s.children
    ensures SameActors(s, r) && CanUpdate(r, m, f)
    decreases NotShorter(s, a), 1, 0
  {
    OthersIn(s.target, s.children[a], m);
    UpdateList(CollapseAt(s, a, m, f), a, Others(s.target, s.children[a], m), m, f)
  }

  /** The entries lead to actors with longer names. */
  ghost predicate Onward(s: Store, a: Actor, cs: seq<ActorRefImpl>) {
    forall c :: c in cs ==> c in s.target && s.target[c] in s.children && |a.name| < |s.target[c].name|
  }

  lemma InView(system: ActorSystem, a: Actor)
    requires a in system.instances
    ensures a in system.View().children
  {
  }

  lemma UpdateBegins(s: Store, a: Actor, m: string, f: ActorRefImpl)
    requires CanUpdate(s, m, f) && a in s.children
    ensures var s1, cs := CollapseAt(s, a, m, f), Others(s.target, s.children[a], m);
      && CanUpdate(s1, m, f) && SameActors(s, s1) && NotShorter(s1, a) == NotShorter(s, a)
      && Onward(s1, a, cs) && UpdateTree(s, a, m, f) == UpdateList(s1, a, cs, m, f)
  {
    OthersIn(s.target, s.children[a], m);
  }

  lemma UpdateNone(s: Store, a: Actor, m: string, f: ActorRefImpl)
    requires CanUpdate(s, m, f) && a in s.children
    ensures Onward(s, a, []) && UpdateList(s, a, [], m, f) == s
  {
  }

  lemma OnwardPrefix(s: Store, a: Actor, cs: seq<ActorRefImpl>, i: nat)
    requires Onward(s, a, cs) && i <= |cs|
    ensures Onward(s, a, cs[..i])
  {
  }

  ghost function UpdateList(s: Store, a: Actor, cs: seq<ActorRefImpl>, m: string, f: ActorRefImpl): (r: Store)
    requires CanUpdate(s, m, f) && a in s.children && Onward(s, a, cs)
    ensures SameActors(s, r) && CanUpdate(r, m, f)
    decreases NotShorter(s, a), 0, |cs|
  {
    if cs == [] then s
    else
      var s' := UpdateList(s, a, cs[..|cs| - 1], m, f);
      assert cs[|cs| - 1] in cs && a in NotShorter(s, a) && a !in NotShorter(s', s.target[cs[|cs| - 1]]);
      UpdateTree(s', s.target[cs[|cs| - 1]], m, f)
  }

  /** The traversal from `a` that does not descend into entries called `m` comes by `v`. */
  ghost predicate Visits(s: Store, a: Actor, m: string, v: Actor)
    requires Grows(s) && a in s.children
    decreases NotShorter(s, a)
  {
    v == a || exists c :: c in s.children[a] && VisitsVia(s, a, c, m, v)
  }

  ghost predicate VisitsVia(s: Store, a: Actor, c: ActorRefImpl, m: string, v: Actor)
    requires Grows(s) && a in s.children && c in s.children[a]
    decreases NotShorter(s, a), 0
  {
    assert a in NotShorter(s, a) && a !in NotShorter(s, s.target[c]);
    s.target[c].name != m && Visits(s, s.target[c], m, v)
  }

  /** Every actor the traversal comes by has its entries called `m` collapsed into `f`. */
  ghost function Traverse(s: Store, a: Actor, m: string, f: ActorRefImpl): Store
    requires Grows(s) && a in s.children
  {
    s.(children := map v | v in s.children ::
      if Visits(s, a, m, v) then Collapse(s.target, s.children[v], m, f) else s.children[v])
  }

  lemma {:induction false} VisitsStep(s: Store, x: Actor, m: string, y: Actor, c: ActorRefImpl)
    requires Grows(s) && x in s.children && y in s.children && Visits(s, x, m, y)
    requires c in s.children[y] && s.target[c].name != m
    ensures Visits(s, x, m, s.target[c])
    decreases NotShorter(s, x)
  {
    if x == y {
      assert VisitsVia(s, x, c, m, s.target[c]);
    } else {
      var d :| d in s.children[x] && VisitsVia(s, x, d, m, y);
      assert x in NotShorter(s, x) && x !in NotShorter(s, s.target[d]);
      VisitsStep(s, s.target[d], m, y, c);
      assert VisitsVia(s, x, d, m, s.target[c]);
    }
  }

  /** Lists of actors whose names are no shorter than `m` have no entry called `m`. */
  lemma LongListsStay(s: Store, v: Actor, m: string, f: ActorRefImpl)
    requires Grows(s) && v in s.children && |v.name| >= |m|
    ensures Named(s.target, s.children[v], m) == [] && Collapse(s.target, s.children[v], m, f) == s.children[v]
  {
    NamedIn(s.target, s.children[v], m);
    FirstIn(Named(s.target, s.children[v], m));
  }

  lemma {:induction false} VisitsLonger(s: Store, a: Actor, m: string, v: Actor)
    requires Grows(s) && a in s.children && Visits(s, a, m, v)
    ensures v in s.children && |a.name| <= |v.name|
    decreases NotShorter(s, a)
  {
    if v != a {
      var c :| c in s.children[a] && VisitsVia(s, a, c, m, v);
      NotShorterDrops(s, s, a, c);
      VisitsLonger(s, s.target[c], m, v);
    }
  }

  /** Some lists of `s0` have been collapsed, and nothing else has changed. */
  ghost predicate Marked(s0: Store, s: Store, m: string, f: ActorRefImpl) {
    && CanUpdate(s0, m, f) && CanUpdate(s, m, f) && SameActors(s0, s)
    && forall v {:trigger s.children[v]} :: v in s0.children ==>
      s.children[v] == s0.children[v] || s.children[v] == Collapse(s0.target, s0.children[v], m, f)
  }

  /** Some entry leads to where the traversal of `s0` comes by `v`. */
  ghost predicate VisitsSome(s0: Store, cs: seq<ActorRefImpl>, m: string, v: Actor)
    requires Grows(s0)
  {
    exists c :: c in cs && c in s0.target && s0.target[c] in s0.children && Visits(s0, s0.target[c], m, v)
  }

  lemma VisitsSomePush(s0: Store, cs: seq<ActorRefImpl>, c: ActorRefImpl, m: string, v: Actor)
    requires Grows(s0) && c in s0.target && s0.target[c] in s0.children
    ensures VisitsSome(s0, cs + [c], m, v) <==> VisitsSome(s0, cs, m, v) || Visits(s0, s0.target[c], m, v)
  {
    if Visits(s0, s0.target[c], m, v) {
      assert c in cs + [c];
    }
    if VisitsSome(s0, cs, m, v) {
      var d :| d in cs && d in s0.target && s0.target[d] in s0.children && Visits(s0, s0.target[d], m, v);
      assert d in cs + [c];
    }
  }

  lemma NoneVisited(s0: Store, m: string)
    requires Grows(s0)
    ensures forall v :: !VisitsSome(s0, [], m, v)
  {
  }

  /** The first step of the traversal: `a` is marked, and the rest starts from its old entries, and perhaps from `f`. */
  lemma MarkOwn(s0: Store, s: Store, a: Actor, m: string, f: ActorRefImpl)
    requires Marked(s0, s, m, f) && a in s0.children
    ensures Marked(s0, CollapseAt(s, a, m, f), m, f)
    ensures CollapseAt(s, a, m, f).children[a] == Collapse(s0.target, s0.children[a], m, f)
    ensures forall c :: c in s0.children[a] && !IsNamed(s0.target, c, m) ==> c in Others(s.target, s.children[a], m)
    ensures forall c :: c in Others(s.target, s.children[a], m) ==>
      c == f || (c in s0.children[a] && !IsNamed(s0.target, c, m))
  {
    hide Named, Others, CanUpdate;
    var cs := s0.children[a];
    CollapseTwice(s0.target, cs, m, f);
    CollapseIn(s0.target, cs, m, f);
    OthersIn(s.target, s.children[a], m);
  }

  /** From `a`, whatever has been marked before, exactly the actors that the traversal of `s0` visits get marked. */
  lemma {:induction false} UpdateMarks(s0: Store, s: Store, a: Actor, m: string, f: ActorRefImpl)
    requires Marked(s0, s, m, f) && a in s0.children
    ensures var r := UpdateTree(s, a, m, f);
      && Marked(s0, r, m, f)
      && forall v {:trigger r.children[v]} :: v in s0.children ==>
        r.children[v] == if Visits(s0, a, m, v) then Collapse(s0.target, s0.children[v], m, f) else s.children[v]
    decreases NotShorter(s0, a), 1, 0
  {
    hide Visits, Collapse, Others, UpdateTree, UpdateList, CollapseAt;
    var s1, cs := CollapseAt(s, a, m, f), Others(s.target, s.children[a], m);
    MarkOwn(s0, s, a, m, f);
    UpdateBegins(s, a, m, f);
    UpdateListMarks(s0, s1, a, cs, m, f);
    var r := UpdateTree(s, a, m, f);
    forall v {:trigger r.children[v]} | v in s0.children
      ensures r.children[v] == if Visits(s0, a, m, v) then Collapse(s0.target, s0.children[v], m, f) else s.children[v]
    {
      FromEntries(s0, s, a, cs, m, f, v);
      OtherListsKept(s, a, m, f, v);
    }
  }

  lemma OtherListsKept(s: Store, a: Actor, m: string, f: ActorRefImpl, v: Actor)
    requires CanUpdate(s, m, f) && a in s.children && v in s.children
    ensures v != a ==> CollapseAt(s, a, m, f).children[v] == s.children[v]
  {
  }

  /** Entering `f` as well changes nothing: the lists from there on have no entry called `m`. */
  lemma FromEntries(s0: Store, s: Store, a: Actor, cs: seq<ActorRefImpl>, m: string, f: ActorRefImpl, v: Actor)
    requires Marked(s0, s, m, f) && a in s0.children && v in s0.children
    requires forall c :: c in s0.children[a] && !IsNamed(s0.target, c, m) ==> c in cs
    requires forall c :: c in cs ==> c == f || (c in s0.children[a] && !IsNamed(s0.target, c, m))
    ensures v == a ==> Visits(s0, a, m, v)
    ensures Visits(s0, a, m, v) ==> v == a || VisitsSome(s0, cs, m, v)
    ensures VisitsSome(s0, cs, m, v) ==>
      Visits(s0, a, m, v) || s.children[v] == s0.children[v] == Collapse(s0.target, s0.children[v], m, f)
  {
    hide Collapse, Named;
    if Visits(s0, a, m, v) && v != a {
      var c :| c in s0.children[a] && VisitsVia(s0, a, c, m, v);
      assert c in cs;
    }
    if VisitsSome(s0, cs, m, v) {
      var c :| c in cs && c in s0.target && s0.target[c] in s0.children && Visits(s0, s0.target[c], m, v);
      if c in s0.children[a] && !IsNamed(s0.target, c, m) {
        assert VisitsVia(s0, a, c, m, v);
      } else {
        VisitsLonger(s0, s0.target[f], m, v);
        LongListsStay(s0, v, m, f);
      }
    }
  }

  lemma {:induction false} UpdateListMarks(s0: Store, s: Store, a: Actor, cs: seq<ActorRefImpl>, m: string,
                                           f: ActorRefImpl)
    requires Marked(s0, s, m, f) && a in s0.children && Onward(s, a, cs)
    ensures var r := UpdateList(s, a, cs, m, f);
      && Marked(s0, r, m, f)
      && forall v {:trigger r.children[v]} :: v in s0.children ==>
        r.children[v] == if VisitsSome(s0, cs, m, v) then Collapse(s0.target, s0.children[v], m, f) else s.children[v]
    decreases NotShorter(s0, a), 0, |cs|
  {
    hide Visits, VisitsSome, Collapse, UpdateTree, Grows;
    if cs == [] {
      NoneVisited(s0, m);
    } else {
      var before, c := cs[..|cs| - 1], cs[|cs| - 1];
      assert cs == before + [c];
      UpdateListMarks(s0, s, a, before, m, f);
      var s' := UpdateList(s, a, before, m, f);
      assert c in cs && a in NotShorter(s0, a) && a !in NotShorter(s0, s0.target[c]);
      UpdateMarks(s0, s', s0.target[c], m, f);
      forall v | v in s0.children
        ensures VisitsSome(s0, cs, m, v) <==> VisitsSome(s0, before, m, v) || Visits(s0, s0.target[c], m, v)
      {
        VisitsSomePush(s0, before, c, m, v);
      }
    }
  }

  /**
   Whatever the new entry is called, and however often an actor is come by: exactly the lists of the
   actors on the traversal are collapsed, each once.
   */
  lemma UpdateIsTraverse(s: Store, a: Actor, m: string, f: ActorRefImpl)
    requires CanUpdate(s, m, f) && a in s.children
    ensures UpdateTree(s, a, m, f) == Traverse(s, a, m, f)
  {
    hide Visits, Collapse;
    UpdateMarks(s, s, a, m, f);
  }

  // ---- The atomic steps between two awaits ----------------------------------------------------

  /** createActor up to its first await: a new instance `n` with its own reference `f`. */
  ghost function Instantiate(s: Store, n: Actor, f: ActorRefImpl): Store {
    s.(children := s.children[n := []], self := s.self[n := f], target := s.target[f := n])
  }

  ghost predicate CanRegister(s: Store, n: Actor) {
    n in s.children && n in s.self && n.parent != null && n.parent in s.target && s.target[n.parent] in s.children
  }

  /** createActor after beforeStart: the registry entry and the entry in the parent's list. */
  ghost function Register(s: Store, n: Actor): Store
    requires CanRegister(s, n)
  {
    var p := s.target[n.parent];
    s.(registry := s.registry[n.name := n], children := s.children[p := s.children[p] + [s.self[n]]])
  }

  /** restart after createActor: `n` takes over the reference and the children of `o`. */
  ghost function Taken(s: Store, o: Actor, n: Actor): (s1: Store)
    requires Grows(s) && o in s.children && n in s.children && o in s.self && |n.name| == |o.name|
    ensures Grows(s1)
  {
    s.(self := s.self[n := s.self[o]], children := s.children[n := s.children[o]])
  }

  /** Generated names are all of one length, so whatever name a fresh instance gets, it has the old one's length. */
  ghost predicate CanReplace(s: Store, o: Actor, f: ActorRefImpl) {
    && Grows(s) && s.root in s.children && o in s.children && o in s.self && s.self[o] in s.target
    && f in s.target && s.target[f] in s.children
    && |s.target[f].name| == |o.name| == |s.target[s.self[o]].name|
  }

  /**
   restart of `o` after createActor returned `f`, whatever the fresh instance is called and whoever holds
   the reference of `o` by now.
   */
  ghost function RewireTree(s: Store, o: Actor, f: ActorRefImpl): Store
    requires CanReplace(s, o, f)
  {
    var n := s.target[f];
    var s2 := UpdateTree(Taken(s, o, n), s.root, s.target[s.self[o]].name, f);
    s2.(target := s2.target[s.self[o] := n], children := s2.children[o := []])
  }

  lemma TakenCanUpdate(s: Store, o: Actor, f: ActorRefImpl)
    requires CanReplace(s, o, f)
    ensures CanUpdate(Taken(s, o, s.target[f]), s.target[s.self[o]].name, f)
  {
  }

  /** Every list after the restart: on the traversal the entries of the old name give way to `f`, the others stay. */
  lemma RewireTreeLists(s: Store, o: Actor, f: ActorRefImpl, v: Actor)
    requires CanReplace(s, o, f) && v in s.children
    ensures v in RewireTree(s, o, f).children
    ensures var s1, m := Taken(s, o, s.target[f]), s.target[s.self[o]].name;
      RewireTree(s, o, f).children[v] ==
        if v == o then []
        else if Visits(s1, s.root, m, v) then Collapse(s.target, s1.children[v], m, f)
        else s1.children[v]
  {
    hide Visits, Collapse, UpdateTree;
    UpdateIsTraverse(Taken(s, o, s.target[f]), s.root, s.target[s.self[o]].name, f);
  }

  /** Whatever it is called, the fresh instance gets the old one's list as it was, and the old one lets go of it. */
  lemma FreshTakesChildren(s: Store, o: Actor, f: ActorRefImpl)
    requires CanReplace(s, o, f) && s.target[f] != o
    ensures var t, n := RewireTree(s, o, f), s.target[f];
      n in t.children && t.children[n] == s.children[o] && o in t.children && t.children[o] == []
  {
    hide Visits, UpdateTree;
    RewireTreeLists(s, o, f, s.target[f]);
    LongListsStay(Taken(s, o, s.target[f]), s.target[f], s.target[s.self[o]].name, f);
  }

  /** The fresh instance `n` has the old name. */
  ghost predicate CanTakeOver(s: Store, o: Actor, n: Actor) {
    && Grows(s) && s.root in s.children && o in s.children && n in s.children && o != n
    && o in s.self && n in s.self && s.self[o] in s.target && s.self[n] in s.target && s.self[o] != s.self[n]
    && s.target[s.self[n]] == n && n.name == o.name == s.target[s.self[o]].name
  }

  /** The same with a fresh instance of the old name. */
  ghost function Rewire(s: Store, o: Actor, n: Actor): Store
    requires CanTakeOver(s, o, n)
  {
    var s1 := Taken(s, o, n);
    var s2 := Traverse(s1, s.root, o.name, s.self[n]);
    s2.(target := s2.target[s.self[o] := n], children := s2.children[o := []])
  }

  lemma RewireTreeIsRewire(s: Store, o: Actor, n: Actor)
    requires CanTakeOver(s, o, n)
    ensures CanReplace(s, o, s.self[n]) && RewireTree(s, o, s.self[n]) == Rewire(s, o, n)
  {
    UpdateIsTraverse(Taken(s, o, n), s.root, o.name, s.self[n]);
  }

  ghost predicate CanFinish(s: Store, a: Actor) {
    && a in s.children && a in s.self && s.self[a] in s.target
    && (a.parent != null ==> a.parent in s.target && s.target[a.parent] in s.children)
  }

  /** shutdown after its children are down: what leaves the registry is the name behind the actor's reference. */
  ghost function Finish(s: Store, a: Actor): Store
    requires CanFinish(s, a)
  {
    var s1 := s.(dead := s.dead + {a}, registry := s.registry - {s.target[s.self[a]].name});
    if a.parent == null then s1
    else
      var p := s.target[a.parent];
      s1.(children := s1.children[p := Without(s1.children[p], s.self[a])])
  }

  /** `removeChild`: the entries that are not this very reference. */
  function Without(cs: seq<ActorRefImpl>, r: ActorRefImpl): seq<ActorRefImpl> {
    if cs == [] then []
    else
      var rest := Without(cs[..|cs| - 1], r);
      if cs[|cs| - 1] == r then rest else rest + [cs[|cs| - 1]]
  }

  lemma {:induction false} WithoutIn(cs: seq<ActorRefImpl>, r: ActorRefImpl)
    ensures forall c :: c in Without(cs, r) ==> c in cs && c != r
    ensures forall c :: c in cs && c != r ==> c in Without(cs, r)
  {
    if cs != [] {
      WithoutIn(cs[..|cs| - 1], r);
      assert cs == cs[..|cs| - 1] + [cs[|cs| - 1]];
    }
  }

  lemma {:induction false} WithoutConcat(xs: seq<ActorRefImpl>, ys: seq<ActorRefImpl>, r: ActorRefImpl)
    ensures Without(xs + ys, r) == Without(xs, r) + Without(ys, r)
  {
    if ys == [] {
      assert xs + ys == xs;
    } else {
      WithoutConcat(xs, ys[..|ys| - 1], r);
      assert (xs + ys)[..|xs + ys| - 1] == xs + ys[..|ys| - 1];
    }
  }

  lemma {:induction false} WithoutCounts(cs: seq<ActorRefImpl>, r: ActorRefImpl)
    ensures multiset(Without(cs, r)) == multiset(cs)[r := 0]
  {
    if cs != [] {
      WithoutCounts(cs[..|cs| - 1], r);
      assert cs == cs[..|cs| - 1] + [cs[|cs| - 1]];
    }
  }

  /**
   In any state, renamed and replaced actors included: the parent's current list loses the actor's own
   reference, nothing else and not the order of the rest; every other list stays as it is.
   */
  lemma FinishLists(s: Store, a: Actor, x: Actor)
    requires CanFinish(s, a) && x in s.children
    ensures x in Finish(s, a).children
    ensures var before, after := s.children[x], Finish(s, a).children[x];
      if a.parent != null && x == s.target[a.parent] then
        && multiset(after) == multiset(before)[s.self[a] := 0]
        && forall i :: 0 <= i <= |before| ==> after == Without(before[..i], s.self[a]) + Without(before[i..], s.self[a])
      else after == before
  {
    var before := s.children[x];
    WithoutCounts(before, s.self[a]);
    forall i | 0 <= i <= |before|
      ensures Without(before, s.self[a]) == Without(before[..i], s.self[a]) + Without(before[i..], s.self[a])
    {
      assert before[..i] + before[i..] == before;
      WithoutConcat(before[..i], before[i..], s.self[a]);
    }
  }

  // ---- Every step keeps the hierarchy closed ---------------------------------------------------

  lemma RegisterClosed(s: Store, n: Actor)
    requires Closed(s) && n in s.children && n != s.root
    ensures CanRegister(s, n) && Closed(Register(s, n))
  {
    var s' := Register(s, n);
    assert s.target[s.self[n]].name == n.name;
    assert EntriesBelow(s') by {
      forall a, c {:trigger c in s'.children[a]} | a in s'.children && c in s'.children[a]
        ensures c in s'.target && Below(a.name, s'.target[c].name)
      {
        assert c in s.children[a] || (a == s.target[n.parent] && c == s.self[n]);
      }
    }
  }

  /** After collapsing, an entry still has a name below its list's owner. */
  lemma CollapseBelow(s: Store, v: Actor, m: string, f: ActorRefImpl)
    requires EntriesBelow(s) && v in s.children && IsNamed(s.target, f, m)
    ensures forall c :: c in Collapse(s.target, s.children[v], m, f) ==>
      c in s.target && Below(v.name, s.target[c].name)
  {
    var cs := s.children[v];
    var named := Named(s.target, cs, m);
    if named != [] {
      NamedIn(s.target, cs, m);
      assert named[0] in named;
      OthersIn(s.target, cs, m);
      assert Collapse(s.target, cs, m, f) == Others(s.target, cs, m) + [f];
    }
  }

  lemma UpdateKeepsBelow(s: Store, a: Actor, m: string, f: ActorRefImpl)
    requires Grows(s) && EntriesBelow(s) && a in s.children && IsNamed(s.target, f, m)
    ensures EntriesBelow(Traverse(s, a, m, f))
  {
    var s' := Traverse(s, a, m, f);
    forall v, c {:trigger c in s'.children[v]} | v in s'.children && c in s'.children[v]
      ensures c in s'.target && Below(v.name, s'.target[c].name)
    {
      CollapseBelow(s, v, m, f);
    }
  }

  ghost predicate CanRewire(s: Store, o: Actor, n: Actor) {
    Closed(s) && CanTakeOver(s, o, n) && o != s.root && n != s.root
  }

  /** Rewiring never changes the name behind a reference. */
  lemma RewireNames(s: Store, o: Actor, n: Actor)
    requires CanRewire(s, o, n)
    ensures Rewire(s, o, n).target.Keys == s.target.Keys
    ensures forall r {:trigger Rewire(s, o, n).target[r]} :: r in s.target ==>
      Rewire(s, o, n).target[r].name == s.target[r].name
  {
    assert s.self[o] in s.target;
  }

  /** Every other actor's chain of parents ends at the system actor, so its name is longer. */
  lemma {:induction false} LongerThanRoot(s: Store, a: Actor)
    requires Closed(s) && a in s.children && a != s.root
    ensures |a.name| > |s.root.name|
    decreases |a.name|
  {
    var p := s.target[a.parent];
    if p != s.root {
      LongerThanRoot(s, p);
    }
  }

  lemma RewireClosed(s: Store, o: Actor, n: Actor)
    requires CanRewire(s, o, n)
    ensures Closed(Rewire(s, o, n))
  {
    var s1, f, s' := Taken(s, o, n), s.self[n], Rewire(s, o, n);
    RewireNames(s, o, n);
    assert EntriesBelow(s') by {
      assert s.target[f].name == o.name;
      UpdateKeepsBelow(s1, s.root, o.name, f);
      var s2 := Traverse(s1, s.root, o.name, f);
      forall a, c {:trigger c in s'.children[a]} | a in s'.children && c in s'.children[a]
        ensures c in s'.target && Below(a.name, s'.target[c].name)
      {
        assert a != o && c in s2.children[a];
      }
    }
    LongerThanRoot(s, o);
    assert s.self[s.root] != s.self[o];
  }

  lemma FinishClosed(s: Store, a: Actor)
    requires Closed(s) && a in s.children
    ensures CanFinish(s, a) && Closed(Finish(s, a))
  {
    if a.parent != null {
      var s' := Finish(s, a);
      assert s.target[a.parent] in s.children;
      assert EntriesBelow(s') by {
        WithoutIn(s.children[s.target[a.parent]], s.self[a]);
      }
    }
  }

  // ---- The classes ------------------------------------------------------------------------------

  class ActorRefImpl {
    var actor: Actor

    constructor (actor: Actor)
      ensures this.actor == actor
    {
      this.actor := actor;
    }

    method SetActor(actor: Actor, ghost system: ActorSystem)
      requires this in system.refs
      modifies this`actor
      ensures this.actor == actor
      ensures system.Targets() == old(system.Targets())[this := actor]
    {
      this.actor := actor;
    }
  }

  class Actor {
    const name: string
    const options: ActorOptions
    const parent: ActorRefImpl?
    /** The strategy that the actor's own class starts it with. */
    const declared: Strategy
    var strategy: Strategy
    var actorRef: ActorRefImpl?
    var children: seq<ActorRefImpl>
    var isShutdown: bool

    constructor (name: string, options: ActorOptions, parent: ActorRefImpl?, declared: Strategy)
      ensures this.name == name && this.options == options && this.parent == parent
      ensures this.declared == declared && strategy == declared
      ensures children == [] && !isShutdown
      ensures actorRef != null && fresh(actorRef) && actorRef.actor == this
    {
      this.name := name;
      this.options := options;
      this.parent := parent;
      this.declared := declared;
      strategy := declared;
      children := [];
      isShutdown := false;
      new;
      actorRef := new ActorRefImpl(this);
    }

    method SetChildren(children: seq<ActorRefImpl>, ghost system: ActorSystem)
      requires this in system.instances
      modifies this`children
      ensures this.children == children
      ensures system.Lists() == old(system.Lists())[this := children]
    {
      this.children := children;
    }

    method SetRef(actorRef: ActorRefImpl, ghost system: ActorSystem)
      requires this in system.instances
      modifies this`actorRef
      ensures this.actorRef == actorRef
      ensures system.Selves() == old(system.Selves())[this := actorRef]
    {
      this.actorRef := actorRef;
    }

    method SetShutdown(ghost system: ActorSystem)
      requires this in system.instances
      modifies this`isShutdown
      ensures isShutdown
      ensures system.Downs() == old(system.Downs()) + {this}
    {
      isShutdown := true;
    }

    /** A strategy among the options replaces the class's own. */
    method ApplyStrategy(ghost system: ActorSystem)
      modifies this`strategy
      ensures strategy == match options.strategy case Some(chosen) => chosen case None => old(strategy)
      ensures system.View() == old(system.View())
    {
      if options.strategy.Some? {
        strategy := options.strategy.value;
      }
    }

    method AppendChild(actor: Actor, ghost system: ActorSystem)
      requires actor.actorRef != null && this in system.instances
      modifies this`children
      ensures system.Lists() == old(system.Lists())[this := old(children) + [actor.actorRef]]
    {
      SetChildren(children + [actor.actorRef], system);
    }

    method RemoveChild(child: ActorRefImpl, ghost system: ActorSystem)
      requires this in system.instances
      modifies this`children
      ensures system.Lists() == old(system.Lists())[this := Without(old(children), child)]
    {
      var kept := [];
      for i := 0 to |children|
        invariant kept == Without(children[..i], child)
        invariant children == old(children)
      {
        assert children[..i + 1][..i] == children[..i];
        if children[i] != child {
          kept := kept + [children[i]];
        }
      }
      assert children[..|children|] == children;
      SetChildren(kept, system);
    }

    /** The children not called like the old one, and whether there is one called like it. */
    method SplitChildren(oldRef: ActorRefImpl, ghost system: ActorSystem)
      returns (others: seq<ActorRefImpl>, found: bool)
      requires this in system.instances && forall c :: c in children ==> c in system.refs
      ensures others == Others(system.Targets(), children, oldRef.actor.name)
      ensures found <==> Named(system.Targets(), children, oldRef.actor.name) != []
    {
      ghost var target, m := system.Targets(), oldRef.actor.name;
      others, found := [], false;
      for i := 0 to |children|
        invariant others == Others(target, children[..i], m)
        invariant found <==> Named(target, children[..i], m) != []
      {
        assert children[..i + 1][..i] == children[..i];
        if children[i].actor.name != oldRef.actor.name {
          others := others + [children[i]];
        } else {
          found := true;
        }
      }
      assert children[..|children|] == children;
    }

    /** Replace the old child by the new one in this list. */
    method CollapseChildren(oldRef: ActorRefImpl, newRef: ActorRefImpl, ghost system: ActorSystem)
      returns (childrenToTraverse: seq<ActorRefImpl>)
      requires this in system.instances && forall c :: c in children ==> c in system.refs
      modifies this`children
      ensures childrenToTraverse == Others(system.Targets(), old(children), oldRef.actor.name)
      ensures system.Lists() ==
        old(system.Lists())[this := Collapse(system.Targets(), old(children), oldRef.actor.name, newRef)]
    {
      var updateChild;
      childrenToTraverse, updateChild := SplitChildren(oldRef, system);
      if updateChild {
        SetChildren(childrenToTraverse + [newRef], system);
      }
    }

    method CollapseHere(oldRef: ActorRefImpl, newRef: ActorRefImpl, ghost system: ActorSystem)
      returns (childrenToTraverse: seq<ActorRefImpl>)
      requires this in system.instances && CanUpdate(system.View(), oldRef.actor.name, newRef)
      modifies this`children
      ensures system.View() == CollapseAt(old(system.View()), this, oldRef.actor.name, newRef)
      ensures childrenToTraverse == old(Others(system.View().target, system.View().children[this], oldRef.actor.name))
    {
      hide Others, Named;
      assert forall c :: c in children ==> c in system.View().children[this];
      childrenToTraverse := CollapseChildren(oldRef, newRef, system);
    }

    /** Replace the old child by the new one here and everywhere below. */
    method UpdateChildren(oldRef: ActorRefImpl, newRef: ActorRefImpl, ghost system: ActorSystem)
      requires system.Known() && this in system.instances && oldRef in system.refs && newRef in system.refs
      requires CanUpdate(system.View(), oldRef.actor.name, newRef)
      modifies system.instances`children
      ensures system.View() == UpdateTree(old(system.View()), this, oldRef.actor.name, newRef)
      decreases NotShorter(system.View(), this), 2
    {
      hide CanUpdate, Onward, UpdateTree, UpdateList, CollapseAt, Grows, Others;
      InView(system, this);
      UpdateBegins(system.View(), this, oldRef.actor.name, newRef);
      var childrenToTraverse := CollapseHere(oldRef, newRef, system);
      UpdateEach(childrenToTraverse, oldRef, newRef, system);
    }

    method UpdateEach(childrenToTraverse: seq<ActorRefImpl>, oldRef: ActorRefImpl, newRef: ActorRefImpl,
                      ghost system: ActorSystem)
      requires system.Known() && this in system.instances && oldRef in system.refs && newRef in system.refs
      requires CanUpdate(system.View(), oldRef.actor.name, newRef)
      requires Onward(system.View(), this, childrenToTraverse)
      modifies system.instances`children
      ensures system.View() == UpdateList(old(system.View()), this, childrenToTraverse, oldRef.actor.name, newRef)
      decreases NotShorter(system.View(), this), 1
    {
      hide *;
      ghost var s, m := system.View(), oldRef.actor.name;
      InView(system, this);
      UpdateNone(s, this, m, newRef);
      assert childrenToTraverse[..0] == [];
      for i := 0 to |childrenToTraverse|
        invariant Onward(s, this, childrenToTraverse[..i])
        invariant system.View() == UpdateList(s, this, childrenToTraverse[..i], m, newRef)
      {
        assert childrenToTraverse[..i + 1] == childrenToTraverse[..i] + [childrenToTraverse[i]];
        OnwardPrefix(s, this, childrenToTraverse, i + 1);
        UpdateOne(childrenToTraverse[i], oldRef, newRef, system, s, childrenToTraverse[..i]);
      }
      assert childrenToTraverse[..|childrenToTraverse|] == childrenToTraverse;
    }

    method UpdateOne(child: ActorRefImpl, oldRef: ActorRefImpl, newRef: ActorRefImpl,
                     ghost system: ActorSystem, ghost s: Store, ghost done: seq<ActorRefImpl>)
      requires system.Known() && oldRef in system.refs && newRef in system.refs
      requires CanUpdate(s, oldRef.actor.name, newRef) && this in s.children
      requires Onward(s, this, done) && Onward(s, this, done + [child])
      requires system.View() == UpdateList(s, this, done, oldRef.actor.name, newRef)
      modifies system.instances`children
      ensures system.View() == UpdateList(s, this, done + [child], oldRef.actor.name, newRef)
      decreases NotShorter(s, this), 0
    {
      assert (done + [child])[..|done|] == done;
      assert child in done + [child];
      assert this in NotShorter(s, this) && this !in NotShorter(system.View(), child.actor);
      child.actor.UpdateChildren(oldRef, newRef, system);
    }
  }

  class ActorSystem {
    var actors: map<string, Actor>
    const systemActor: Actor
    /** Every actor and every reference this system has made so far. */
    ghost var instances: set<Actor>
    ghost var refs: set<ActorRefImpl>

    ghost predicate Known()
      reads this`instances, this`refs, instances`actorRef
    {
      && systemActor in instances
      && forall a :: a in instances ==> a.actorRef != null && a.actorRef in refs
    }

    ghost function Lists(): map<Actor, seq<ActorRefImpl>>
      reads this`instances, instances`children
    {
      map a | a in instances :: a.children
    }

    ghost function Targets(): map<ActorRefImpl, Actor>
      reads this`refs, refs`actor
    {
      map r | r in refs :: r.actor
    }

    ghost function Selves(): map<Actor, ActorRefImpl>
      reads this`instances, instances`actorRef
    {
      map a | a in instances && a.actorRef != null :: a.actorRef
    }

    ghost function Downs(): set<Actor>
      reads this`instances, instances`isShutdown
    {
      set a | a in instances && a.isShutdown
    }

    ghost function View(): Store
      reads this, instances, refs
    {
      Store(systemActor, actors, Lists(), Targets(), Selves(), Downs())
    }

    constructor (systemName: string)
      ensures systemActor.actorRef != null && fresh(systemActor) && fresh(systemActor.actorRef)
      ensures systemActor.parent == null && systemActor.name == "actors://" + systemName
      ensures Known() && View() == Alone(systemActor, systemActor.actorRef) && Closed(View())
    {
      actors := map[];
      systemActor := new Actor("actors://" + systemName, ActorOptions("", null, None), null, Shutdown);
      new;
      instances := {systemActor};
      refs := {systemActor.actorRef};
      assert Lists() == map[systemActor := []];
      assert Targets() == map[systemActor.actorRef := systemActor];
      assert Selves() == map[systemActor := systemActor.actorRef];
      AloneIsClosed(systemActor, systemActor.actorRef);
    }

    /**
     createActor up to its first await; None when the name is taken. `generated` is the name made from
     the type and a uuid.
    */
    method BeginCreate(options: ActorOptions, generated: string, overwriteExisting: bool, declared: Strategy)
      returns (r: Option<Actor>)
      requires Known()
      requires options.parent != null ==> options.parent in refs
      modifies this`instances, this`refs
      ensures Known()
      ensures var parentName := if options.parent == null then systemActor.name else options.parent.actor.name;
        var name := parentName + "/" + if options.name != "" then options.name else generated;
        if name in actors && !overwriteExisting then r.None? && View() == old(View())
        else
          && r.Some? && fresh(r.value) && fresh(r.value.actorRef) && r.value.actorRef != null
          && View() == Instantiate(old(View()), r.value, r.value.actorRef)
          && r.value.name == name && r.value.options == options && r.value.strategy == r.value.declared == declared
          && r.value.parent == (if options.parent == null then systemActor.actorRef else options.parent)
    {
      var parentName := if options.parent != null then options.parent.actor.name else systemActor.name;
      var actorName := parentName + "/" + if options.name != "" then options.name else generated;
      if actorName in actors && !overwriteExisting {
        return None;
      }
      var newActor := NewActor(actorName, options,
        if options.parent != null then options.parent else systemActor.actorRef, declared);
      r := Some(newActor);
    }

    method NewActor(name: string, options: ActorOptions, parent: ActorRefImpl, declared: Strategy) returns (n: Actor)
      requires Known()
      modifies this`instances, this`refs
      ensures Known() && fresh(n) && n.actorRef != null && fresh(n.actorRef)
      ensures n.name == name && n.options == options && n.parent == parent && n.strategy == n.declared == declared
      ensures View() == Instantiate(old(View()), n, n.actorRef)
    {
      n := new Actor(name, options, parent, declared);
      instances := instances + {n};
      refs := refs + {n.actorRef};
      assert Lists() == old(Lists())[n := []];
      assert Selves() == old(Selves())[n := n.actorRef];
      assert Targets() == old(Targets())[n.actorRef := n];
      assert Downs() == old(Downs());
    }

    /** createActor after beforeStart. */
    method FinishCreate(newActor: Actor)
      requires Known() && CanRegister(View(), newActor)
      modifies this`actors, newActor.parent.actor`children, newActor`strategy
      ensures Known() && View() == Register(old(View()), newActor)
      ensures newActor.strategy ==
        match newActor.options.strategy case Some(chosen) => chosen case None => old(newActor.strategy)
    {
      AddToTree(newActor);
      newActor.ApplyStrategy(this);
    }

    method AddToTree(newActor: Actor)
      requires Known() && CanRegister(View(), newActor)
      modifies this`actors, newActor.parent.actor`children
      ensures Known() && View() == Register(old(View()), newActor)
    {
      actors := actors[newActor.name := newActor];
      newActor.parent.actor.AppendChild(newActor, this);
    }

    /** restart of `actor` after createActor returned the fresh reference. */
    method FinishRestart(actor: Actor, actorRef: ActorRefImpl)
      requires Known() && actor in instances && actorRef in refs
      requires CanReplace(View(), actor, actorRef)
      modifies instances`children, actorRef.actor`actorRef, actor.actorRef`actor
      ensures Known() && View() == RewireTree(old(View()), actor, actorRef)
    {
      hide Grows, UpdateTree, CanUpdate, Taken;
      ghost var s := View();
      TakenCanUpdate(s, actor, actorRef);
      assert s.self[actor] == actor.actorRef && s.target[actorRef] == actorRef.actor;
      assert s.target[actor.actorRef] == actor.actorRef.actor;
      TakeOver(actor, actorRef);
      systemActor.UpdateChildren(actor.actorRef, actorRef, this);
      assert View() == UpdateTree(Taken(s, actor, s.target[actorRef]), s.root, s.target[s.self[actor]].name, actorRef);
      HandOver(actor, actorRef);
    }

    /** The fresh instance takes the reference and a copy of the children. */
    method TakeOver(actor: Actor, actorRef: ActorRefImpl)
      requires Known() && actor in instances && actorRef in refs
      requires CanReplace(View(), actor, actorRef)
      modifies actorRef.actor`children, actorRef.actor`actorRef
      ensures Known() && View() == old(Taken(View(), actor, actorRef.actor))
      ensures actor.actorRef == old(actor.actorRef)
    {
      actorRef.actor.SetRef(actor.actorRef, this);
      actorRef.actor.SetChildren(actor.children, this);
    }

    /** The original reference leads to the fresh instance, and the old one lets its children go. */
    method HandOver(actor: Actor, actorRef: ActorRefImpl)
      requires Known() && actor in instances && actor.actorRef in refs
      modifies actor`children, actor.actorRef`actor
      ensures Known()
      ensures var s := old(View());
        View() ==
          s.(target := s.target[old(actor.actorRef) := old(actorRef.actor)], children := s.children[actor := []])
    {
      actor.actorRef.SetActor(actorRef.actor, this);
      actor.SetChildren([], this);
    }

    /** None stands for the error that the actor was not found. */
    method GetActorRef(name: string) returns (r: Option<ActorRefImpl>)
      requires Known() && Wired(View())
      ensures r == LookedUp(View(), name)
    {
      ghost var s := View();
      if name == systemActor.name {
        assert s.self[s.root] == systemActor.actorRef;
        return Some(systemActor.actorRef);
      }
      r := None;
      if name in actors {
        assert s.registry[name] == actors[name] && s.self[actors[name]] == actors[name].actorRef;
        r := Some(actors[name].actorRef);
      }
    }

    method Remove(actorRef: ActorRefImpl)
      modifies this`actors
      ensures View() == old(View()).(registry := old(actors) - {actorRef.actor.name})
    {
      actors := actors - {actorRef.actor.name};
    }

    /** shutdown of `actor` once the calls on its children have settled. */
    method FinishShutdown(actor: Actor)
      requires Known() && CanFinish(View(), actor)
      modifies this`actors, actor`isShutdown
      modifies (if actor.parent == null then {} else {actor.parent.actor})`children
      ensures Known() && View() == Finish(old(View()), actor)
    {
      MarkDown(actor);
      if actor.parent != null {
        Unlink(actor);
      }
      Remove(actor.actorRef);
    }

    /** The parent drops the actor's own reference. */
    method Unlink(actor: Actor)
      requires Known() && actor in instances
      requires actor.parent != null && actor.parent in refs && actor.parent.actor in instances
      modifies actor.parent.actor`children
      ensures var p, s := actor.parent.actor, old(View());
        View() == s.(children := s.children[p := Without(old(p.children), actor.actorRef)])
    {
      actor.parent.actor.RemoveChild(actor.actorRef, this);
    }

    method MarkDown(actor: Actor)
      requires actor in instances
      modifies actor`isShutdown
      ensures View() == old(View()).(dead := old(Downs()) + {actor})
    {
      actor.SetShutdown(this);
    }
  }
}
