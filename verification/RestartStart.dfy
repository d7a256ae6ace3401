/**
 Starting a restart: the synchronous part of `restart` on an actor and, before it, on whatever its
 entries lead to, shut down or not. It creates one fresh instance per call and leaves the tree as it is.
 */
module RestartStart {
  import opened ActorTree
  import opened TidyTree
  import opened WiredTree

  /** A call of `restart` that waits for `createActor`: on whom, and the fresh instance with its reference. */
  datatype Start = Start(prior: Actor, next: Actor, ref: ActorRefImpl)

  /** The parent that an actor's own options lead to. */
  ghost function ParentAgain(s: Store, a: Actor): ActorRefImpl
    requires s.root in s.self
  {
    if a.options.parent == null then s.self[s.root] else a.options.parent
  }

  /** Every actor was created under the parent in its options. */
  ghost predicate ParentsKept(s: Store) {
    && s.root in s.self
    && forall a {:trigger a.parent} :: a in s.children && a != s.root ==> a.parent == ParentAgain(s, a)
  }

  /** The name that an actor's own options give it: `generated` is used if they have none. */
  ghost function NameAgain(s: Store, a: Actor, generated: string): string
    requires a.parent != null && a.parent in s.target
  {
    s.target[a.parent].name + "/" + if a.options.name != "" then a.options.name else generated
  }

  /** The fresh instance has the old one's class, options and parent, and the name they give. */
  ghost predicate Again(s: Store, start: Start, generated: string) {
    && start.prior in s.children && start.prior != s.root
    && start.prior.parent != null && start.prior.parent in s.target
    && start.next.name == NameAgain(s, start.prior, generated)
    && start.next.parent == start.prior.parent && start.next.options == start.prior.options
    && start.next.declared == start.prior.declared
  }

  ghost predicate AllAgain(s: Store, starts: seq<Start>, generated: nat -> string, first: nat) {
    forall k {:trigger starts[k]} :: 0 <= k < |starts| ==> Again(s, starts[k], generated(first + k))
  }

  lemma AgainConcat(s: Store, xs: seq<Start>, ys: seq<Start>, generated: nat -> string, first: nat)
    requires AllAgain(s, xs, generated, first) && AllAgain(s, ys, generated, first + |xs|)
    ensures AllAgain(s, xs + ys, generated, first)
  {
    forall k {:trigger (xs + ys)[k]} | 0 <= k < |xs + ys| ensures Again(s, (xs + ys)[k], generated(first + k)) {
      if k >= |xs| {
        assert Again(s, ys[k - |xs|], generated(first + |xs| + (k - |xs|)));
      }
    }
  }

  function Priors(starts: seq<Start>): (r: seq<Actor>)
    ensures |r| == |starts| && forall k :: 0 <= k < |r| ==> r[k] == starts[k].prior
  {
    if starts == [] then [] else Priors(starts[..|starts| - 1]) + [starts[|starts| - 1].prior]
  }

  lemma PriorsConcat(xs: seq<Start>, ys: seq<Start>)
    ensures Priors(xs + ys) == Priors(xs) + Priors(ys)
  {
  }

  // ---- The order of the calls -------------------------------------------------------------------------

  /** Whom `restart` on `a` is called on: all that the entries lead to, and then `a`. */
  ghost function PostOrder(s: Store, a: Actor): seq<Actor>
    requires Grows(s) && a in s.children
    decreases NotShorter(s, a), 1, 0
  {
    PostOrderList(s, a, s.children[a]) + [a]
  }

  ghost function PostOrderList(s: Store, a: Actor, cs: seq<ActorRefImpl>): seq<Actor>
    requires Grows(s) && a in s.children && Onward(s, a, cs)
    decreases NotShorter(s, a), 0, |cs|
  {
    if cs == [] then []
    else
      assert cs[|cs| - 1] in cs && a in NotShorter(s, a) && a !in NotShorter(s, s.target[cs[|cs| - 1]]);
      PostOrderList(s, a, cs[..|cs| - 1]) + PostOrder(s, s.target[cs[|cs| - 1]])
  }

  lemma PostOrderPush(s: Store, a: Actor, cs: seq<ActorRefImpl>, c: ActorRefImpl)
    requires Grows(s) && a in s.children && Onward(s, a, cs + [c])
    ensures Onward(s, a, cs) && c in s.target && s.target[c] in s.children && |a.name| < |s.target[c].name|
    ensures PostOrderList(s, a, cs + [c]) == PostOrderList(s, a, cs) + PostOrder(s, s.target[c])
  {
    assert c in cs + [c];
    assert forall d :: d in cs ==> d in cs + [c];
    assert (cs + [c])[..|cs|] == cs;
  }

  /** Whoever a call on an entry reaches, the call on the owner of the list reaches. */
  lemma {:induction false} EntryReaches(s: Store, a: Actor, cs: seq<ActorRefImpl>, c: ActorRefImpl, x: Actor)
    requires Grows(s) && a in s.children && Onward(s, a, cs) && c in cs && x in PostOrder(s, s.target[c])
    ensures x in PostOrderList(s, a, cs)
  {
    var before, last := cs[..|cs| - 1], cs[|cs| - 1];
    assert cs == before + [last];
    PostOrderPush(s, a, before, last);
    if c != last {
      EntryReaches(s, a, before, c, x);
    }
  }

  // ---- What has been started ----------------------------------------------------------------------------

  /** The tree with the fresh instances beside it. */
  ghost function StartedFrom(s: Store, starts: seq<Start>): Store {
    if starts == [] then s
    else
      var last := starts[|starts| - 1];
      Instantiate(StartedFrom(s, starts[..|starts| - 1]), last.next, last.ref)
  }

  /** The fresh instances and their references are new, and all different. */
  ghost predicate StartsFresh(s: Store, starts: seq<Start>) {
    && (forall k :: 0 <= k < |starts| ==> starts[k].next !in s.children && starts[k].ref !in s.target)
    && (forall j, k :: 0 <= j < k < |starts| ==>
      starts[j].next != starts[k].next && starts[j].ref != starts[k].ref)
  }

  ghost predicate IsFresh(starts: seq<Start>, a: Actor) {
    exists k :: 0 <= k < |starts| && starts[k].next == a
  }

  ghost predicate IsFreshRef(starts: seq<Start>, r: ActorRefImpl) {
    exists k :: 0 <= k < |starts| && starts[k].ref == r
  }

  lemma StartedPush(s: Store, starts: seq<Start>, start: Start)
    ensures StartedFrom(s, starts + [start]) == Instantiate(StartedFrom(s, starts), start.next, start.ref)
  {
    assert (starts + [start])[..|starts|] == starts;
  }

  /** What `t` holds of the instances of `s`. */
  ghost predicate Extends(s: Store, t: Store) {
    && t.root == s.root && t.registry == s.registry && t.dead == s.dead
    && (forall a {:trigger a in t.children} :: a in s.children ==> a in t.children)
    && (forall a {:trigger t.children[a]} :: a in s.children && a in t.children ==> t.children[a] == s.children[a])
    && (forall a {:trigger a in t.self} :: a in s.self ==> a in t.self)
    && (forall a {:trigger t.self[a]} :: a in s.self && a in t.self ==> t.self[a] == s.self[a])
    && (forall r {:trigger r in t.target} :: r in s.target ==> r in t.target)
    && (forall r {:trigger t.target[r]} :: r in s.target && r in t.target ==> t.target[r] == s.target[r])
  }

  lemma InstantiateExtends(s: Store, t: Store, n: Actor, f: ActorRefImpl)
    requires SelfSized(s) && Extends(s, t) && n !in s.children && f !in s.target
    ensures Extends(s, Instantiate(t, n, f))
  {
  }

  /** The old instances are as they were. */
  lemma {:induction false} StartedExtends(s: Store, starts: seq<Start>)
    requires SelfSized(s) && StartsFresh(s, starts)
    ensures Extends(s, StartedFrom(s, starts))
  {
    hide Extends;
    if starts == [] {
      ExtendsItself(s);
    } else {
      var before, last := starts[..|starts| - 1], starts[|starts| - 1];
      StartedExtends(s, before);
      InstantiateExtends(s, StartedFrom(s, before), last.next, last.ref);
    }
  }

  lemma ExtendsItself(s: Store)
    ensures Extends(s, s)
  {
  }

  lemma FreshPush(starts: seq<Start>, start: Start, a: Actor, r: ActorRefImpl)
    ensures IsFresh(starts + [start], a) <==> IsFresh(starts, a) || a == start.next
    ensures IsFreshRef(starts + [start], r) <==> IsFreshRef(starts, r) || r == start.ref
  {
    var more := starts + [start];
    assert more[|starts|] == start && forall k :: 0 <= k < |starts| ==> more[k] == starts[k];
  }

  /** Beside the old instances there are the fresh ones and nobody else. */
  lemma {:induction false} StartedOnly(s: Store, starts: seq<Start>, a: Actor, r: ActorRefImpl)
    ensures a in StartedFrom(s, starts).children <==> a in s.children || IsFresh(starts, a)
    ensures r in StartedFrom(s, starts).target <==> r in s.target || IsFreshRef(starts, r)
  {
    if starts != [] {
      var before, last := starts[..|starts| - 1], starts[|starts| - 1];
      assert starts == before + [last];
      StartedOnly(s, before, a, r);
      FreshPush(before, last, a, r);
    }
  }

  /** The fresh instance is childless, and it and its reference lead to each other. */
  ghost predicate Waits(t: Store, start: Start) {
    && start.next in t.children && t.children[start.next] == []
    && start.next in t.self && t.self[start.next] == start.ref
    && start.ref in t.target && t.target[start.ref] == start.next
  }

  lemma {:induction false} StartedWaits(s: Store, starts: seq<Start>, k: nat)
    requires StartsFresh(s, starts) && k < |starts|
    ensures Waits(StartedFrom(s, starts), starts[k])
  {
    var before := starts[..|starts| - 1];
    if k < |before| {
      StartedWaits(s, before, k);
      assert before[k] == starts[k];
    }
  }

  /** A new instance is none of those started before. */
  lemma FreshMore(s: Store, starts: seq<Start>, start: Start)
    requires SelfSized(s) && StartsFresh(s, starts)
    requires start.next !in StartedFrom(s, starts).children && start.ref !in StartedFrom(s, starts).target
    ensures StartsFresh(s, starts + [start])
  {
    StartedExtends(s, starts);
    forall k | 0 <= k < |starts| ensures starts[k].next != start.next && starts[k].ref != start.ref {
      StartedWaits(s, starts, k);
    }
  }

  // ---- Names and parents as created -----------------------------------------------------------------------

  /** An explicit name is the one that the options give. */
  ghost predicate NamesHeld(s: Store) {
    forall a {:trigger a.parent} :: a in s.children && a != s.root && a.options.name != "" ==>
      a.parent != null && a.parent in s.target && a.name == NameAgain(s, a, "")
  }

  /** `createActor` names its actors as their options say, under the parent that they say. */
  lemma CreatedFits(s: Store, n: Actor, f: ActorRefImpl, generated: string)
    requires Wired(s) && ParentsKept(s) && NamesHeld(s) && n !in s.children && f !in s.target
    requires n.parent == ParentAgain(s, n) && n.parent in s.target && n.name == NameAgain(s, n, generated)
    ensures ParentsKept(Instantiate(s, n, f)) && NamesHeld(Instantiate(s, n, f))
  {
    var t := Instantiate(s, n, f);
    forall a {:trigger a.parent} | a in t.children && a != t.root && a.options.name != ""
      ensures a.parent != null && a.parent in t.target && a.name == NameAgain(t, a, "")
    {
      assert a in s.children || a == n;
    }
  }

  /** Restarts neither add actors nor move the system actor's reference. */
  lemma RootStays(s: Store, o: Actor, f: ActorRefImpl)
    requires Wired(s) && CanReplace(s, o, f) && o != s.root
    ensures var t := RewireTree(s, o, f);
      && t.root == s.root && s.root in s.self && s.root in t.self && t.self[s.root] == s.self[s.root]
      && forall a :: a in t.children ==> a in s.children
  {
    hide Grows, UpdateTree, RefsKnown, ParentsShorter, RegistryKnown;
    RewireTreeGrows(s, o, f);
    LongerName(s, o);
    assert forall a :: a in RewireTree(s, o, f).children.Keys ==> a in s.children.Keys;
  }

  lemma NameStays(s: Store, o: Actor, f: ActorRefImpl, r: ActorRefImpl)
    requires CanReplace(s, o, f) && r in s.target && s.target[f].name == s.target[s.self[o]].name
    ensures r in RewireTree(s, o, f).target && RewireTree(s, o, f).target[r].name == s.target[r].name
  {
  }

  /** A restart leaves parents where they were. */
  lemma ParentsStay(s: Store, o: Actor, f: ActorRefImpl)
    requires Wired(s) && ParentsKept(s) && CanReplace(s, o, f) && o != s.root
    ensures ParentsKept(RewireTree(s, o, f))
  {
    hide Wired, RewireTree, CanReplace;
    RootStays(s, o, f);
    var t := RewireTree(s, o, f);
    forall a {:trigger a.parent} | a in t.children && a != t.root ensures a.parent == ParentAgain(t, a) {
      assert a.parent == ParentAgain(s, a);
    }
  }

  lemma HeldAt(s: Store, a: Actor)
    requires NamesHeld(s) && a in s.children && a != s.root && a.options.name != ""
    ensures a.parent != null && a.parent in s.target && a.name == NameAgain(s, a, "")
  {
  }

  lemma HeldIf(t: Store)
    requires forall a {:trigger a in t.children} :: a in t.children && a != t.root && a.options.name != "" ==>
      a.parent != null && a.parent in t.target && a.name == NameAgain(t, a, "")
    ensures NamesHeld(t)
  {
  }

  /** And names behind references, if it keeps the restarted actor's. */
  lemma NamesStay(s: Store, o: Actor, f: ActorRefImpl)
    requires Wired(s) && NamesHeld(s) && CanReplace(s, o, f) && o != s.root
    requires s.target[f].name == s.target[s.self[o]].name
    ensures NamesHeld(RewireTree(s, o, f))
  {
    hide Wired, RewireTree, Grows, NamesHeld;
    RootStays(s, o, f);
    var t := RewireTree(s, o, f);
    forall a {:trigger a in t.children} | a in t.children && a != t.root && a.options.name != ""
      ensures a.parent != null && a.parent in t.target && a.name == NameAgain(t, a, "")
    {
      HeldAt(s, a);
      NameStays(s, o, f, a.parent);
    }
    HeldIf(t);
  }

  // ---- The recursion --------------------------------------------------------------------------------------

  /** Starting restarts changes neither the old actors' lists nor where the old references lead. */
  lemma StillThere(system: ActorSystem, s0: Store, before: seq<Start>, a: Actor)
    requires Wired(s0) && StartsFresh(s0, before) && system.View() == StartedFrom(s0, before) && a in s0.children
    ensures a.children == s0.children[a] && Onward(s0, a, a.children)
    ensures forall r :: r in s0.target ==> r in system.refs && r.actor == s0.target[r]
  {
    StartedExtends(s0, before);
    assert system.Lists()[a] == s0.children[a];
    forall r | r in s0.target ensures r in system.refs && r.actor == s0.target[r] {
      assert r in system.Targets() && system.Targets()[r] == s0.target[r];
    }
  }

  /** The system actor and its reference are where they were. */
  lemma RootThere(system: ActorSystem, s0: Store, before: seq<Start>)
    requires system.Known() && Wired(s0) && StartsFresh(s0, before) && system.View() == StartedFrom(s0, before)
    ensures system.systemActor == s0.root && s0.root in s0.self && system.systemActor.actorRef == s0.self[s0.root]
    ensures s0.self[s0.root] in s0.target && s0.target[s0.self[s0.root]] == s0.root
  {
    StartedExtends(s0, before);
    assert system.View().self[system.systemActor] == system.systemActor.actorRef;
  }

  /** `createActor` with the actor's own options and `overwriteExisting`, up to its first await. */
  method RecreateActor(system: ActorSystem, a: Actor, generated: string, ghost s0: Store, ghost before: seq<Start>)
    returns (start: Start)
    requires system.Known() && Wired(s0) && ParentsKept(s0) && a in s0.children && a != s0.root
    requires StartsFresh(s0, before) && system.View() == StartedFrom(s0, before)
    modifies system`instances, system`refs
    ensures system.Known() && start.prior == a && Again(s0, start, generated)
    ensures StartsFresh(s0, before + [start]) && system.View() == StartedFrom(s0, before + [start])
  {
    ghost var s := system.View();
    StillThere(system, s0, before, a);
    RootThere(system, s0, before);
    assert a.parent == ParentAgain(s0, a) && a.parent in s0.target;
    var r := system.BeginCreate(a.options, generated, true, a.declared);
    start := Start(a, r.value, r.value.actorRef);
    FreshMore(s0, before, start);
    StartedPush(s0, before, start);
  }

  /**
   `restart` on `a`, up to the point where every call waits for `createActor`: one fresh instance for
   each actor that the entries lead to, those that have been shut down included, and for `a` itself.
   `generated` gives the name that `createActor` makes up in the call of that number.
   */
  method BeginRestart(system: ActorSystem, a: Actor, generated: nat -> string, first: nat,
                      ghost s0: Store, ghost before: seq<Start>)
    returns (starts: seq<Start>)
    requires system.Known() && Wired(s0) && ParentsKept(s0) && a in s0.children && a != s0.root
    requires StartsFresh(s0, before) && system.View() == StartedFrom(s0, before)
    modifies system`instances, system`refs
    ensures system.Known() && StartsFresh(s0, before + starts) && system.View() == StartedFrom(s0, before + starts)
    ensures Priors(starts) == PostOrder(s0, a) && AllAgain(s0, starts, generated, first)
    decreases NotShorter(s0, a), 1
  {
    hide Wired, ParentsKept, StartsFresh, StartedFrom, Again, AllAgain, PostOrderList, Priors;
    WiredGrows(s0);
    StillThere(system, s0, before, a);
    var cs := a.children;
    starts := [];
    assert before + starts == before && cs[..0] == [];
    BeginNone(s0, a, generated, first);
    for i := 0 to |cs|
      invariant system.Known() && Onward(s0, a, cs[..i])
      invariant StartsFresh(s0, before + starts) && system.View() == StartedFrom(s0, before + starts)
      invariant Priors(starts) == PostOrderList(s0, a, cs[..i]) && AllAgain(s0, starts, generated, first)
    {
      assert cs[..i + 1] == cs[..i] + [cs[i]];
      starts := BeginChild(system, a, cs[..i], cs[i], generated, first, s0, before, starts);
    }
    assert cs[..|cs|] == cs;
    var own := RecreateActor(system, a, generated(first + |starts|), s0, before + starts);
    assert before + (starts + [own]) == before + starts + [own];
    PriorsConcat(starts, [own]);
    OnePrior(s0, own, generated, first + |starts|);
    AgainConcat(s0, starts, [own], generated, first);
    starts := starts + [own];
  }

  lemma WiredGrows(s: Store)
    requires Wired(s)
    ensures Grows(s)
  {
  }

  lemma OnePrior(s: Store, start: Start, generated: nat -> string, first: nat)
    requires Again(s, start, generated(first))
    ensures Priors([start]) == [start.prior] && AllAgain(s, [start], generated, first)
  {
  }

  lemma BeginNone(s: Store, a: Actor, generated: nat -> string, first: nat)
    requires Grows(s) && a in s.children
    ensures Onward(s, a, []) && Priors([]) == PostOrderList(s, a, [])
    ensures AllAgain(s, [], generated, first)
  {
  }

  /** The call on one child. */
  method BeginChild(system: ActorSystem, a: Actor, done: seq<ActorRefImpl>, child: ActorRefImpl,
                    generated: nat -> string, first: nat, ghost s0: Store, ghost before: seq<Start>, starts: seq<Start>)
    returns (starts': seq<Start>)
    requires system.Known() && Wired(s0) && ParentsKept(s0) && a in s0.children && a != s0.root
    requires StartsFresh(s0, before + starts) && system.View() == StartedFrom(s0, before + starts)
    requires Onward(s0, a, done) && Onward(s0, a, done + [child])
    requires Priors(starts) == PostOrderList(s0, a, done) && AllAgain(s0, starts, generated, first)
    modifies system`instances, system`refs
    ensures system.Known()
    ensures StartsFresh(s0, before + starts') && system.View() == StartedFrom(s0, before + starts')
    ensures Priors(starts') == PostOrderList(s0, a, done + [child]) && AllAgain(s0, starts', generated, first)
    decreases NotShorter(s0, a), 0
  {
    hide ParentsKept, StartsFresh, StartedFrom, Again, AllAgain, PostOrderList, PostOrder, Priors;
    PostOrderPush(s0, a, done, child);
    StillThere(system, s0, before + starts, a);
    LongerName(s0, a);
    assert a in NotShorter(s0, a) && a !in NotShorter(s0, s0.target[child]);
    var kids := BeginRestart(system, child.actor, generated, first + |starts|, s0, before + starts);
    PriorsConcat(starts, kids);
    AgainConcat(s0, starts, kids, generated, first);
    assert before + (starts + kids) == before + starts + kids;
    starts' := starts + kids;
  }
}
