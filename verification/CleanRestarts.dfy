/**
 When a restart is clean: every order of its steps ends in the old tree, with everybody replaced by one
 fresh instance, exactly if everybody that the restart reached is up and was named explicitly.
 */
module CleanRestarts {
  import opened ActorTree
  import opened TidyTree
  import opened WiredTree
  import opened RestartStart
  import opened RestartRuns
  import R = Restarts

  // ---- Subtrees -----------------------------------------------------------------------------------------

  lemma {:induction false} SiblingsDisjoint(s: Store, a: Actor, d: Actor, e: Actor, b: Actor)
    requires Closed(s) && b in s.children && d in s.children && e in s.children && d != s.root && e != s.root
    requires s.target[d.parent] == a && s.target[e.parent] == a
    requires Under(s, b, d) && Under(s, b, e)
    ensures d == e
    decreases |b.name|
  {
    if b == d || b == e {
      var other := if b == d then e else d;
      if d != e {
        UnderShorter(s, a, other);
      }
    } else {
      SiblingsDisjoint(s, a, d, e, s.target[b.parent]);
    }
  }

  lemma {:induction false} ChildAbove(s: Store, b: Actor, a: Actor) returns (d: Actor)
    requires Tidy(s) && b in s.children && Live(s, b) && Under(s, b, a) && b != a
    ensures d in s.children && Live(s, d) && d != s.root && s.target[d.parent] == a && Under(s, b, d)
    decreases |b.name|
  {
    assert Placed(s, b);
    var p := s.target[b.parent];
    if p == a {
      d := b;
    } else {
      d := ChildAbove(s, p, a);
    }
  }

  lemma {:induction false} CountAt(target: map<ActorRefImpl, Actor>, cs: seq<ActorRefImpl>, i: nat, a: Actor)
    requires i < |cs| && cs[i] in target && target[cs[i]] == a
    ensures Count(target, cs, a) >= 1 && Count(target, cs, a) > Count(target, cs[..i], a)
  {
    if i < |cs| - 1 {
      CountAt(target, cs[..|cs| - 1], i, a);
      assert cs[..|cs| - 1][..i] == cs[..i];
    } else {
      assert cs[..i] == cs[..|cs| - 1];
    }
  }

  /** An entry's actor does not occur among the entries before it. */
  lemma EntriesDistinct(s: Store, a: Actor, i: nat, j: nat)
    requires Tidy(s) && a in s.children && Live(s, a) && i < j < |s.children[a]|
    requires s.children[a][j] in s.target && s.target[s.children[a][j]] !in s.dead
    ensures s.children[a][i] in s.target && s.target[s.children[a][i]] != s.target[s.children[a][j]]
  {
    var cs := s.children[a];
    var d := s.target[cs[j]];
    assert cs[i] in cs && cs[j] in cs && EntryOk(s, a, cs[j]);
    assert Placed(s, d);
    CountAt(s.target, cs, j, d);
    if s.target[cs[i]] == d {
      CountAt(s.target, cs[..j], i, d);
    }
  }

  // ---- When everybody reached is up -----------------------------------------------------------------------

  ghost predicate NoDup(xs: seq<Actor>) {
    forall i, j :: 0 <= i < j < |xs| ==> xs[i] != xs[j]
  }

  lemma NoDupConcat(xs: seq<Actor>, ys: seq<Actor>)
    requires NoDup(xs) && NoDup(ys) && forall x :: x in xs ==> x !in ys
    ensures NoDup(xs + ys)
  {
    forall i, j | 0 <= i < j < |xs + ys| ensures (xs + ys)[i] != (xs + ys)[j] {
      if i < |xs| <= j {
        assert xs[i] in xs && ys[j - |xs|] in ys;
      }
    }
  }

  ghost predicate AllUp(s: Store, xs: seq<Actor>) {
    forall x :: x in xs ==> x !in s.dead
  }

  ghost predicate AllUnder(s: Store, xs: seq<Actor>, a: Actor)
    requires Closed(s)
  {
    forall x :: x in xs ==> x in s.children && Live(s, x) && Under(s, x, a)
  }

  ghost predicate UnderEntry(s: Store, x: Actor, c: ActorRefImpl)
    requires Closed(s) && x in s.children
  {
    c in s.target && s.target[c] !in s.dead && Under(s, x, s.target[c])
  }

  /** `x` is under an actor that is up, the one of some entry. */
  ghost predicate UnderSome(s: Store, x: Actor, cs: seq<ActorRefImpl>)
    requires Closed(s) && x in s.children
  {
    exists j :: 0 <= j < |cs| && UnderEntry(s, x, cs[j])
  }

  ghost predicate AllUnderSome(s: Store, xs: seq<Actor>, cs: seq<ActorRefImpl>)
    requires Closed(s)
  {
    forall x :: x in xs ==> x in s.children && Live(s, x) && UnderSome(s, x, cs)
  }

  lemma UpParts(s: Store, xs: seq<Actor>, ys: seq<Actor>)
    requires AllUp(s, xs + ys)
    ensures AllUp(s, xs) && AllUp(s, ys)
  {
    assert forall x :: x in xs || x in ys ==> x in xs + ys;
  }

  /** If everybody reached is up, they are different live actors under `a`. */
  lemma {:induction false} OrderIsUnder(s: Store, a: Actor)
    requires Tidy(s) && a in s.children && Live(s, a) && AllUp(s, PostOrder(s, a))
    ensures AllUnder(s, PostOrder(s, a), a) && NoDup(PostOrder(s, a))
    decreases NotShorter(s, a), 1, 0
  {
    hide Tidy, Live, PostOrderList;
    var cs := s.children[a];
    TidyParts(s);
    var kids := PostOrderList(s, a, cs);
    UpParts(s, kids, [a]);
    assert cs[..|cs|] == cs;
    ListIsUnder(s, a, |cs|);
    forall x | x in kids ensures Under(s, x, a) && x != a {
      var j :| 0 <= j < |cs| && UnderEntry(s, x, cs[j]);
      EntryIsUnder(s, a, j);
      UnderTransitive(s, x, s.target[cs[j]], a);
      UnderShorter(s, x, s.target[cs[j]]);
    }
    NoDupConcat(kids, [a]);
  }

  lemma TidyParts(s: Store)
    requires Tidy(s)
    ensures Closed(s) && Grows(s)
  {
  }

  lemma EntryIsUnder(s: Store, a: Actor, j: nat)
    requires Tidy(s) && a in s.children && Live(s, a) && j < |s.children[a]|
    ensures s.children[a][j] in s.target
    ensures var d := s.target[s.children[a][j]];
      && d in s.children && |a.name| < |d.name|
      && (d !in s.dead ==>
        Live(s, d) && d != s.root && d.parent in s.target && s.target[d.parent] == a && Under(s, d, a))
  {
    var c := s.children[a][j];
    assert c in s.children[a] && EntryOk(s, a, c);
    assert s.target[c] !in s.dead ==> Under(s, s.target[c], a);
  }

  lemma {:induction false} ListIsUnder(s: Store, a: Actor, i: nat)
    requires Tidy(s) && a in s.children && Live(s, a) && i <= |s.children[a]|
    requires Onward(s, a, s.children[a][..i]) && AllUp(s, PostOrderList(s, a, s.children[a][..i]))
    ensures var xs := PostOrderList(s, a, s.children[a][..i]);
      AllUnderSome(s, xs, s.children[a][..i]) && NoDup(xs)
    decreases NotShorter(s, a), 0, i
  {
    hide Tidy, Live, PostOrderList, PostOrder;
    var cs := s.children[a];
    TidyParts(s);
    if i == 0 {
      NobodyYet(s, a);
      assert cs[..0] == [];
    } else {
      assert cs[..i] == cs[..i - 1] + [cs[i - 1]];
      PostOrderPush(s, a, cs[..i - 1], cs[i - 1]);
      EntryIsUnder(s, a, i - 1);
      var d := s.target[cs[i - 1]];
      var before, own := PostOrderList(s, a, cs[..i - 1]), PostOrder(s, d);
      UpParts(s, before, own);
      LastInOrder(s, d);
      NotShorterDrops(s, s, a, cs[i - 1]);
      ListIsUnder(s, a, i - 1);
      OrderIsUnder(s, d);
      forall x | x in before ensures x !in own {
        NotUnderBoth(s, a, i - 1, x);
      }
      NoDupConcat(before, own);
      forall x | x in before + own ensures x in s.children && Live(s, x) && UnderSome(s, x, cs[..i]) {
        SomeGrows(s, x, cs[..i - 1], cs[i - 1]);
      }
    }
  }

  lemma NobodyYet(s: Store, a: Actor)
    requires Grows(s) && a in s.children
    ensures Onward(s, a, []) && PostOrderList(s, a, []) == []
  {
  }

  lemma LastInOrder(s: Store, a: Actor)
    requires Grows(s) && a in s.children
    ensures a in PostOrder(s, a)
  {
  }

  lemma SomeGrows(s: Store, x: Actor, cs: seq<ActorRefImpl>, c: ActorRefImpl)
    requires Closed(s) && x in s.children && c in s.target
    requires UnderSome(s, x, cs) || UnderEntry(s, x, c)
    ensures UnderSome(s, x, cs + [c])
  {
    if UnderSome(s, x, cs) {
      var j :| 0 <= j < |cs| && UnderEntry(s, x, cs[j]);
      assert (cs + [c])[j] == cs[j];
    } else {
      assert (cs + [c])[|cs|] == c;
    }
  }

  lemma NotUnderBoth(s: Store, a: Actor, i: nat, x: Actor)
    requires Tidy(s) && a in s.children && Live(s, a) && i < |s.children[a]|
    requires s.children[a][i] in s.target && s.target[s.children[a][i]] !in s.dead
    requires x in s.children && Live(s, x) && x !in s.dead && UnderSome(s, x, s.children[a][..i])
    ensures !Under(s, x, s.target[s.children[a][i]])
  {
    var cs := s.children[a];
    var j :| 0 <= j < i && UnderEntry(s, x, cs[..i][j]);
    EntriesDistinct(s, a, j, i);
    EntryIsUnder(s, a, i);
    EntryIsUnder(s, a, j);
    if Under(s, x, s.target[cs[i]]) {
      SiblingsDisjoint(s, a, s.target[cs[i]], s.target[cs[j]], x);
    }
  }

  /** Every live actor under `a` is reached. */
  lemma {:induction false} LiveIsReached(s: Store, b: Actor, a: Actor)
    requires Tidy(s) && a in s.children && Live(s, a) && b in s.children && Live(s, b) && Under(s, b, a)
    ensures b in PostOrder(s, a)
    decreases NotShorter(s, a)
  {
    hide PostOrderList;
    if b != a {
      var d := ChildAbove(s, b, a);
      assert Placed(s, d);
      var c := CountWitness(s.target, s.children[a], d);
      NotShorterDrops(s, s, a, c);
      LiveIsReached(s, b, d);
      EntryReaches(s, a, s.children[a], c, b);
    }
  }

  /** If everybody a restart reaches is up, it reaches each live actor under `a` once, and nobody else. */
  lemma ReachesLiveOnce(s: Store, a: Actor)
    requires Tidy(s) && a in s.children && Live(s, a) && AllUp(s, PostOrder(s, a))
    ensures NoDup(PostOrder(s, a))
    ensures forall b :: b in PostOrder(s, a) ==> b in s.children && Live(s, b) && Under(s, b, a)
    ensures forall b :: b in s.children && Live(s, b) && Under(s, b, a) ==> b in PostOrder(s, a)
  {
    OrderIsUnder(s, a);
    forall b | b in s.children && Live(s, b) && Under(s, b, a) ensures b in PostOrder(s, a) {
      LiveIsReached(s, b, a);
    }
  }

  /** Where their branches part, that of `x` is listed before that of `y`. */
  ghost predicate ListedBefore(s: Store, x: Actor, y: Actor)
    requires Closed(s) && x in s.children && y in s.children
  {
    exists b, p, q :: b in s.children && 0 <= p < q < |s.children[b]|
                      && UnderEntry(s, x, s.children[b][p]) && UnderEntry(s, y, s.children[b][q])
  }

  ghost predicate Precedes(s: Store, x: Actor, y: Actor)
    requires Closed(s)
  {
    x in s.children && y in s.children && (Under(s, x, y) || ListedBefore(s, x, y))
  }

  lemma BlocksInOrder(s: Store, a: Actor, n: nat, x: Actor, y: Actor)
    requires Tidy(s) && a in s.children && n < |s.children[a]| && x in s.children && y in s.children
    requires UnderSome(s, x, s.children[a][..n]) && UnderEntry(s, y, s.children[a][n])
    ensures Precedes(s, x, y)
  {
    var p :| 0 <= p < n && UnderEntry(s, x, s.children[a][..n][p]);
    assert UnderEntry(s, x, s.children[a][p]);
  }

  lemma {:induction false} ListInOrder(s: Store, a: Actor, n: nat, i: nat, j: nat)
    requires Tidy(s) && a in s.children && Live(s, a) && n <= |s.children[a]|
    requires Onward(s, a, s.children[a][..n]) && AllUp(s, PostOrderList(s, a, s.children[a][..n]))
    requires i < j < |PostOrderList(s, a, s.children[a][..n])|
    ensures var xs := PostOrderList(s, a, s.children[a][..n]); Precedes(s, xs[i], xs[j])
    decreases NotShorter(s, a), 0, n
  {
    hide Tidy, Live, PostOrderList, PostOrder, Precedes, UnderSome;
    var cs := s.children[a];
    TidyParts(s);
    NobodyYet(s, a);
    assert cs[..0] == [];
    if n > 0 {
      assert cs[..n] == cs[..n - 1] + [cs[n - 1]];
      PostOrderPush(s, a, cs[..n - 1], cs[n - 1]);
      EntryIsUnder(s, a, n - 1);
      var d := s.target[cs[n - 1]];
      var before, own := PostOrderList(s, a, cs[..n - 1]), PostOrder(s, d);
      UpParts(s, before, own);
      LastInOrder(s, d);
      NotShorterDrops(s, s, a, cs[n - 1]);
      if j < |before| {
        ListInOrder(s, a, n - 1, i, j);
      } else if i >= |before| {
        OrderIsDepthFirst(s, d, i - |before|, j - |before|);
      } else {
        ListIsUnder(s, a, n - 1);
        OrderIsUnder(s, d);
        assert before[i] in before && own[j - |before|] in own;
        BlocksInOrder(s, a, n - 1, before[i], own[j - |before|]);
      }
    }
  }

  /** Children before their parent, and branches in the order of the lists. */
  lemma {:induction false} OrderIsDepthFirst(s: Store, a: Actor, i: nat, j: nat)
    requires Tidy(s) && a in s.children && Live(s, a) && AllUp(s, PostOrder(s, a)) && i < j < |PostOrder(s, a)|
    ensures Precedes(s, PostOrder(s, a)[i], PostOrder(s, a)[j])
    decreases NotShorter(s, a), 1, 0
  {
    hide Tidy, Live, PostOrderList;
    var cs := s.children[a];
    TidyParts(s);
    var kids := PostOrderList(s, a, cs);
    UpParts(s, kids, [a]);
    assert cs[..|cs|] == cs;
    if j < |kids| {
      ListInOrder(s, a, |cs|, i, j);
    } else {
      OrderIsUnder(s, a);
      assert PostOrder(s, a)[i] in PostOrder(s, a) && a in PostOrder(s, a);
    }
  }

  // ---- Extending a started plan ---------------------------------------------------------------------------

  lemma PlanMore(s0: Store, plan: R.Plan, s: Store, a: Actor, n: Actor, f: ActorRefImpl)
    requires R.PlanOk(s0, plan) && R.Begun(s0, plan, s) && a !in plan && Live(s0, a) && a != s0.root
    requires n !in s.children && f !in s.target && n.name == a.name && n.parent == a.parent
    ensures R.PlanOk(s0, plan[a := R.Fresh(n, f)])
  {
    var plan' := plan[a := R.Fresh(n, f)];
    forall o {:trigger plan'[o]} | o in plan' ensures R.FreshOk(s0, plan', o) {
      assert o != a ==> R.FreshOk(s0, plan, o);
    }
  }

  lemma NewMore(plan: R.Plan, a: Actor, renewed: R.Fresh, x: Actor)
    requires a !in plan && R.IsNew(plan, x)
    ensures R.IsNew(plan[a := renewed], x)
  {
    var o: Actor :| o in plan && plan[o].actor == x;
    assert plan[a := renewed][o].actor == x;
  }

  lemma NewRefMore(plan: R.Plan, a: Actor, renewed: R.Fresh, r: ActorRefImpl)
    requires a !in plan && R.IsNewRef(plan, r)
    ensures R.IsNewRef(plan[a := renewed], r)
  {
    var o: Actor :| o in plan && plan[o].ref == r;
    assert plan[a := renewed][o].ref == r;
  }

  lemma ListsMore(s0: Store, plan: R.Plan, s: Store, a: Actor, n: Actor, f: ActorRefImpl)
    requires R.BegunLists(s0, plan, s) && a !in plan && n !in s.children
    ensures R.BegunLists(s0, plan[a := R.Fresh(n, f)], s.(children := s.children[n := []]))
  {
    var plan' := plan[a := R.Fresh(n, f)];
    assert plan'[a].actor == n;
    forall x | x in s.children && x !in s0.children ensures R.IsNew(plan', x) {
      NewMore(plan, a, plan'[a], x);
    }
  }

  lemma SelvesMore(s0: Store, plan: R.Plan, s: Store, a: Actor, n: Actor, f: ActorRefImpl)
    requires R.BegunSelves(s0, plan, s) && a !in plan && n !in s.self
    ensures R.BegunSelves(s0, plan[a := R.Fresh(n, f)], s.(self := s.self[n := f]))
  {
    var plan' := plan[a := R.Fresh(n, f)];
    assert plan'[a].actor == n;
    forall x | x in s.self && x !in s0.self ensures R.IsNew(plan', x) {
      NewMore(plan, a, plan'[a], x);
    }
  }

  lemma TargetsMore(s0: Store, plan: R.Plan, s: Store, a: Actor, n: Actor, f: ActorRefImpl)
    requires R.BegunTargets(s0, plan, s) && a !in plan && f !in s.target
    ensures R.BegunTargets(s0, plan[a := R.Fresh(n, f)], s.(target := s.target[f := n]))
  {
    var plan' := plan[a := R.Fresh(n, f)];
    assert plan'[a].ref == f;
    forall r | r in s.target && r !in s0.target ensures R.IsNewRef(plan', r) {
      NewRefMore(plan, a, plan'[a], r);
    }
  }

  lemma BegunMore(s0: Store, plan: R.Plan, s: Store, a: Actor, n: Actor, f: ActorRefImpl)
    requires R.Begun(s0, plan, s) && a !in plan
    requires n !in s.children && f !in s.target && n !in s.self
    ensures R.Begun(s0, plan[a := R.Fresh(n, f)], Instantiate(s, n, f))
  {
    ListsMore(s0, plan, s, a, n, f);
    SelvesMore(s0, plan, s, a, n, f);
    TargetsMore(s0, plan, s, a, n, f);
  }

  // ---- The plan -------------------------------------------------------------------------------------------

  /** Who is replaced by whom. */
  ghost function PlanOf(starts: seq<Start>): R.Plan {
    if starts == [] then map[]
    else
      var last := starts[|starts| - 1];
      PlanOf(starts[..|starts| - 1])[last.prior := R.Fresh(last.next, last.ref)]
  }

  lemma {:induction false} PlanKeys(starts: seq<Start>, o: Actor)
    ensures o in PlanOf(starts) <==> o in Priors(starts)
  {
    if starts != [] {
      PlanKeys(starts[..|starts| - 1], o);
    }
  }

  lemma {:induction false} PlanAt(starts: seq<Start>, k: nat)
    requires NoDup(Priors(starts)) && k < |starts|
    ensures starts[k].prior in PlanOf(starts)
    ensures PlanOf(starts)[starts[k].prior] == R.Fresh(starts[k].next, starts[k].ref)
  {
    if k < |starts| - 1 {
      var before := starts[..|starts| - 1];
      assert Priors(starts)[k] != Priors(starts)[|starts| - 1];
      assert Priors(before) == Priors(starts)[..|before|];
      PlanAt(before, k);
    }
  }

  /** The start is of a live actor and gives it a namesake. */
  ghost predicate Keeps(s0: Store, start: Start) {
    && start.prior in s0.children && Live(s0, start.prior) && start.prior != s0.root
    && start.next.name == start.prior.name && start.next.parent == start.prior.parent
  }

  ghost predicate AllKeep(s0: Store, starts: seq<Start>) {
    forall k {:trigger starts[k]} :: 0 <= k < |starts| ==> Keeps(s0, starts[k])
  }

  lemma {:induction false} PlanBegun(s0: Store, starts: seq<Start>)
    requires Tidy(s0) && StartsFresh(s0, starts) && NoDup(Priors(starts)) && AllKeep(s0, starts)
    ensures R.PlanOk(s0, PlanOf(starts)) && R.Begun(s0, PlanOf(starts), StartedFrom(s0, starts))
  {
    hide Tidy, R.PlanOk, R.Begun;
    TidySized(s0);
    if starts == [] {
      NothingBegun(s0);
    } else {
      var before, last := starts[..|starts| - 1], starts[|starts| - 1];
      assert Priors(before) == Priors(starts)[..|before|];
      PlanBegun(s0, before);
      LastIsNew(s0, starts);
      assert Keeps(s0, last);
      PlanKeys(before, last.prior);
      assert last.prior !in Priors(before) by {
        assert Priors(starts)[|before|] == last.prior;
      }
      var s := StartedFrom(s0, before);
      StartedExtends(s0, before);
      PlanMore(s0, PlanOf(before), s, last.prior, last.next, last.ref);
      NotHeld(s0, before, last.next);
      BegunMore(s0, PlanOf(before), s, last.prior, last.next, last.ref);
    }
  }

  lemma TidySized(s: Store)
    requires Tidy(s)
    ensures SelfSized(s) && Wired(s)
  {
    ClosedIsWired(s);
  }

  lemma NothingBegun(s: Store)
    requires Tidy(s)
    ensures R.PlanOk(s, map[]) && R.Begun(s, map[], s)
  {
  }

  /** Who is not there has no reference. */
  lemma {:induction false} NotHeld(s0: Store, starts: seq<Start>, a: Actor)
    requires SelfSized(s0) && a !in StartedFrom(s0, starts).children
    ensures a !in StartedFrom(s0, starts).self
  {
    if starts != [] {
      NotHeld(s0, starts[..|starts| - 1], a);
    }
  }

  // ---- Every order ends in the old tree -------------------------------------------------------------------

  ghost function PriorsOf(starts: seq<Start>, ks: set<nat>): set<Actor> {
    set k | k in ks && k < |starts| :: starts[k].prior
  }

  lemma DifferentPriors(starts: seq<Start>, j: nat, k: nat)
    requires NoDup(Priors(starts)) && j < |starts| && k < |starts| && j != k
    ensures starts[j].prior != starts[k].prior
  {
    hide Priors;
    if j < k {
      assert Priors(starts)[j] != Priors(starts)[k];
    } else {
      assert Priors(starts)[k] != Priors(starts)[j];
    }
  }

  lemma PriorsOfMore(starts: seq<Start>, ks: set<nat>, k: nat)
    requires NoDup(Priors(starts)) && k < |starts| && k !in ks
    ensures starts[k].prior !in PriorsOf(starts, ks)
    ensures PriorsOf(starts, ks + {k}) == PriorsOf(starts, ks) + {starts[k].prior}
  {
    hide NoDup, Priors;
    if starts[k].prior in PriorsOf(starts, ks) {
      var j :| j in ks && j < |starts| && starts[j].prior == starts[k].prior;
      DifferentPriors(starts, j, k);
    }
    assert k in ks + {k} && forall j :: j in ks ==> j in ks + {k};
  }

  lemma PriorsOfAll(starts: seq<Start>)
    ensures PriorsOf(starts, Indices(|starts|)) == PlanOf(starts).Keys
  {
    forall o ensures o in PriorsOf(starts, Indices(|starts|)) <==> o in PlanOf(starts) {
      PlanKeys(starts, o);
      if o in Priors(starts) {
        var k :| 0 <= k < |starts| && Priors(starts)[k] == o;
        assert k in Indices(|starts|);
      }
    }
  }

  /** For a planned actor that has registered, the step on the heap is the step of the plan. */
  lemma RewireIsPlanned(s0: Store, plan: R.Plan, reg: set<Actor>, rew: set<Actor>, s: Store, o: Actor)
    requires Tidy(s0) && R.PlanOk(s0, plan) && R.Mid(s0, plan, reg, rew, s) && o in reg && o !in rew
    ensures CanReplace(s, o, plan[o].ref)
    ensures R.Mid(s0, plan, reg, rew + {o}, RewireTree(s, o, plan[o].ref))
  {
    hide Tidy, R.PlanOk, Closed, R.ListsOk, R.TargetsOk, R.InstancesOk, R.RegistryOk;
    R.RewireMid(s0, plan, reg, rew, s, o);
    RewireTreeIsRewire(s, o, plan[o].actor);
  }

  lemma {:induction false} StepsMid(s0: Store, starts: seq<Start>, reg: set<nat>, rew: set<nat>, s: Store,
                                    es: seq<Step>, t: Store)
    requires Tidy(s0) && NoDup(Priors(starts)) && R.PlanOk(s0, PlanOf(starts))
    requires R.Mid(s0, PlanOf(starts), PriorsOf(starts, reg), PriorsOf(starts, rew), s)
    requires reg <= Indices(|starts|) && Legal(|starts|, reg, rew, es) && Runs(starts, s, es, t)
    ensures R.Finished(s0, PlanOf(starts), t)
    decreases |es|
  {
    hide Tidy, NoDup, R.PlanOk, R.Mid, R.Finished, PlanOf, PriorsOf, RewireTree, CanReplace;
    var plan := PlanOf(starts);
    if es == [] {
      PriorsOfAll(starts);
      R.FinishedIf(s0, plan, t);
    } else {
      var k := es[0].k;
      PlanAt(starts, k);
      match es[0]
      case Registers(_) =>
        PriorsOfMore(starts, reg, k);
        R.RegisterMid(s0, plan, PriorsOf(starts, reg), PriorsOf(starts, rew), s, starts[k].prior);
        StepsMid(s0, starts, reg + {k}, rew, After(starts, s, es[0]), es[1..], t);
      case Rewires(_) =>
        PriorsOfMore(starts, rew, k);
        IsPriorOf(starts, reg, k);
        RewireIsPlanned(s0, plan, PriorsOf(starts, reg), PriorsOf(starts, rew), s, starts[k].prior);
        StepsMid(s0, starts, reg, rew + {k}, After(starts, s, es[0]), es[1..], t);
    }
  }

  lemma IsPriorOf(starts: seq<Start>, ks: set<nat>, k: nat)
    requires k in ks && k < |starts|
    ensures starts[k].prior in PriorsOf(starts, ks)
  {
  }

  // ---- The theorem ----------------------------------------------------------------------------------------

  /** A generated name is new, and of the same length as any other. */
  ghost predicate GeneratedNew(s0: Store, starts: seq<Start>) {
    forall k {:trigger starts[k]} :: 0 <= k < |starts| && starts[k].prior.options.name == "" ==>
      starts[k].next.name !in s0.registry && |starts[k].next.name| == |starts[k].prior.name|
  }

  /** What `BeginRestart` on `a` leaves behind. */
  ghost predicate Restarting(s0: Store, a: Actor, starts: seq<Start>, generated: nat -> string) {
    && Tidy(s0) && NamesHeld(s0) && a in s0.children && Live(s0, a) && a != s0.root
    && StartsFresh(s0, starts) && Priors(starts) == PostOrder(s0, a)
    && AllAgain(s0, starts, generated, 0) && GeneratedNew(s0, starts)
  }

  /** The actor was not restarted and is the same, or one of its fresh instances has taken its place. */
  ghost predicate Renewal(starts: seq<Start>, o: Actor, x: Actor) {
    || (x == o && o !in Priors(starts))
    || exists k :: 0 <= k < |starts| && starts[k].prior == o && starts[k].next == x
  }

  /** A tidy tree of the old names, with everybody who was restarted replaced. */
  ghost predicate Clean(s0: Store, starts: seq<Start>, t: Store) {
    && Tidy(t) && t.registry.Keys == s0.registry.Keys
    && forall m {:trigger t.registry[m]} :: m in t.registry && m in s0.registry ==>
      Renewal(starts, s0.registry[m], t.registry[m])
  }

  /** Everybody reached is up and has a name of its own. */
  ghost predicate UpAndNamed(s0: Store, xs: seq<Actor>) {
    forall x :: x in xs ==> x !in s0.dead && x.options.name != ""
  }

  lemma StartNamed(s0: Store, a: Actor, starts: seq<Start>, generated: nat -> string, k: nat)
    requires Restarting(s0, a, starts, generated) && k < |starts|
    ensures |starts[k].next.name| == |starts[k].prior.name|
    ensures starts[k].prior.options.name != "" ==> starts[k].next.name == starts[k].prior.name
    ensures starts[k].prior.options.name == "" ==> starts[k].next.name !in s0.registry
    ensures starts[k].next.parent == starts[k].prior.parent
  {
    assert Again(s0, starts[k], generated(0 + k));
  }

  lemma AreUnderWay(s0: Store, a: Actor, starts: seq<Start>, generated: nat -> string)
    requires Restarting(s0, a, starts, generated)
    ensures UnderWay(s0, starts, StartedFrom(s0, starts))
  {
    hide Tidy, StartsFresh, AllAgain, GeneratedNew, NamesHeld, Live, PostOrder;
    TidySized(s0);
    forall k | 0 <= k < |starts| ensures |starts[k].next.name| == |starts[k].prior.name| {
      StartNamed(s0, a, starts, generated, k);
    }
    StartsUnderWay(s0, starts, generated);
  }

  lemma AllKeepNames(s0: Store, a: Actor, starts: seq<Start>, generated: nat -> string)
    requires Restarting(s0, a, starts, generated) && UpAndNamed(s0, PostOrder(s0, a))
    ensures NoDup(Priors(starts)) && AllKeep(s0, starts)
  {
    hide Tidy, StartsFresh, AllAgain, GeneratedNew, NamesHeld, Live, PostOrder, NoDup;
    TidyParts(s0);
    OrderIsUnder(s0, a);
    LongerThanRoot(s0, a);
    forall k {:trigger starts[k]} | 0 <= k < |starts| ensures Keeps(s0, starts[k]) {
      assert Priors(starts)[k] in PostOrder(s0, a);
      StartNamed(s0, a, starts, generated, k);
      UnderShorter(s0, starts[k].prior, a);
    }
  }

  /** The positive half, with all that the plan says about the final tree. */
  lemma CleanIfUpAndNamed(s0: Store, a: Actor, starts: seq<Start>, generated: nat -> string, es: seq<Step>, t: Store)
    requires Restarting(s0, a, starts, generated) && UpAndNamed(s0, PostOrder(s0, a))
    requires Legal(|starts|, {}, {}, es) && Runs(starts, StartedFrom(s0, starts), es, t)
    ensures Clean(s0, starts, t) && R.SameShape(s0, PlanOf(starts), t)
    ensures forall o :: o in PlanOf(starts) ==> R.Replaced(s0, PlanOf(starts), t, o)
  {
    hide Tidy, AllAgain, GeneratedNew, NamesHeld, NoDup, AllKeep, Live, R.PlanOk, R.Begun, R.Mid, PlanOf, PostOrder,
      StartsFresh, StartedFrom, R.Replaced, Clean, R.SameShape, R.Finished, Runs, Legal, UpAndNamed;
    var plan := PlanOf(starts);
    AllKeepNames(s0, a, starts, generated);
    PlanBegun(s0, starts);
    R.BegunMid(s0, plan, StartedFrom(s0, starts));
    assert PriorsOf(starts, {}) == {};
    StepsMid(s0, starts, {}, {}, StartedFrom(s0, starts), es, t);
    R.FinalTidy(s0, plan, t);
    R.FinalShape(s0, plan, t);
    forall o | o in plan ensures R.Replaced(s0, plan, t, o) {
      R.FinalReplaced(s0, plan, t, o);
    }
    ShapeIsClean(s0, starts, t);
  }

  lemma ShapeIsClean(s0: Store, starts: seq<Start>, t: Store)
    requires Tidy(t) && NoDup(Priors(starts)) && R.SameShape(s0, PlanOf(starts), t)
    ensures Clean(s0, starts, t)
  {
    hide Tidy, NoDup, PlanOf;
    forall m {:trigger t.registry[m]} | m in t.registry && m in s0.registry
      ensures Renewal(starts, s0.registry[m], t.registry[m])
    {
      var o := s0.registry[m];
      PlanKeys(starts, o);
      if o in Priors(starts) {
        var k :| 0 <= k < |starts| && Priors(starts)[k] == o;
        PlanAt(starts, k);
      }
    }
  }

  /** An order in which start number `k` registers after all the others. */
  lemma {:induction false} RegisteredLast(s0: Store, starts: seq<Start>, s: Store, reg: set<nat>, rew: set<nat>, k: nat)
    returns (es: seq<Step>, t: Store)
    requires UnderWay(s0, starts, s) && k < |starts| && rew <= reg <= Indices(|starts|)
    requires k in reg ==> reg == Indices(|starts|) && starts[k].next.name in s.registry
    requires k in reg ==> s.registry[starts[k].next.name] == starts[k].next
    ensures Legal(|starts|, reg, rew, es) && Runs(starts, s, es, t)
    ensures starts[k].next.name in t.registry && t.registry[starts[k].next.name] == starts[k].next
    decreases Indices(|starts|) - reg, Indices(|starts|) - rew
  {
    hide UnderWay, Enabled;
    var all, rest := Indices(|starts|), [];
    if j :| j in all && j !in reg && j != k {
      StepUnderWay(s0, starts, s, Registers(j));
      rest, t := RegisteredLast(s0, starts, After(starts, s, Registers(j)), reg + {j}, rew, k);
      es := [Registers(j)] + rest;
    } else if k !in reg {
      StepUnderWay(s0, starts, s, Registers(k));
      rest, t := RegisteredLast(s0, starts, After(starts, s, Registers(k)), reg + {k}, rew, k);
      es := [Registers(k)] + rest;
    } else if j :| j in all && j !in rew {
      StepUnderWay(s0, starts, s, Rewires(j));
      rest, t := RegisteredLast(s0, starts, After(starts, s, Rewires(j)), reg, rew + {j}, k);
      es := [Rewires(j)] + rest;
    } else {
      es, t := [], s;
    }
    assert es != [] ==> es[1..] == rest;
  }

  /** The negative half: somebody else is registered at the end of some order. */
  lemma UncleanIfNot(s0: Store, a: Actor, starts: seq<Start>, generated: nat -> string, k: nat)
    returns (es: seq<Step>, t: Store)
    requires Restarting(s0, a, starts, generated) && k < |starts|
    requires starts[k].prior in s0.dead || starts[k].prior.options.name == ""
    ensures Legal(|starts|, {}, {}, es) && Runs(starts, StartedFrom(s0, starts), es, t)
    ensures starts[k].next.name in t.registry && t.registry[starts[k].next.name] == starts[k].next
    ensures !Clean(s0, starts, t)
  {
    hide Tidy, AllAgain, GeneratedNew, NamesHeld, Live, PostOrder, StartedFrom, UnderWay, Runs, Legal;
    AreUnderWay(s0, a, starts, generated);
    StartNamed(s0, a, starts, generated, k);
    es, t := RegisteredLast(s0, starts, StartedFrom(s0, starts), {}, {}, k);
    if Clean(s0, starts, t) {
      NotRenewed(s0, starts, k, starts[k].next.name);
    }
  }

  lemma NotRenewed(s0: Store, starts: seq<Start>, k: nat, m: string)
    requires Tidy(s0) && StartsFresh(s0, starts) && k < |starts| && starts[k].prior in s0.dead && m in s0.registry
    ensures !Renewal(starts, s0.registry[m], starts[k].next)
  {
    var o := s0.registry[m];
    assert o !in s0.dead && o in s0.children;
    forall j | 0 <= j < |starts| && starts[j].next == starts[k].next ensures starts[j].prior != o {
    }
  }

  /**
   A restart ends in the old tree, whatever the order of its steps, exactly if everybody it reaches through
   the entries is up and was named explicitly.
   */
  lemma RestartIsCleanIff(s0: Store, a: Actor, starts: seq<Start>, generated: nat -> string)
    requires Restarting(s0, a, starts, generated)
    ensures (forall es, t :: Legal(|starts|, {}, {}, es) && Runs(starts, StartedFrom(s0, starts), es, t) ==>
              Clean(s0, starts, t))
            <==> UpAndNamed(s0, PostOrder(s0, a))
  {
    hide Tidy, AllAgain, GeneratedNew, NamesHeld, Live, PostOrder, StartsFresh, StartedFrom, Runs, Legal, Clean;
    TidyParts(s0);
    if UpAndNamed(s0, PostOrder(s0, a)) {
      forall es, t | Legal(|starts|, {}, {}, es) && Runs(starts, StartedFrom(s0, starts), es, t)
        ensures Clean(s0, starts, t)
      {
        CleanIfUpAndNamed(s0, a, starts, generated, es, t);
      }
    } else {
      var x :| x in PostOrder(s0, a) && (x in s0.dead || x.options.name == "");
      var k :| 0 <= k < |starts| && Priors(starts)[k] == x;
      var es, t := UncleanIfNot(s0, a, starts, generated, k);
    }
  }
}
