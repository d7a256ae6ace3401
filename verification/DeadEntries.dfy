/**
 When a shutdown leaves an entry behind: `removeChild` looks for the actor's own reference, but after
 a restart the parent lists another one.
 */
module DeadEntries {
  import opened ActorTree
  import opened TidyTree
  import opened WiredTree
  import opened RestartStart
  import opened RestartRuns
  import R = Restarts

  lemma {:induction false} CountSome(target: map<ActorRefImpl, Actor>, cs: seq<ActorRefImpl>, c: ActorRefImpl, a: Actor)
    requires c in cs && c in target && target[c] == a
    ensures Count(target, cs, a) >= 1
  {
    assert cs == cs[..|cs| - 1] + [cs[|cs| - 1]];
    if c != cs[|cs| - 1] {
      CountSome(target, cs[..|cs| - 1], c, a);
    }
  }

  lemma {:induction false} CountTwo(target: map<ActorRefImpl, Actor>, cs: seq<ActorRefImpl>, c: ActorRefImpl,
                                    d: ActorRefImpl, a: Actor)
    requires c in cs && d in cs && c != d && c in target && d in target && target[c] == a && target[d] == a
    ensures Count(target, cs, a) >= 2
  {
    var rest, last := cs[..|cs| - 1], cs[|cs| - 1];
    assert cs == rest + [last];
    if c in rest && d in rest {
      CountTwo(target, rest, c, d, a);
    } else {
      CountSome(target, rest, if last == c then d else c, a);
    }
  }

  /** No entry of the list leads to `a`. */
  ghost predicate NotListed(s: Store, p: Actor, a: Actor)
    requires p in s.children
  {
    forall c :: c in s.children[p] ==> c in s.target && s.target[c] != a
  }

  /** A shutdown takes the actor off its parent's list exactly if the parent lists the actor's own reference. */
  lemma UnlistedIffOwn(s: Store, a: Actor)
    requires Tidy(s) && a in s.children && Live(s, a) && a != s.root
    ensures Placed(s, a) && CanFinish(s, a)
    ensures var p := s.target[a.parent];
      p in Finish(s, a).children && (NotListed(Finish(s, a), p, a) <==> s.self[a] in s.children[p])
  {
    assert Placed(s, a);
    var p := s.target[a.parent];
    var c := CountWitness(s.target, s.children[p], a);
    WithoutIn(s.children[p], s.self[a]);
    forall d | d in s.children[p] && d != c ensures d in s.target && s.target[d] != a {
      if d in s.target && s.target[d] == a {
        CountTwo(s.target, s.children[p], c, d, a);
      }
    }
  }

  /** The parent of `a` lists `f` before and after the shutdown of `a`. */
  ghost predicate StaysListed(s: Store, a: Actor, f: ActorRefImpl)
    requires CanFinish(s, a)
  {
    && a.parent != null && a.parent in s.target
    && var p := s.target[a.parent];
    p in s.children && p in Finish(s, a).children && f in s.children[p] && f in Finish(s, a).children[p]
  }

  lemma TidyFinishes(t: Store, n: Actor)
    requires Tidy(t) && n in t.self
    ensures CanFinish(t, n) && Wired(Finish(t, n))
  {
    ClosedIsWired(t);
    FinishWired(t, n);
  }

  lemma StaysOn(t: Store, n: Actor, f: ActorRefImpl)
    requires CanFinish(t, n) && n.parent != null && f in t.children[t.target[n.parent]] && f != t.self[n]
    ensures StaysListed(t, n, f) && n in Finish(t, n).dead
  {
    WithoutIn(t.children[t.target[n.parent]], t.self[n]);
  }

  /** After a restart the parent lists the fresh reference, and the instance holds the original one. */
  lemma FreshIsListed(s0: Store, plan: R.Plan, t: Store, o: Actor)
    requires Tidy(s0) && R.PlanOk(s0, plan) && o in plan && R.Replaced(s0, plan, t, o)
    ensures var n, f := plan[o].actor, plan[o].ref;
      && n.parent != null && n.parent in t.target && t.target[n.parent] in t.children
      && f in t.target && t.target[f] == n && f in t.children[t.target[n.parent]] && n in t.self && f != t.self[n]
  {
    var n, f := plan[o].actor, plan[o].ref;
    assert R.FreshOk(s0, plan, o);
    var siblings := t.children[t.target[n.parent]];
    NamedIn(t.target, siblings, n.name);
    assert f in Named(t.target, siblings, n.name);
  }

  /** So an actor that was restarted and is then shut down stays on its parent's list, as a dead entry. */
  lemma RestartedThenShutDown(s0: Store, plan: R.Plan, begun: Store, es: seq<R.Event>, t: Store, o: Actor)
    requires Tidy(s0) && R.PlanOk(s0, plan) && R.Begun(s0, plan, begun)
    requires R.Legal(plan, {}, {}, es) && R.Runs(plan, begun, es, t) && o in plan
    ensures var n, f := plan[o].actor, plan[o].ref;
      && f in t.target && t.target[f] == n && CanFinish(t, n) && n in Finish(t, n).dead
      && StaysListed(t, n, f) && Wired(Finish(t, n))
      && n.parent != null && n.parent in Finish(t, n).target && Finish(t, n).target[n.parent] in Finish(t, n).children
  {
    hide Tidy, R.PlanOk, R.Begun, R.Legal, R.Runs, Wired;
    R.AnyInterleavingRestarts(s0, plan, begun, es, t);
    assert R.Replaced(s0, plan, t, o);
    FreshIsListed(s0, plan, t, o);
    TidyFinishes(t, plan[o].actor);
    StaysOn(t, plan[o].actor, plan[o].ref);
  }

  /** What leaves the registry with a shutdown, and what does not change. */
  lemma FinishedState(t: Store, n: Actor)
    requires CanFinish(t, n) && t.target[t.self[n]] == n
    ensures var u := Finish(t, n); n in u.dead && n.name !in u.registry && u.root == t.root && u.target == t.target
  {
  }

  /** The dead entry is reached by a restart of the parent. */
  lemma DeadIsReached(u: Store, p: Actor, f: ActorRefImpl)
    requires Wired(u) && p in u.children && f in u.children[p]
    ensures f in u.target && u.target[f] in PostOrder(u, p)
  {
    EntryReaches(u, p, u.children[p], f, u.target[f]);
  }

  /**
   And when the parent is restarted next, the call on that entry creates the child anew, and in whatever
   order the steps come, the name of the actor that was shut down is registered again, for a fresh
   instance that is up.
   */
  lemma DeadChildIsRevived(s0: Store, plan: R.Plan, begun: Store, es: seq<R.Event>, t: Store, o: Actor,
                           u: Store, starts: seq<Start>, generated: nat -> string, order: seq<Step>, v: Store)
    requires Tidy(s0) && R.PlanOk(s0, plan) && R.Begun(s0, plan, begun)
    requires R.Legal(plan, {}, {}, es) && R.Runs(plan, begun, es, t) && o in plan
    requires CanFinish(t, plan[o].actor) && u == Finish(t, plan[o].actor)
    requires Wired(u) && o.parent != null && o.parent in u.target && u.target[o.parent] in u.children
    requires StartsFresh(u, starts) && AllAgain(u, starts, generated, 0)
    requires Priors(starts) == PostOrder(u, u.target[o.parent])
    requires o.options.name != "" && plan[o].actor.options == o.options && o.name == NameAgain(u, o, "")
    requires Legal(|starts|, {}, {}, order) && Runs(starts, StartedFrom(u, starts), order, v)
    ensures plan[o].actor in u.dead && o.name !in u.registry
    ensures exists k :: 0 <= k < |starts| && starts[k].prior == plan[o].actor && starts[k].next.name == o.name
    ensures o.name in v.registry && v.registry[o.name] !in v.dead && v.registry[o.name] !in u.children
  {
    hide Tidy, R.PlanOk, R.Begun, R.Legal, R.Runs, Closed, Runs, Legal, StartedFrom, PostOrder, Grows, Wired, Finish;
    var n, f := plan[o].actor, plan[o].ref;
    RestartedThenShutDown(s0, plan, begun, es, t, o);
    R.AnyInterleavingRestarts(s0, plan, begun, es, t);
    assert R.Replaced(s0, plan, t, o);
    FreshParent(s0, plan, o);
    FinishedState(t, n);
    DeadIsReached(u, u.target[o.parent], f);
    var k :| 0 <= k < |starts| && Priors(starts)[k] == n;
    assert Again(u, starts[k], generated(0 + k));
    NameReturns(starts, StartedFrom(u, starts), order, v, k);
    RevivedIsUp(u, starts, order, v, o.name);
  }

  lemma FreshParent(s0: Store, plan: R.Plan, o: Actor)
    requires R.PlanOk(s0, plan) && o in plan
    ensures plan[o].actor.parent == o.parent && plan[o].actor.name == o.name
  {
    assert R.FreshOk(s0, plan, o);
  }

  /** Who is registered under a name that was free is a fresh instance, and up. */
  lemma RevivedIsUp(u: Store, starts: seq<Start>, order: seq<Step>, v: Store, m: string)
    requires Wired(u) && StartsFresh(u, starts) && Runs(starts, StartedFrom(u, starts), order, v)
    requires m in v.registry && m !in u.registry
    ensures v.registry[m] !in u.children && v.registry[m] !in v.dead
  {
    hide Grows, Runs, StartedFrom;
    StartedExtends(u, starts);
    RegistryGrows(starts, StartedFrom(u, starts), order, v, m);
    NobodyGoesDown(starts, StartedFrom(u, starts), order, v);
  }
}
