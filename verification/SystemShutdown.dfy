/**
 The shutdown of the whole system: the inbox keeps delivering while the actors go down, and is stopped
 once the call on the system actor has returned.
 */
module SystemShutdown {
  import opened ActorTree
  import opened TidyTree
  import opened Deliveries
  import D = Shutdowns
  import P = ShutdownProgress

  datatype Closing = Closing(down: D.Down, sys: System)

  datatype Move = Shut(call: D.Event) | Inbox(event: Event)

  /** A call on the system actor has returned. */
  ghost predicate RootReturned(down: D.Down) {
    exists t :: 0 <= t < |down.tasks| && down.tasks[t].actor == down.store.root && down.tasks[t].stage.Done?
  }

  /** The step of the tree when the call `t` marks its actor. */
  ghost function Marked(down: D.Down, t: nat): TreeStep
    requires D.Enabled(down, D.Mark(t))
  {
    var a := down.tasks[t].actor;
    WentDown(a, down.store.target[down.store.self[a]].name)
  }

  /** A step of some shutdown call; marking an actor is the step of the tree. */
  ghost predicate ShutMoves(c: Closing, e: D.Event, c': Closing) {
    && D.Enabled(c.down, e) && c'.down == D.Next(c.down, e)
    && if e.Mark? then Steps(c.sys, Tree(Marked(c.down, e.t)), c'.sys) else c'.sys == c.sys
  }

  /** A step of some shutdown, or of the inbox; the inbox is stopped only after the system actor is down. */
  ghost predicate Moves(c: Closing, m: Move, c': Closing) {
    match m
    case Shut(call) => ShutMoves(c, call, c')
    case Inbox(event) =>
      && !event.Tree? && (event.Stop? ==> RootReturned(c.down))
      && Steps(c.sys, event, c'.sys) && c'.down == c.down
  }

  /** A system at work, in a tidy tree, with no creation in flight. */
  ghost predicate Begins(c: Closing) {
    && Tidy(c.sys.store) && c.sys.store.root !in c.sys.store.dead && c.sys.pending == {} && !c.sys.stopped
    && c.down == D.Start(c.sys.store)
  }

  ghost predicate Closes(ms: seq<Move>, cs: seq<Closing>) {
    && |cs| == |ms| + 1 && Begins(cs[0])
    && forall i :: 0 <= i < |ms| ==> Moves(cs[i], ms[i], cs[i + 1])
  }

  function Shuts(ms: seq<Move>): seq<D.Event> {
    if ms == [] then []
    else
      var rest := Shuts(ms[..|ms| - 1]);
      if ms[|ms| - 1].Shut? then rest + [ms[|ms| - 1].call] else rest
  }

  lemma ShutsPush(ms: seq<Move>, m: Move)
    ensures Shuts(ms + [m]) == if m.Shut? then Shuts(ms) + [m.call] else Shuts(ms)
  {
    assert (ms + [m])[..|ms|] == ms;
  }

  lemma MoveKeepsStore(c: Closing, m: Move, c': Closing)
    requires Moves(c, m, c') && c.sys.store == c.down.store
    ensures c'.sys.store == c'.down.store
    ensures |c'.sys.handlings| >= |c.sys.handlings|
    ensures c.sys.stopped ==> c'.sys.stopped && |c'.sys.handlings| == |c.sys.handlings|
    ensures c.sys.stopped ==> |c'.sys.scheduled| == |c.sys.scheduled|
    ensures forall k :: 0 <= k < |c.sys.handlings| ==>
      c'.sys.handlings[k].(race := c.sys.handlings[k].race) == c.sys.handlings[k]
    ensures c'.sys.stopped && !c.sys.stopped ==> RootReturned(c'.down)
  {
    if m.Shut? && m.call.Mark? {
      TreeLeavesDeliveries(c.sys, Marked(c.down, m.call.t), c'.sys);
    }
  }

  lemma ReturnedStays(d: D.Down, e: D.Event)
    requires RootReturned(d) && D.Enabled(d, e)
    ensures RootReturned(D.Next(d, e))
  {
    var d' := D.Next(d, e);
    var t :| 0 <= t < |d.tasks| && d.tasks[t].actor == d.store.root && d.tasks[t].stage.Done?;
    assert d'.tasks[t] == d.tasks[t] && d'.store.root == d.store.root;
  }

  /** The tree moves exactly as the calls say, and a stopped inbox means that the system actor's call has returned. */
  lemma {:induction false} InStep(ms: seq<Move>, cs: seq<Closing>, k: nat)
    requires Closes(ms, cs) && k < |cs|
    ensures cs[k].sys.store == cs[k].down.store
    ensures D.Runs(D.Start(cs[0].sys.store), Shuts(ms[..k]), cs[k].down)
    ensures cs[k].sys.stopped ==> RootReturned(cs[k].down)
  {
    hide Tidy, Steps, D.Enabled, D.Next;
    if k > 0 {
      var c, m := cs[k - 1], ms[k - 1];
      InStep(ms, cs, k - 1);
      MoveKeepsStore(c, m, cs[k]);
      assert ms[..k] == ms[..k - 1] + [m];
      ShutsPush(ms[..k - 1], m);
      if m.Shut? {
        OneMore(c.down, m.call);
        P.RunsOn(D.Start(cs[0].sys.store), Shuts(ms[..k - 1]), c.down, [m.call], cs[k].down);
        if RootReturned(c.down) {
          ReturnedStays(c.down, m.call);
        }
      }
    }
  }

  lemma OneMore(d: D.Down, e: D.Event)
    requires D.Enabled(d, e)
    ensures D.Runs(d, [e], D.Next(d, e))
  {
    assert [e][1..] == [];
  }

  lemma {:induction false} DeliveriesStay(ms: seq<Move>, cs: seq<Closing>, i: nat, j: nat)
    requires Closes(ms, cs) && i <= j < |cs| && cs[i].sys.stopped
    ensures cs[j].sys.stopped && |cs[j].sys.handlings| == |cs[i].sys.handlings|
    ensures |cs[j].sys.scheduled| == |cs[i].sys.scheduled|
    ensures forall k :: 0 <= k < |cs[i].sys.handlings| ==>
      cs[j].sys.handlings[k].(race := cs[i].sys.handlings[k].race) == cs[i].sys.handlings[k]
  {
    hide Tidy, Moves;
    if i < j {
      DeliveriesStay(ms, cs, i, j - 1);
      InStep(ms, cs, j - 1);
      MoveKeepsStore(cs[j - 1], ms[j - 1], cs[j]);
    }
  }

  /**
   Once the shutdown of the system has stopped the inbox, and ever after: the registry is empty, every
   actor that was up is down, nothing more is scheduled, and nothing is delivered that was not being
   delivered before, whenever it was sent or scheduled.
   */
  lemma NothingIsLeft(ms: seq<Move>, cs: seq<Closing>, i: nat, j: nat)
    requires Closes(ms, cs) && i <= j < |cs| && cs[i].sys.stopped
    ensures cs[j].sys.store.registry == map[]
    ensures forall b :: b in cs[0].sys.store.children && Live(cs[0].sys.store, b) ==> b in cs[j].sys.store.dead
    ensures |cs[j].sys.handlings| == |cs[i].sys.handlings| && |cs[j].sys.scheduled| == |cs[i].sys.scheduled|
    ensures forall k :: 0 <= k < |cs[i].sys.handlings| ==>
      cs[j].sys.handlings[k].(race := cs[i].sys.handlings[k].race) == cs[i].sys.handlings[k]
  {
    hide Moves;
    var s0 := cs[0].sys.store;
    InStep(ms, cs, i);
    InStep(ms, cs, j);
    DeliveriesStay(ms, cs, i, j);
    var down := cs[j].down;
    RootIsRoot(s0, Shuts(ms[..j]), down);
    var t :| 0 <= t < |down.tasks| && down.tasks[t].actor == down.store.root && down.tasks[t].stage.Done?;
    D.SystemShutdownEmpties(s0, Shuts(ms[..j]), down, t);
  }

  lemma RootIsRoot(s0: Store, es: seq<D.Event>, d: D.Down)
    requires Tidy(s0) && D.Runs(D.Start(s0), es, d)
    ensures d.store.root == s0.root
  {
    D.StartInv(s0);
    D.RunKeeps(s0, D.Start(s0), es, d);
  }
}
