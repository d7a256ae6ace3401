/**
 No shutdown gets stuck: from every state that overlapping shutdowns can reach, the calls already made
 can all be driven to their return, children before parents.
 */
module ShutdownProgress {
  import opened ActorTree
  import opened TidyTree
  import opened Shutdowns

  // ---- Calls wait for calls further down --------------------------------------------------------------

  ghost predicate WaitsBelow(d: Down, t: nat)
    requires t < |d.tasks|
  {
    d.tasks[t].stage.Waiting? ==>
      forall w: nat :: d.tasks[t].first <= w < d.tasks[t].last && w < |d.tasks| ==>
        |d.tasks[w].actor.name| > |d.tasks[t].actor.name|
  }

  ghost predicate Descends(d: Down) {
    forall t: nat {:trigger WaitsBelow(d, t)} :: t < |d.tasks| ==> WaitsBelow(d, t)
  }

  lemma FanOutLonger(d: Down, t: nat)
    requires Enabled(d, FanOut(t)) && Closed(d.store)
    ensures WaitsBelow(Next(d, FanOut(t)), t)
  {
    var a := d.tasks[t].actor;
    var kids := AliveKids(d.store, d.store.children[a]);
    AliveKidsIn(d.store, d.store.children[a]);
    forall i | 0 <= i < |kids| ensures |kids[i].name| > |a.name| {
      assert kids[i] in kids;
    }
  }

  lemma StepWaitsBelow(s0: Store, d: Down, e: Event, t: nat)
    requires Inv(s0, d) && t < |d.tasks| && WaitsBelow(d, t) && Enabled(d, e)
    ensures WaitsBelow(Next(d, e), t)
  {
    assert TaskOk(s0, d, t);
    if e == FanOut(t) {
      FanOutLonger(d, t);
    }
  }

  lemma StepDescends(s0: Store, d: Down, e: Event)
    requires Inv(s0, d) && Descends(d) && Enabled(d, e)
    ensures Descends(Next(d, e))
  {
    hide Inv;
    var d' := Next(d, e);
    forall t: nat {:trigger WaitsBelow(d', t)} | t < |d'.tasks| ensures WaitsBelow(d', t) {
      if t < |d.tasks| {
        StepWaitsBelow(s0, d, e, t);
      }
    }
  }

  lemma {:induction false} RunDescends(s0: Store, d: Down, es: seq<Event>, d': Down)
    requires Inv(s0, d) && Descends(d) && Runs(d, es, d')
    ensures Inv(s0, d') && Descends(d')
    decreases |es|
  {
    if es != [] {
      StepKeeps(s0, d, es[0]);
      StepDescends(s0, d, es[0]);
      RunDescends(s0, Next(d, es[0]), es[1..], d');
    }
  }

  lemma {:induction false} RunsOn(d: Down, es: seq<Event>, m: Down, more: seq<Event>, d': Down)
    requires Runs(d, es, m) && Runs(m, more, d')
    ensures Runs(d, es + more, d')
    decreases |es|
  {
    if es == [] {
      assert es + more == more;
    } else {
      RunsOn(Next(d, es[0]), es[1..], m, more, d');
      assert (es + more)[1..] == es[1..] + more;
    }
  }

  // ---- Driving a call to its return -------------------------------------------------------------------

  ghost predicate Good(s0: Store, d: Down) {
    Inv(s0, d) && Descends(d)
  }

  /** Nobody calls `shutdown` from outside. */
  ghost predicate NoCalls(es: seq<Event>) {
    forall e :: e in es ==> !e.Call?
  }

  ghost predicate Unchanged(d: Down, d': Down, i: nat, length: nat)
    requires i < |d.tasks| <= |d'.tasks|
  {
    d'.tasks[i].actor == d.tasks[i].actor && (d.tasks[i].stage.Done? ==> d'.tasks[i].stage.Done?) &&
    (|d.tasks[i].actor.name| <= length ==> d'.tasks[i] == d.tasks[i])
  }

  /** Only calls on actors with names longer than `length`, and the call `t`, have moved; new calls have returned. */
  ghost predicate Progress(d: Down, d': Down, length: nat, t: int) {
    && |d.tasks| <= |d'.tasks|
    && (forall i: nat {:trigger Unchanged(d, d', i, length)} :: i < |d.tasks| && i != t ==> Unchanged(d, d', i, length))
    && (0 <= t < |d.tasks| ==> d'.tasks[t].actor == d.tasks[t].actor)
    && (forall i :: |d.tasks| <= i < |d'.tasks| ==> d'.tasks[i].stage.Done?)
  }

  /** From `d` to `d'` without outside calls. */
  ghost predicate Drives(s0: Store, d: Down, es: seq<Event>, d': Down, length: nat, t: int) {
    Good(s0, d') && NoCalls(es) && Runs(d, es, d') && Progress(d, d', length, t)
  }

  lemma DrivesOn(s0: Store, d: Down, es: seq<Event>, m: Down, more: seq<Event>, d': Down, length: nat, t: int)
    requires t < |d.tasks| && Drives(s0, d, es, m, length, t) && Drives(s0, m, more, d', length, t)
    ensures Drives(s0, d, es + more, d', length, t)
  {
    hide Good, Runs, Unchanged;
    RunsOn(d, es, m, more, d');
    ProgressOn(d, m, d', length, t);
  }

  lemma ProgressOn(d: Down, m: Down, d': Down, length: nat, t: int)
    requires t < |d.tasks| && Progress(d, m, length, t) && Progress(m, d', length, t)
    ensures Progress(d, d', length, t)
  {
    forall i: nat {:trigger Unchanged(d, d', i, length)} | i < |d.tasks| && i != t ensures Unchanged(d, d', i, length) {
      assert Unchanged(d, m, i, length) && Unchanged(m, d', i, length);
    }
    forall i | |d.tasks| <= i < |d'.tasks| && i != t ensures d'.tasks[i].stage.Done? {
      if i < |m.tasks| {
        assert Unchanged(m, d', i, length);
      }
    }
  }

  lemma OneStep(s0: Store, d: Down, e: Event, t: nat, length: nat)
    requires Good(s0, d) && Enabled(d, e) && t < |d.tasks| && (e == Mark(t) || e == Return(t))
    ensures Drives(s0, d, [e], Next(d, e), length, t)
  {
    hide Inv, Descends;
    StepKeeps(s0, d, e);
    StepDescends(s0, d, e);
    var d' := Next(d, e);
    assert [e][1..] == [] && Runs(d', [], d');
    forall i: nat {:trigger Unchanged(d, d', i, length)} | i < |d.tasks| && i != t ensures Unchanged(d, d', i, length) {
    }
  }

  /** The fan-out adds calls that have not returned yet; everything else stays. */
  lemma FanOutStep(s0: Store, d: Down, t: nat)
    requires Good(s0, d) && t < |d.tasks| && d.tasks[t].stage.Begun?
    ensures Enabled(d, FanOut(t))
    ensures var d' := Next(d, FanOut(t));
      && Good(s0, d') && Runs(d, [FanOut(t)], d') && d'.tasks[t].stage.Waiting?
      && |d.tasks| == d'.tasks[t].first <= d'.tasks[t].last == |d'.tasks| && d'.tasks[t].actor == d.tasks[t].actor
      && forall i :: 0 <= i < |d.tasks| && i != t ==> d'.tasks[i] == d.tasks[i]
  {
    assert TaskOk(s0, d, t);
    StepKeeps(s0, d, FanOut(t));
    StepDescends(s0, d, FanOut(t));
    assert [FanOut(t)][1..] == [];
  }

  lemma MarkEnabled(s0: Store, d: Down, t: nat)
    requires Good(s0, d) && t < |d.tasks| && d.tasks[t].stage.Waiting? && d.tasks[t].last <= |d.tasks|
    requires forall w :: d.tasks[t].first <= w < d.tasks[t].last ==> d.tasks[w].stage.Done?
    ensures Enabled(d, Mark(t))
  {
    assert TaskOk(s0, d, t);
    FinishClosed(d.store, d.tasks[t].actor);
  }

  lemma LongerDrops(s0: Store, a: Actor, b: Actor)
    requires a in s0.children && |a.name| < |b.name|
    ensures NotShorter(s0, b) < NotShorter(s0, a)
  {
    assert a in NotShorter(s0, a) && a !in NotShorter(s0, b);
  }

  lemma DrivesNothing(s0: Store, d: Down, length: nat, t: int)
    requires Good(s0, d)
    ensures Drives(s0, d, [], d, length, t)
  {
    forall i: nat {:trigger Unchanged(d, d, i, length)} | i < |d.tasks| && i != t ensures Unchanged(d, d, i, length) {
    }
  }

  /** A drive below an actor is a drive for the actor's own call. */
  lemma DrivesMore(s0: Store, d: Down, es: seq<Event>, d': Down, length: nat, t: nat)
    requires Drives(s0, d, es, d', length, -1) && t < |d.tasks|
    ensures Drives(s0, d, es, d', length, t) && Unchanged(d, d', t, length)
  {
    hide Good, Runs;
    assert Unchanged(d, d', t, length);
    forall i: nat {:trigger Unchanged(d, d', i, length)} | i < |d.tasks| && i != t ensures Unchanged(d, d', i, length) {
    }
  }

  /** A drive of one call on a longer name is a drive below the actor. */
  lemma DrivesLess(s0: Store, d: Down, es: seq<Event>, d': Down, w: nat, length: nat)
    requires w < |d.tasks| && length < |d.tasks[w].actor.name|
    requires Drives(s0, d, es, d', |d.tasks[w].actor.name|, w) && d'.tasks[w].stage.Done?
    ensures Drives(s0, d, es, d', length, -1)
  {
    hide Good, Runs;
    forall i: nat {:trigger Unchanged(d, d', i, length)} | i < |d.tasks| ensures Unchanged(d, d', i, length) {
      assert i != w ==> Unchanged(d, d', i, |d.tasks[w].actor.name|);
    }
  }

  lemma FanOutDrives(s0: Store, d: Down, d1: Down, t: nat, es: seq<Event>, d': Down)
    requires t < |d.tasks| <= |d1.tasks| && Drives(s0, d1, es, d', |d.tasks[t].actor.name|, t)
    requires Runs(d, [FanOut(t)], d1) && d1.tasks[t].actor == d.tasks[t].actor
    requires forall i :: 0 <= i < |d.tasks| && i != t ==> d1.tasks[i] == d.tasks[i]
    requires forall i :: |d.tasks| <= i < |d1.tasks| ==> d'.tasks[i].stage.Done?
    ensures Drives(s0, d, [FanOut(t)] + es, d', |d.tasks[t].actor.name|, t)
  {
    hide Good, Runs;
    RunsOn(d, [FanOut(t)], d1, es, d');
    var length := |d.tasks[t].actor.name|;
    forall i: nat {:trigger Unchanged(d, d', i, length)} | i < |d.tasks| && i != t ensures Unchanged(d, d', i, length) {
      assert Unchanged(d1, d', i, length);
    }
  }

  lemma TaskKnown(s0: Store, d: Down, t: nat)
    requires Good(s0, d) && t < |d.tasks|
    ensures d.tasks[t].actor in s0.children && d.tasks[t].last <= |d.tasks| && WaitsBelow(d, t)
  {
    assert TaskOk(s0, d, t) && WaitsBelow(d, t);
  }

  /** Drive the call `t` to its return. */
  lemma {:induction false} FinishTask(s0: Store, d: Down, t: nat) returns (es: seq<Event>, d': Down)
    requires Good(s0, d) && t < |d.tasks|
    ensures Drives(s0, d, es, d', |d.tasks[t].actor.name|, t) && d'.tasks[t].stage.Done?
    decreases NotShorter(s0, d.tasks[t].actor), 2, 0
  {
    hide Good, Runs, Progress;
    var length := |d.tasks[t].actor.name|;
    match d.tasks[t].stage
    case Done =>
      es, d' := [], d;
      DrivesNothing(s0, d, length, t);
    case Finished =>
      es, d' := [Return(t)], Next(d, Return(t));
      OneStep(s0, d, Return(t), t, length);
    case Waiting =>
      es, d' := FinishWaiting(s0, d, t);
    case Begun =>
      FanOutStep(s0, d, t);
      var d1 := Next(d, FanOut(t));
      var more;
      more, d' := FinishWaiting(s0, d1, t);
      es := [FanOut(t)] + more;
      FanOutDrives(s0, d, d1, t, more, d');
  }

  lemma {:induction false} FinishWaiting(s0: Store, d: Down, t: nat) returns (es: seq<Event>, d': Down)
    requires Good(s0, d) && t < |d.tasks| && d.tasks[t].stage.Waiting?
    ensures Drives(s0, d, es, d', |d.tasks[t].actor.name|, t) && |d.tasks| <= |d'.tasks| && d'.tasks[t].stage.Done?
    ensures forall w: nat :: d.tasks[t].first <= w < d.tasks[t].last ==> w < |d'.tasks| && d'.tasks[w].stage.Done?
    decreases NotShorter(s0, d.tasks[t].actor), 1, 0
  {
    hide Good, Runs, Descends;
    var task, length := d.tasks[t], |d.tasks[t].actor.name|;
    TaskKnown(s0, d, t);
    var es1, d1 := FinishRange(s0, d, task.first, task.last, task.actor);
    DrivesMore(s0, d, es1, d1, length, t);
    MarkEnabled(s0, d1, t);
    OneStep(s0, d1, Mark(t), t, length);
    var d2 := Next(d1, Mark(t));
    OneStep(s0, d2, Return(t), t, length);
    d' := Next(d2, Return(t));
    DrivesOn(s0, d1, [Mark(t)], d2, [Return(t)], d', length, t);
    DrivesOn(s0, d, es1, d1, [Mark(t)] + [Return(t)], d', length, t);
    es := es1 + ([Mark(t)] + [Return(t)]);
  }

  lemma {:induction false} FinishRange(s0: Store, d: Down, lo: nat, hi: nat, a: Actor)
    returns (es: seq<Event>, d': Down)
    requires Good(s0, d) && hi <= |d.tasks| && a in s0.children
    requires forall w: nat :: lo <= w < hi ==> |a.name| < |d.tasks[w].actor.name|
    ensures Drives(s0, d, es, d', |a.name|, -1) && |d.tasks| <= |d'.tasks|
    ensures forall w: nat :: lo <= w < hi ==> d'.tasks[w].stage.Done?
    decreases NotShorter(s0, a), 0, hi - lo
  {
    hide Good, Runs;
    if lo >= hi {
      es, d' := [], d;
      DrivesNothing(s0, d, |a.name|, -1);
    } else {
      LongerDrops(s0, a, d.tasks[lo].actor);
      var es1, d1 := FinishTask(s0, d, lo);
      DrivesLess(s0, d, es1, d1, lo, |a.name|);
      forall w: nat | lo <= w < hi ensures d1.tasks[w].actor == d.tasks[w].actor {
        assert Unchanged(d, d1, w, |a.name|);
      }
      var es2;
      es2, d' := FinishRange(s0, d1, lo + 1, hi, a);
      DrivesOn(s0, d, es1, d1, es2, d', |a.name|, -1);
      assert Unchanged(d1, d', lo, |a.name|);
      es := es1 + es2;
    }
  }

  // ---- The theorem ------------------------------------------------------------------------------------

  ghost predicate AllReturned(d: Down) {
    forall t :: 0 <= t < |d.tasks| ==> d.tasks[t].stage.Done?
  }

  lemma {:induction false} FinishFrom(s0: Store, d: Down, t: nat, n: nat) returns (es: seq<Event>, d': Down)
    requires Good(s0, d) && t <= n <= |d.tasks|
    requires forall i :: 0 <= i < |d.tasks| && !(t <= i < n) ==> d.tasks[i].stage.Done?
    ensures NoCalls(es) && Runs(d, es, d') && AllReturned(d')
    decreases n - t
  {
    if t == n {
      es, d' := [], d;
    } else {
      var es1, d1 := FinishTask(s0, d, t);
      forall i | 0 <= i < |d1.tasks| && !(t + 1 <= i < n) ensures d1.tasks[i].stage.Done? {
        assert i < |d.tasks| && i != t ==> Unchanged(d, d1, i, |d.tasks[t].actor.name|);
      }
      var es2;
      es2, d' := FinishFrom(s0, d1, t + 1, n);
      RunsOn(d, es1, d1, es2, d');
      es := es1 + es2;
    }
  }

  /** From every reachable state, without further calls from outside, all calls can return. */
  lemma EveryShutdownCanReturn(s0: Store, es: seq<Event>, d: Down)
    requires Tidy(s0) && Runs(Start(s0), es, d)
    ensures exists more, d' :: NoCalls(more) && Runs(d, more, d') && AllReturned(d')
  {
    StartInv(s0);
    assert Descends(Start(s0));
    RunDescends(s0, Start(s0), es, d);
    var more, d' := FinishFrom(s0, d, 0, |d.tasks|);
  }
}
