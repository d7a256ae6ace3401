/**
 Restarts as they were started, shut-down entries and generated names included: whatever the order of the
 steps, it can be carried out to its end.
 */
module RestartRuns {
  import opened ActorTree
  import opened TidyTree
  import opened WiredTree
  import opened RestartStart
  import R = Restarts

  /** The end of the creation, or of the restart, that start number `k` is about. */
  datatype Step = Registers(k: nat) | Rewires(k: nat)

  ghost predicate Enabled(starts: seq<Start>, s: Store, e: Step) {
    && e.k < |starts|
    && match e
       case Registers(k) => CanRegister(s, starts[k].next)
       case Rewires(k) => CanReplace(s, starts[k].prior, starts[k].ref)
  }

  ghost function After(starts: seq<Start>, s: Store, e: Step): Store
    requires Enabled(starts, s, e)
  {
    match e
    case Registers(k) => Register(s, starts[k].next)
    case Rewires(k) => RewireTree(s, starts[k].prior, starts[k].ref)
  }

  /** Executing the whole schedule from `s` ends in `t`. */
  ghost predicate Runs(starts: seq<Start>, s: Store, es: seq<Step>, t: Store)
    decreases |es|
  {
    if es == [] then s == t
    else Enabled(starts, s, es[0]) && Runs(starts, After(starts, s, es[0]), es[1..], t)
  }

  function Indices(n: nat): (r: set<nat>)
    ensures forall k: nat :: k in r <==> k < n
  {
    if n == 0 then {} else Indices(n - 1) + {n - 1}
  }

  /** Each creation ends once, and then the restart that waits for it. */
  ghost predicate Legal(n: nat, reg: set<nat>, rew: set<nat>, es: seq<Step>)
    decreases |es|
  {
    if es == [] then reg == rew == Indices(n)
    else
      match es[0]
      case Registers(k) => k < n && k !in reg && Legal(n, reg + {k}, rew, es[1..])
      case Rewires(k) => k in reg && k !in rew && Legal(n, reg, rew + {k}, es[1..])
  }

  // ---- No order gets stuck ------------------------------------------------------------------------------

  /** The fresh instance is known, and its reference is nobody else's. */
  ghost predicate Ready(s0: Store, start: Start, s: Store) {
    && start.prior in s0.children && start.prior != s0.root && start.prior in s.children
    && start.next !in s0.children && start.next in s.children
    && start.ref !in s0.target && start.ref in s.target && s.target[start.ref] == start.next
    && |start.next.name| == |start.prior.name|
  }

  /** Any number of restarts that began in `s0` are under way. */
  ghost predicate UnderWay(s0: Store, starts: seq<Start>, s: Store) {
    && Wired(s0) && Wired(s) && s.root == s0.root
    && (forall a {:trigger a in s.self} :: a in s0.self ==> a in s.self)
    && (forall a {:trigger s.self[a]} :: a in s0.self && a in s.self ==> s.self[a] == s0.self[a])
    && (forall k {:trigger starts[k]} :: 0 <= k < |starts| ==> Ready(s0, starts[k], s))
  }

  lemma RegisterUnderWay(s0: Store, starts: seq<Start>, s: Store, k: nat)
    requires UnderWay(s0, starts, s) && k < |starts|
    ensures Enabled(starts, s, Registers(k)) && UnderWay(s0, starts, After(starts, s, Registers(k)))
  {
    hide RefsKnown, SelfSized, ParentsShorter, RegistryKnown, Grows;
    assert Ready(s0, starts[k], s);
    RegisterWired(s, starts[k].next);
  }

  lemma SelfHeld(s0: Store, starts: seq<Start>, s: Store, o: Actor)
    requires UnderWay(s0, starts, s) && o in s0.children
    ensures o in s0.self && s0.self[o] in s0.target && o in s.self && s.self[o] == s0.self[o] && s.self[o] in s.target
    ensures |s.target[s.self[o]].name| == |o.name|
  {
    assert o in s.self;
  }

  lemma RewireUnderWay(s0: Store, starts: seq<Start>, s: Store, k: nat)
    requires UnderWay(s0, starts, s) && k < |starts|
    ensures Enabled(starts, s, Rewires(k)) && UnderWay(s0, starts, After(starts, s, Rewires(k)))
  {
    hide RefsKnown, SelfSized, ParentsShorter, RegistryKnown, Grows, UpdateTree;
    var o, f := starts[k].prior, starts[k].ref;
    assert Ready(s0, starts[k], s);
    SelfHeld(s0, starts, s, o);
    ReplaceEnabled(s, o, f);
    RewireTreeWired(s, o, f);
    RewireTreeGrows(s, o, f);
    OldSelvesKnown(s0);
    var t := RewireTree(s, o, f);
    forall j {:trigger starts[j]} | 0 <= j < |starts| ensures Ready(s0, starts[j], t) {
      assert Ready(s0, starts[j], s);
    }
  }

  lemma OldSelvesKnown(s: Store)
    requires Wired(s)
    ensures forall a {:trigger a in s.self} :: a in s.self ==> a in s.children
  {
  }

  lemma StepUnderWay(s0: Store, starts: seq<Start>, s: Store, e: Step)
    requires UnderWay(s0, starts, s) && e.k < |starts|
    ensures Enabled(starts, s, e) && UnderWay(s0, starts, After(starts, s, e))
  {
    match e
    case Registers(k) => RegisterUnderWay(s0, starts, s, k);
    case Rewires(k) => RewireUnderWay(s0, starts, s, k);
  }

  /** The fresh names have the old ones' lengths: generated names all have one length. */
  ghost predicate SameLengths(starts: seq<Start>) {
    forall k :: 0 <= k < |starts| ==> |starts[k].next.name| == |starts[k].prior.name|
  }

  /** Restarts that have been started are under way. */
  lemma {:induction false} StartsUnderWay(s0: Store, starts: seq<Start>, generated: nat -> string)
    requires Wired(s0) && StartsFresh(s0, starts) && AllAgain(s0, starts, generated, 0) && SameLengths(starts)
    ensures UnderWay(s0, starts, StartedFrom(s0, starts))
  {
    hide RefsKnown, SelfSized, ParentsShorter, RegistryKnown, Grows;
    WiredParts(s0);
    StartedExtends(s0, starts);
    StartedWired(s0, starts, generated);
    forall k {:trigger starts[k]} | 0 <= k < |starts| ensures Ready(s0, starts[k], StartedFrom(s0, starts)) {
      StartedWaits(s0, starts, k);
      assert Again(s0, starts[k], generated(0 + k));
    }
  }

  lemma WiredParts(s: Store)
    requires Wired(s)
    ensures SelfSized(s) && Grows(s)
  {
  }

  lemma {:induction false} StartedWired(s0: Store, starts: seq<Start>, generated: nat -> string)
    requires Wired(s0) && StartsFresh(s0, starts) && AllAgain(s0, starts, generated, 0)
    ensures Wired(StartedFrom(s0, starts))
  {
    if starts != [] {
      var before, last := starts[..|starts| - 1], starts[|starts| - 1];
      StartedWired(s0, before, generated);
      StartedExtends(s0, before);
      LastIsNew(s0, starts);
      assert Again(s0, last, generated(0 + |before|));
      InstantiateWired(StartedFrom(s0, before), last.next, last.ref);
    }
  }

  lemma LastIsNew(s0: Store, starts: seq<Start>)
    requires SelfSized(s0) && StartsFresh(s0, starts) && starts != []
    ensures var before, last := starts[..|starts| - 1], starts[|starts| - 1];
      StartsFresh(s0, before)
      && last.next !in StartedFrom(s0, before).children && last.ref !in StartedFrom(s0, before).target
  {
    StartedOnly(s0, starts[..|starts| - 1], starts[|starts| - 1].next, starts[|starts| - 1].ref);
  }

  /** Whatever has been started, every legal order of the steps can be carried out to its end. */
  lemma {:induction false} AnyOrderCompletes(s0: Store, starts: seq<Start>, s: Store, reg: set<nat>, rew: set<nat>,
                                             es: seq<Step>)
    returns (t: Store)
    requires UnderWay(s0, starts, s) && reg <= Indices(|starts|) && Legal(|starts|, reg, rew, es)
    ensures Runs(starts, s, es, t)
    decreases |es|
  {
    hide UnderWay, Enabled, After;
    if es == [] {
      t := s;
    } else {
      StepUnderWay(s0, starts, s, es[0]);
      match es[0]
      case Registers(k) => t := AnyOrderCompletes(s0, starts, After(starts, s, es[0]), reg + {k}, rew, es[1..]);
      case Rewires(k) => t := AnyOrderCompletes(s0, starts, After(starts, s, es[0]), reg, rew + {k}, es[1..]);
    }
  }

  /** The call of `createActor` returns: the step that the schedule says. */
  method CreateReturns(system: ActorSystem, starts: seq<Start>, k: nat, ghost s0: Store)
    requires system.Known() && UnderWay(s0, starts, system.View()) && k < |starts|
    modifies system`actors, system.instances`children, starts[k].next`strategy
    ensures system.Known() && UnderWay(s0, starts, system.View())
    ensures old(Enabled(starts, system.View(), Registers(k)))
    ensures system.View() == old(After(starts, system.View(), Registers(k)))
    ensures starts[k].next.strategy ==
      match starts[k].next.options.strategy case Some(chosen) => chosen case None => old(starts[k].next.strategy)
  {
    RegisterUnderWay(s0, starts, system.View(), k);
    system.FinishCreate(starts[k].next);
  }

  /** The rest of `restart` after it. */
  method RestartReturns(system: ActorSystem, starts: seq<Start>, k: nat, ghost s0: Store)
    requires system.Known() && UnderWay(s0, starts, system.View()) && k < |starts|
    modifies system.instances`children, system.instances`actorRef, system.refs`actor
    ensures system.Known() && UnderWay(s0, starts, system.View())
    ensures old(Enabled(starts, system.View(), Rewires(k)))
    ensures system.View() == old(After(starts, system.View(), Rewires(k)))
  {
    RewireUnderWay(s0, starts, system.View(), k);
    system.FinishRestart(starts[k].prior, starts[k].ref);
  }

  // ---- The registry -------------------------------------------------------------------------------------

  ghost predicate RegistersName(starts: seq<Start>, e: Step, m: string) {
    e.Registers? && e.k < |starts| && starts[e.k].next.name == m
  }

  /** What is registered under `m` is what was, or a fresh instance of that name. */
  ghost predicate OldOrFresh(starts: seq<Start>, s: Store, m: string, t: Store)
    requires m in t.registry
  {
    || (m in s.registry && t.registry[m] == s.registry[m])
    || exists k :: 0 <= k < |starts| && starts[k].next == t.registry[m] && starts[k].next.name == m
  }

  lemma RegistryStep(starts: seq<Start>, s: Store, e: Step, m: string)
    requires Enabled(starts, s, e)
    ensures m in After(starts, s, e).registry <==> m in s.registry || RegistersName(starts, e, m)
    ensures m in After(starts, s, e).registry ==> OldOrFresh(starts, s, m, After(starts, s, e))
  {
  }

  /** The names registered at the end are those registered before, and those of the fresh instances. */
  lemma {:induction false} RegistryGrows(starts: seq<Start>, s: Store, es: seq<Step>, t: Store, m: string)
    requires Runs(starts, s, es, t)
    ensures m in t.registry <==> m in s.registry || exists e :: e in es && RegistersName(starts, e, m)
    ensures m in t.registry ==> OldOrFresh(starts, s, m, t)
    decreases |es|
  {
    hide Enabled, After, RegistersName;
    if es != [] {
      RegistryStep(starts, s, es[0], m);
      RegistryGrows(starts, After(starts, s, es[0]), es[1..], t, m);
      assert es == [es[0]] + es[1..];
    }
  }

  /** Each start registers in a whole schedule. */
  lemma {:induction false} EachRegisters(n: nat, reg: set<nat>, rew: set<nat>, es: seq<Step>, k: nat)
    requires Legal(n, reg, rew, es) && k < n && k !in reg
    ensures Registers(k) in es
    decreases |es|
  {
    if es != [] && es[0] != Registers(k) {
      match es[0]
      case Registers(j) => EachRegisters(n, reg + {j}, rew, es[1..], k);
      case Rewires(j) => EachRegisters(n, reg, rew + {j}, es[1..], k);
    }
  }

  /** A name freed by a shutdown is registered again once somebody of that name has been re-created. */
  lemma NameReturns(starts: seq<Start>, s: Store, es: seq<Step>, t: Store, k: nat)
    requires Runs(starts, s, es, t) && Legal(|starts|, {}, {}, es) && k < |starts|
    ensures starts[k].next.name in t.registry
  {
    EachRegisters(|starts|, {}, {}, es, k);
    RegistryGrows(starts, s, es, t, starts[k].next.name);
    assert RegistersName(starts, Registers(k), starts[k].next.name);
  }

  /** Restarts shut nobody down. */
  lemma {:induction false} NobodyGoesDown(starts: seq<Start>, s: Store, es: seq<Step>, t: Store)
    requires Runs(starts, s, es, t)
    ensures t.dead == s.dead
    decreases |es|
  {
    if es != [] {
      NobodyGoesDown(starts, After(starts, s, es[0]), es[1..], t);
    }
  }
}
