/**
 The inbox at work while the tree moves underneath: any interleaving of messages, timers and receivers
 with the atomic steps of creations, restarts and shutdowns.
 */
module Deliveries {
  import opened ActorTree
  import opened WiredTree
  import opened Inbox

  /**
   The atomic steps that change the tree: a REWIRE with the reference `f` of the fresh instance, the
   reference `ref` that `o` hands over and the instance `n` that takes it; a shutdown with the name that
   leaves the registry.
   */
  datatype TreeStep =
    | Instantiated(n: Actor, f: ActorRefImpl)
    | Registered(n: Actor)
    | Rewired(o: Actor, f: ActorRefImpl, ref: ActorRefImpl, n: Actor)
    | WentDown(a: Actor, name: string)

  /** A delivery: the message, who receives what under which sender name, and the race of the ask. */
  datatype Handling = Handling(msg: Message, receiver: Actor, given: Body, sender: string, race: Race)

  /** An actor's send or ask, waiting for its zero-delay timer. */
  datatype Scheduled = Scheduled(msg: Message, waiting: bool)

  /** `pending` are the instances that have not been registered yet. */
  datatype System = System(
    store: Store,
    pending: set<Actor>,
    stopped: bool,
    scheduled: seq<Scheduled>,
    handlings: seq<Handling>)

  datatype Event =
    | Tree(step: TreeStep)
    | ActorSends(msg: Message)
    | ScheduleFires(i: nat)
    | SystemSends(msg: Message)
    | AskTimerFires(k: nat)
    | Returns(k: nat, value: Value)
    | Throws(k: nat)
    | Stop

  /** No restrictions but that instances are registered once, and that the system actor is never restarted. */
  ghost predicate TreeMoves(b: System, step: TreeStep, b': System) {
    match step
    case Instantiated(n, f) =>
      CanInstantiate(b.store, n, f) && b' == b.(store := Instantiate(b.store, n, f), pending := b.pending + {n})
    case Registered(n) =>
      n in b.pending && CanRegister(b.store, n) && b' == b.(store := Register(b.store, n), pending := b.pending - {n})
    case Rewired(o, f, ref, n) =>
      && o != b.store.root && CanReplace(b.store, o, f) && b.store.self[o] == ref && b.store.target[f] == n
      && b' == b.(store := RewireTree(b.store, o, f))
    case WentDown(a, name) =>
      && a !in b.pending && CanFinish(b.store, a) && b.store.target[b.store.self[a]].name == name
      && b' == b.(store := Finish(b.store, a))
  }

  /** `handleInboxMessage` up to the call of `receive`. */
  ghost function Handle(s: Store, msg: Message): Handling
    requires Wired(s)
  {
    Handling(msg, Receiver(s, msg), Given(s, msg), SenderName(s, msg), StartRace(msg.asks))
  }

  ghost function Accept(b: System, msg: Message): System
    requires Wired(b.store)
  {
    if b.stopped then b else b.(handlings := b.handlings + [Handle(b.store, msg)])
  }

  ghost function Moved(b: System, k: nat, race: Race): System
    requires k < |b.handlings|
  {
    b.(handlings := b.handlings[k := b.handlings[k].(race := race)])
  }

  ghost predicate Steps(b: System, e: Event, b': System) {
    match e
    case Tree(step) => TreeMoves(b, step, b')
    case ActorSends(msg) =>
      b' == if b.stopped then b else b.(scheduled := b.scheduled + [Scheduled(msg, true)])
    case ScheduleFires(i) =>
      && i < |b.scheduled| && b.scheduled[i].waiting && Wired(b.store)
      && b' == Accept(b.(scheduled := b.scheduled[i := b.scheduled[i].(waiting := false)]), b.scheduled[i].msg)
    case SystemSends(msg) => Wired(b.store) && b' == Accept(b, msg)
    case AskTimerFires(k) =>
      k < |b.handlings| && b.handlings[k].race.timer == Pending && b' == Moved(b, k, TimerFires(b.handlings[k].race))
    case Returns(k, v) =>
      && k < |b.handlings| && b.handlings[k].race.stage == Receiving
      && b' == Moved(b, k, ReceiverReturns(b.handlings[k].race, v))
    case Throws(k) =>
      && k < |b.handlings| && b.handlings[k].race.stage == Receiving
      && b' == Moved(b, k, ReceiverThrows(b.handlings[k].race))
    case Stop => b' == b.(stopped := true)
  }

  ghost predicate Runs(es: seq<Event>, bs: seq<System>) {
    && |bs| == |es| + 1
    && forall i :: 0 <= i < |es| ==> Steps(bs[i], es[i], bs[i + 1])
  }

  // ---- The tree -------------------------------------------------------------------------------------

  /** No dangling references, and what waits to be registered is there to be. */
  ghost predicate TreeOk(b: System) {
    Wired(b.store) && forall n :: n in b.pending ==> n in b.store.children && n != b.store.root
  }

  lemma TreeStepKeeps(b: System, step: TreeStep, b': System)
    requires TreeOk(b) && TreeMoves(b, step, b')
    ensures TreeOk(b') && b'.store.root == b.store.root
  {
    hide Wired, Grows, UpdateTree;
    match step
    case Instantiated(n, f) => InstantiateWired(b.store, n, f);
    case Registered(n) => RegisterWired(b.store, n);
    case Rewired(o, f, _, _) =>
      RewireTreeWired(b.store, o, f);
      RewireTreeGrows(b.store, o, f);
    case WentDown(a, _) =>
      IsKnown(b.store, a);
      FinishWired(b.store, a);
  }

  lemma IsKnown(s: Store, a: Actor)
    requires CanFinish(s, a)
    ensures a in s.children
  {
  }

  // ---- The tree as a function of the history ----------------------------------------------------------

  /** Who was registered last under the name, unless the name has left the registry since. */
  ghost function LastRegistered(base: Store, es: seq<Event>, name: string): Option<Actor> {
    if es == [] then if name in base.registry then Some(base.registry[name]) else None
    else
      match es[|es| - 1]
      case Tree(Registered(n)) => if n.name == name then Some(n) else LastRegistered(base, es[..|es| - 1], name)
      case Tree(WentDown(_, gone)) => if gone == name then None else LastRegistered(base, es[..|es| - 1], name)
      case _ => LastRegistered(base, es[..|es| - 1], name)
  }

  /** The actor's own reference: the one it was made with, or the one it has taken over. */
  ghost function RefOf(base: Store, es: seq<Event>, a: Actor): Option<ActorRefImpl> {
    if es == [] then if a in base.self then Some(base.self[a]) else None
    else
      match es[|es| - 1]
      case Tree(Instantiated(n, f)) => if n == a then Some(f) else RefOf(base, es[..|es| - 1], a)
      case Tree(Rewired(_, _, ref, n)) => if n == a then Some(ref) else RefOf(base, es[..|es| - 1], a)
      case _ => RefOf(base, es[..|es| - 1], a)
  }

  /** The instance that took the reference last. */
  ghost function HolderOf(base: Store, es: seq<Event>, r: ActorRefImpl): Option<Actor> {
    if es == [] then if r in base.target then Some(base.target[r]) else None
    else
      match es[|es| - 1]
      case Tree(Instantiated(n, f)) => if f == r then Some(n) else HolderOf(base, es[..|es| - 1], r)
      case Tree(Rewired(_, _, ref, n)) => if ref == r then Some(n) else HolderOf(base, es[..|es| - 1], r)
      case _ => HolderOf(base, es[..|es| - 1], r)
  }

  ghost predicate IsDown(base: Store, es: seq<Event>, a: Actor) {
    a in base.dead || exists name :: Tree(WentDown(a, name)) in es
  }

  lemma LastPush(base: Store, es: seq<Event>, e: Event, name: string)
    ensures LastRegistered(base, es + [e], name) ==
      match e
      case Tree(Registered(n)) => if n.name == name then Some(n) else LastRegistered(base, es, name)
      case Tree(WentDown(_, gone)) => if gone == name then None else LastRegistered(base, es, name)
      case _ => LastRegistered(base, es, name)
  {
    assert (es + [e])[..|es|] == es;
  }

  lemma RefPush(base: Store, es: seq<Event>, e: Event, a: Actor)
    ensures RefOf(base, es + [e], a) ==
      match e
      case Tree(Instantiated(n, f)) => if n == a then Some(f) else RefOf(base, es, a)
      case Tree(Rewired(_, _, ref, n)) => if n == a then Some(ref) else RefOf(base, es, a)
      case _ => RefOf(base, es, a)
  {
    assert (es + [e])[..|es|] == es;
  }

  lemma HolderPush(base: Store, es: seq<Event>, e: Event, r: ActorRefImpl)
    ensures HolderOf(base, es + [e], r) ==
      match e
      case Tree(Instantiated(n, f)) => if f == r then Some(n) else HolderOf(base, es, r)
      case Tree(Rewired(_, _, ref, n)) => if ref == r then Some(n) else HolderOf(base, es, r)
      case _ => HolderOf(base, es, r)
  {
    assert (es + [e])[..|es|] == es;
  }

  lemma DownPush(base: Store, es: seq<Event>, e: Event, a: Actor)
    ensures IsDown(base, es + [e], a) <==> IsDown(base, es, a) || (e.Tree? && e.step.WentDown? && e.step.a == a)
  {
    if IsDown(base, es, a) && a !in base.dead {
      var name :| Tree(WentDown(a, name)) in es;
      assert Tree(WentDown(a, name)) in es + [e];
    }
    if e.Tree? && e.step.WentDown? && e.step.a == a {
      assert Tree(WentDown(a, e.step.name)) in es + [e];
    }
  }

  ghost predicate RegistryIs(s: Store, base: Store, es: seq<Event>) {
    forall name {:trigger LastRegistered(base, es, name)} ::
      LastRegistered(base, es, name) == if name in s.registry then Some(s.registry[name]) else None
  }

  ghost predicate RefsAre(s: Store, base: Store, es: seq<Event>) {
    forall a {:trigger RefOf(base, es, a)} :: a in s.self ==> RefOf(base, es, a) == Some(s.self[a])
  }

  ghost predicate HoldersAre(s: Store, base: Store, es: seq<Event>) {
    forall r {:trigger HolderOf(base, es, r)} :: r in s.target ==> HolderOf(base, es, r) == Some(s.target[r])
  }

  ghost predicate DownsAre(s: Store, base: Store, es: seq<Event>) {
    forall a {:trigger IsDown(base, es, a)} :: a in s.children ==> (a in s.dead <==> IsDown(base, es, a))
  }

  lemma RegistryStep(b: System, e: Event, b': System, base: Store, es: seq<Event>)
    requires Steps(b, e, b') && RegistryIs(b.store, base, es)
    ensures RegistryIs(b'.store, base, es + [e])
  {
    hide LastRegistered, UpdateTree, Grows;
    forall name {:trigger LastRegistered(base, es + [e], name)}
      ensures LastRegistered(base, es + [e], name) ==
              if name in b'.store.registry then Some(b'.store.registry[name]) else None
    {
      LastPush(base, es, e, name);
    }
  }

  lemma RefsStep(b: System, e: Event, b': System, base: Store, es: seq<Event>)
    requires Steps(b, e, b') && RefsAre(b.store, base, es)
    ensures RefsAre(b'.store, base, es + [e])
  {
    hide RefOf, UpdateTree, Grows;
    forall a {:trigger RefOf(base, es + [e], a)} | a in b'.store.self
      ensures RefOf(base, es + [e], a) == Some(b'.store.self[a])
    {
      RefPush(base, es, e, a);
    }
  }

  lemma HoldersStep(b: System, e: Event, b': System, base: Store, es: seq<Event>)
    requires Steps(b, e, b') && HoldersAre(b.store, base, es)
    ensures HoldersAre(b'.store, base, es + [e])
  {
    hide HolderOf, UpdateTree, Grows;
    forall r {:trigger HolderOf(base, es + [e], r)} | r in b'.store.target
      ensures HolderOf(base, es + [e], r) == Some(b'.store.target[r])
    {
      HolderPush(base, es, e, r);
    }
  }

  /** Only instances that exist have gone down, so a new one is not down. */
  ghost predicate DownsKnown(s: Store, base: Store, es: seq<Event>) {
    && (forall a :: a in base.dead ==> a in s.children)
    && forall i :: 0 <= i < |es| && es[i].Tree? && es[i].step.WentDown? ==> es[i].step.a in s.children
  }

  lemma ChildrenGrow(b: System, e: Event, b': System)
    requires Steps(b, e, b')
    ensures forall a :: a in b.store.children ==> a in b'.store.children
    ensures e.Tree? && e.step.WentDown? ==> e.step.a in b.store.children
    ensures forall a :: a in b'.store.children ==>
      a in b.store.children || (e.Tree? && e.step.Instantiated? && e.step.n == a && a !in b.store.children)
    ensures b'.store.dead == b.store.dead + if e.Tree? && e.step.WentDown? then {e.step.a} else {}
  {
    hide UpdateTree, Grows;
    if e.Tree? && e.step.Rewired? {
      RewireTreeGrows(b.store, e.step.o, e.step.f);
    }
  }

  lemma DownIsKnown(s: Store, base: Store, es: seq<Event>, a: Actor)
    requires DownsKnown(s, base, es) && IsDown(base, es, a)
    ensures a in s.children
  {
    if a !in base.dead {
      var name :| Tree(WentDown(a, name)) in es;
      var i :| 0 <= i < |es| && es[i] == Tree(WentDown(a, name));
    }
  }

  lemma DownsStep(b: System, e: Event, b': System, base: Store, es: seq<Event>)
    requires Steps(b, e, b') && DownsAre(b.store, base, es) && DownsKnown(b.store, base, es)
    requires b.store.dead <= b.store.children.Keys
    ensures DownsAre(b'.store, base, es + [e]) && DownsKnown(b'.store, base, es + [e])
  {
    hide Steps;
    ChildrenGrow(b, e, b');
    forall a {:trigger IsDown(base, es + [e], a)} | a in b'.store.children
      ensures a in b'.store.dead <==> IsDown(base, es + [e], a)
    {
      DownPush(base, es, e, a);
      if IsDown(base, es, a) {
        DownIsKnown(b.store, base, es, a);
      }
    }
  }

  /** Registry, references and who is down are all what the history says. */
  ghost predicate TreeIs(s: Store, base: Store, es: seq<Event>) {
    && RegistryIs(s, base, es) && RefsAre(s, base, es) && HoldersAre(s, base, es)
    && DownsAre(s, base, es) && DownsKnown(s, base, es)
  }

  lemma StepKeepsTree(b: System, e: Event, b': System)
    requires TreeOk(b) && Steps(b, e, b')
    ensures TreeOk(b') && b'.store.root == b.store.root
  {
    hide TreeOk;
    if e.Tree? {
      TreeStepKeeps(b, e.step, b');
    } else {
      SameTree(b, b');
    }
  }

  lemma SameTree(b: System, b': System)
    requires TreeOk(b) && b'.store == b.store && b'.pending == b.pending
    ensures TreeOk(b')
  {
  }

  lemma TreeBegins(b: System)
    requires TreeOk(b)
    ensures TreeIs(b.store, b.store, [])
  {
    forall a {:trigger IsDown(b.store, [], a)} | a in b.store.children
      ensures a in b.store.dead <==> IsDown(b.store, [], a)
    {
    }
  }

  lemma TreeStepIs(b: System, e: Event, b': System, base: Store, es: seq<Event>)
    requires TreeOk(b) && Steps(b, e, b') && TreeIs(b.store, base, es)
    ensures TreeIs(b'.store, base, es + [e])
  {
    hide Steps, RegistryIs, RefsAre, HoldersAre, DownsAre, DownsKnown, Grows, RefsKnown, SelfSized, ParentsShorter;
    RegistryStep(b, e, b', base, es);
    RefsStep(b, e, b', base, es);
    HoldersStep(b, e, b', base, es);
    DownsStep(b, e, b', base, es);
  }

  /**
   In any interleaving of creations, restarts and shutdowns, be they overlapping and renaming, the tree's
   registry and references are a function of the history.
   */
  lemma {:induction false} TreeIsHistory(es: seq<Event>, bs: seq<System>, i: nat)
    requires Runs(es, bs) && TreeOk(bs[0]) && i < |bs|
    ensures TreeOk(bs[i]) && TreeIs(bs[i].store, bs[0].store, es[..i])
    ensures bs[i].store.root == bs[0].store.root
  {
    hide TreeOk, TreeIs, Steps;
    if i == 0 {
      TreeBegins(bs[0]);
      assert es[..0] == [];
    } else {
      TreeIsHistory(es, bs, i - 1);
      assert es[..i] == es[..i - 1] + [es[i - 1]];
      TreeStepIs(bs[i - 1], es[i - 1], bs[i], bs[0].store, es[..i - 1]);
      StepKeepsTree(bs[i - 1], es[i - 1], bs[i]);
    }
  }

  // ---- Deliveries -----------------------------------------------------------------------------------

  /** A message that the inbox took, and the number of events before it did. */
  datatype Acceptance = Acceptance(msg: Message, at: nat)

  /** The message an event hands to the inbox, if the inbox takes it. */
  ghost function Accepted(b: System, e: Event): Option<Message> {
    if b.stopped then None
    else
      match e
      case SystemSends(msg) => Some(msg)
      case ScheduleFires(i) => if i < |b.scheduled| then Some(b.scheduled[i].msg) else None
      case _ => None
  }

  ghost function Acceptances(es: seq<Event>, bs: seq<System>, i: nat): seq<Acceptance>
    requires i <= |es| < |bs|
  {
    if i == 0 then []
    else
      match Accepted(bs[i - 1], es[i - 1])
      case Some(msg) => Acceptances(es, bs, i - 1) + [Acceptance(msg, i - 1)]
      case None => Acceptances(es, bs, i - 1)
  }

  /** Whoever receives messages for `name`: the instance registered last under it, if that is up. */
  ghost function Addressee(base: Store, es: seq<Event>, name: string): Option<Actor> {
    match LastRegistered(base, es, name)
    case Some(n) => if IsDown(base, es, n) then None else Some(n)
    case None => None
  }

  /** The instance that holds the reference of whoever was registered last under `name`. */
  ghost function HolderFor(base: Store, es: seq<Event>, name: string): Option<Actor> {
    match LastRegistered(base, es, name)
    case None => None
    case Some(x) =>
      match RefOf(base, es, x)
      case None => None
      case Some(r) => HolderOf(base, es, r)
  }

  /** Somebody of another name has taken over the reference of the instance registered last under `name`. */
  ghost predicate Renamed(base: Store, es: seq<Event>, name: string) {
    HolderFor(base, es, name).Some? && HolderFor(base, es, name).value.name != name
  }

  /**
   What the system actor is given of a message that has no addressee: one for itself as it is, one for an
   actor that was never registered, or not any more, marked so, and one for an actor that is still registered
   but down marked so; and marked once more, on the outside, if the system actor is down itself.
   */
  ghost function Redirected(base: Store, es: seq<Event>, msg: Message): Body {
    var rootDown := IsDown(base, es, base.root);
    if msg.to == base.root.name then if rootDown then ForShutDown(msg.body) else msg.body
    else if LastRegistered(base, es, msg.to).Some? then ForShutDown(msg.body)
    else if rootDown then ForShutDown(ForNonExistent(msg.body)) else ForNonExistent(msg.body)
  }

  /** The name a message sent under `name` comes under: that of whoever holds the sender's reference by then. */
  ghost function SeenAs(base: Store, es: seq<Event>, name: string): string {
    match HolderFor(base, es, name)
    case Some(y) => y.name
    case None => name
  }

  /**
   The delivery `h` of the message accepted at `a`: it is that message; the receiver is whoever was
   registered last under the address and is up, who gets the body as it is, or else the system actor, who
   gets it marked; it comes under its sender's name exactly unless the sender has been renamed, and then under
   the new name; and the callback is called as it should.
   */
  ghost predicate DeliveryOk(es: seq<Event>, bs: seq<System>, a: Acceptance, h: Handling)
    requires a.at <= |es| < |bs|
  {
    var base, before := bs[0].store, es[..a.at];
    && h.msg == a.msg
    && h.sender == SeenAs(base, before, a.msg.from)
    && (h.sender == a.msg.from <==> !Renamed(base, before, a.msg.from))
    && RaceOk(h.race) && h.race.asks == a.msg.asks
    && match Addressee(base, before, a.msg.to)
       case Some(n) => h.receiver == n && h.given == a.msg.body
       case None => h.receiver == base.root && h.given == Redirected(base, before, a.msg)
  }

  lemma SenderOk(s: Store, base: Store, es: seq<Event>, msg: Message)
    requires Wired(s) && TreeIs(s, base, es)
    ensures SenderName(s, msg) == SeenAs(base, es, msg.from)
    ensures SenderName(s, msg) == msg.from <==> !Renamed(base, es, msg.from)
  {
    assert LastRegistered(base, es, msg.from) == if msg.from in s.registry then Some(s.registry[msg.from]) else None;
    if msg.from in s.registry {
      var x := s.registry[msg.from];
      assert RefOf(base, es, x) == Some(s.self[x]);
      assert HolderOf(base, es, s.self[x]) == Some(s.target[s.self[x]]);
    }
  }

  lemma ReceiverOk(s: Store, base: Store, es: seq<Event>, msg: Message)
    requires Wired(s) && TreeIs(s, base, es) && s.root == base.root
    ensures match Addressee(base, es, msg.to)
      case Some(n) => Receiver(s, msg) == n && Given(s, msg) == msg.body
      case None => Receiver(s, msg) == base.root && Given(s, msg) == Redirected(base, es, msg)
  {
    ReceiverIsNewest(s, msg);
    assert LastRegistered(base, es, msg.to) == if msg.to in s.registry then Some(s.registry[msg.to]) else None;
    assert s.root in s.dead <==> IsDown(base, es, s.root);
    if msg.to in s.registry {
      var n := s.registry[msg.to];
      assert n in s.dead <==> IsDown(base, es, n);
    }
  }

  lemma HandleOk(es: seq<Event>, bs: seq<System>, i: nat, msg: Message)
    requires Runs(es, bs) && TreeOk(bs[0]) && i <= |es| && Wired(bs[i].store)
    ensures DeliveryOk(es, bs, Acceptance(msg, i), Handle(bs[i].store, msg))
  {
    hide Wired, TreeIs, Renamed, SeenAs, Redirected, Addressee, Steps, Receiver, Given, SenderName;
    TreeIsHistory(es, bs, i);
    SenderOk(bs[i].store, bs[0].store, es[..i], msg);
    ReceiverOk(bs[i].store, bs[0].store, es[..i], msg);
  }

  /** The next state of a race: its timer fires, its receiver throws or returns. */
  ghost predicate Follows(r: Race, r': Race) {
    || (r.timer == Pending && r' == TimerFires(r))
    || (r.stage == Receiving && (r' == ReceiverThrows(r) || exists v :: r' == ReceiverReturns(r, v)))
  }

  lemma RaceMoves(r: Race, r': Race)
    requires RaceOk(r) && Follows(r, r')
    ensures RaceOk(r') && r'.asks == r.asks
  {
  }

  ghost predicate AllDelivered(es: seq<Event>, bs: seq<System>, i: nat)
    requires i <= |es| < |bs|
  {
    var taken := Acceptances(es, bs, i);
    && |bs[i].handlings| == |taken|
    && forall k :: 0 <= k < |taken| ==> taken[k].at <= |es| && DeliveryOk(es, bs, taken[k], bs[i].handlings[k])
  }

  lemma AcceptedStep(es: seq<Event>, bs: seq<System>, i: nat, msg: Message)
    requires Runs(es, bs) && TreeOk(bs[0]) && i < |es| && AllDelivered(es, bs, i) && Wired(bs[i].store)
    requires Accepted(bs[i], es[i]) == Some(msg) && bs[i + 1].handlings == bs[i].handlings + [Handle(bs[i].store, msg)]
    ensures AllDelivered(es, bs, i + 1)
  {
    hide DeliveryOk, TreeOk, Steps, Handle;
    HandleOk(es, bs, i, msg);
  }

  lemma MovedStep(es: seq<Event>, bs: seq<System>, i: nat, k: nat, race: Race)
    requires i < |es| < |bs| && AllDelivered(es, bs, i) && k < |bs[i].handlings|
    requires Follows(bs[i].handlings[k].race, race)
    requires Accepted(bs[i], es[i]) == None && bs[i + 1] == Moved(bs[i], k, race)
    ensures AllDelivered(es, bs, i + 1)
  {
    assert DeliveryOk(es, bs, Acceptances(es, bs, i)[k], bs[i].handlings[k]);
    RaceMoves(bs[i].handlings[k].race, race);
  }

  lemma TreeLeavesDeliveries(b: System, step: TreeStep, b': System)
    requires TreeMoves(b, step, b')
    ensures b'.handlings == b.handlings && b'.stopped == b.stopped && b'.scheduled == b.scheduled
  {
  }

  /** An event that hands nothing to the inbox. */
  lemma OtherStep(es: seq<Event>, bs: seq<System>, i: nat)
    requires Runs(es, bs) && i < |es| && AllDelivered(es, bs, i) && Accepted(bs[i], es[i]) == None
    ensures AllDelivered(es, bs, i + 1)
  {
    hide DeliveryOk, TreeMoves, Handle, Wired, RaceOk, TimerFires, ReceiverReturns, ReceiverThrows;
    var b, e := bs[i], es[i];
    assert Steps(b, e, bs[i + 1]);
    match e
    case AskTimerFires(k) => MovedStep(es, bs, i, k, TimerFires(b.handlings[k].race));
    case Returns(k, v) => MovedStep(es, bs, i, k, ReceiverReturns(b.handlings[k].race, v));
    case Throws(k) => MovedStep(es, bs, i, k, ReceiverThrows(b.handlings[k].race));
    case Tree(step) => TreeLeavesDeliveries(b, step, bs[i + 1]);
    case _ =>
  }

  lemma TakesOne(b: System, e: Event, b': System)
    requires Steps(b, e, b') && Accepted(b, e).Some?
    ensures Wired(b.store) && b'.handlings == b.handlings + [Handle(b.store, Accepted(b, e).value)]
  {
    hide TreeMoves, Handle, Wired;
  }

  /**
   In any interleaving with creations, restarts and shutdowns, be they overlapping and renaming, each
   message the inbox takes is delivered exactly once, in order, to the newest registered instance if that
   is up or else, marked, to the system actor, and under the name of its sender exactly if that has not been
   renamed; there are no other deliveries.
   */
  lemma {:induction false} EachMessageOnce(es: seq<Event>, bs: seq<System>, i: nat)
    requires Runs(es, bs) && TreeOk(bs[0]) && bs[0].handlings == [] && i < |bs|
    ensures AllDelivered(es, bs, i)
  {
    hide DeliveryOk, TreeOk, Steps, Handle, Wired, Accepted;
    if i > 0 {
      EachMessageOnce(es, bs, i - 1);
      var b, e := bs[i - 1], es[i - 1];
      assert Steps(b, e, bs[i]);
      if Accepted(b, e).Some? {
        TakesOne(b, e, bs[i]);
        AcceptedStep(es, bs, i - 1, Accepted(b, e).value);
      } else {
        OtherStep(es, bs, i - 1);
      }
    }
  }

  // ---- What a delivery has come to, by its history ------------------------------------------------------

  /** The first event that can call the callback of delivery `k`. */
  function FirstCall(es: seq<Event>, k: nat): Option<Event> {
    if es == [] then None
    else if FirstCall(es[..|es| - 1], k).Some? then FirstCall(es[..|es| - 1], k)
    else
      match es[|es| - 1]
      case AskTimerFires(j) => if j == k then Some(es[|es| - 1]) else None
      case Returns(j, _) => if j == k then Some(es[|es| - 1]) else None
      case _ => None
  }

  /** The end of the receiver of delivery `k`, if it has come. */
  function EndOf(es: seq<Event>, k: nat): Stage {
    if es == [] then Receiving
    else
      match es[|es| - 1]
      case Returns(j, v) => if j == k then Returned(v) else EndOf(es[..|es| - 1], k)
      case Throws(j) => if j == k then Threw else EndOf(es[..|es| - 1], k)
      case _ => EndOf(es[..|es| - 1], k)
  }

  function CallsOf(asks: bool, first: Option<Event>): seq<Outcome> {
    if !asks || first.None? then []
    else if first.value.Returns? then [Result(first.value.value)]
    else [TimeoutError]
  }

  /** The callback has been called with what came first, the timeout or the value that the receiver returned. */
  ghost predicate RaceIs(race: Race, es: seq<Event>, k: nat) {
    && race.stage == EndOf(es, k)
    && race.calls == CallsOf(race.asks, FirstCall(es, k))
    && (race.asks ==> (race.timer == Pending <==> FirstCall(es, k).None?))
  }

  lemma CallPush(es: seq<Event>, e: Event, k: nat)
    ensures FirstCall(es + [e], k) ==
      if FirstCall(es, k).Some? then FirstCall(es, k)
      else if (e.AskTimerFires? && e.k == k) || (e.Returns? && e.k == k) then Some(e) else None
    ensures EndOf(es + [e], k) ==
      if e.Returns? && e.k == k then Returned(e.value) else if e.Throws? && e.k == k then Threw else EndOf(es, k)
  {
    assert (es + [e])[..|es|] == es;
  }

  /** The deliveries are what their events make them; those to come have had no events. */
  ghost predicate RacesAre(b: System, es: seq<Event>) {
    && (forall k :: 0 <= k < |b.handlings| ==> RaceOk(b.handlings[k].race) && RaceIs(b.handlings[k].race, es, k))
    && forall k: nat {:trigger FirstCall(es, k)} :: k >= |b.handlings| ==>
      FirstCall(es, k).None? && EndOf(es, k) == Receiving
  }

  lemma RaceStep(r: Race, es: seq<Event>, e: Event, k: nat, r': Race)
    requires RaceOk(r) && RaceIs(r, es, k)
    requires (e == AskTimerFires(k) && r.timer == Pending && r' == TimerFires(r))
      || (e.Returns? && e.k == k && r.stage == Receiving && r' == ReceiverReturns(r, e.value))
      || (e == Throws(k) && r.stage == Receiving && r' == ReceiverThrows(r))
    ensures RaceOk(r') && RaceIs(r', es + [e], k)
  {
    CallPush(es, e, k);
  }

  lemma RaceUntouched(r: Race, es: seq<Event>, e: Event, k: nat)
    requires RaceIs(r, es, k) && !Concerns(e, k)
    ensures RaceIs(r, es + [e], k)
  {
    CallPush(es, e, k);
  }

  /** The delivery that the event is about. */
  ghost predicate Concerns(e: Event, k: nat) {
    (e.AskTimerFires? || e.Returns? || e.Throws?) && e.k == k
  }

  lemma RaceMoved(b: System, e: Event, b': System, es: seq<Event>, k: nat)
    requires Steps(b, e, b') && RacesAre(b, es) && Concerns(e, k)
    ensures |b'.handlings| == |b.handlings| && k < |b.handlings|
    ensures RaceOk(b'.handlings[k].race) && RaceIs(b'.handlings[k].race, es + [e], k)
  {
    hide RaceIs, RaceOk, FirstCall, EndOf;
    RaceStep(b.handlings[k].race, es, e, k, b'.handlings[k].race);
  }

  /** Any other delivery is what it was, or is new. */
  lemma RaceKept(b: System, e: Event, b': System, k: nat)
    requires Steps(b, e, b') && k < |b'.handlings| && !Concerns(e, k)
    ensures |b'.handlings| >= |b.handlings|
    ensures b'.handlings[k].race ==
            if k < |b.handlings| then b.handlings[k].race else StartRace(b'.handlings[k].msg.asks)
  {
    hide TreeMoves, Receiver, Given, SenderName, Wired;
    if e.Tree? {
      TreeLeavesDeliveries(b, e.step, b');
    }
  }

  lemma NoFewer(b: System, e: Event, b': System)
    requires Steps(b, e, b')
    ensures |b'.handlings| >= |b.handlings|
    ensures forall k: nat :: Concerns(e, k) ==> k < |b'.handlings|
  {
    hide TreeMoves, Receiver, Given, SenderName, Wired;
    if e.Tree? {
      TreeLeavesDeliveries(b, e.step, b');
    }
  }

  lemma RacesStep(b: System, e: Event, b': System, es: seq<Event>)
    requires Steps(b, e, b') && RacesAre(b, es)
    ensures RacesAre(b', es + [e])
  {
    hide Steps, RaceIs, RaceOk, FirstCall, EndOf;
    NoFewer(b, e, b');
    forall k | 0 <= k < |b'.handlings|
      ensures RaceOk(b'.handlings[k].race) && RaceIs(b'.handlings[k].race, es + [e], k)
    {
      if Concerns(e, k) {
        RaceMoved(b, e, b', es, k);
      } else {
        RaceKept(b, e, b', k);
        if k >= |b.handlings| {
          NewRace(es, k, b'.handlings[k].msg.asks);
        }
        RaceUntouched(b'.handlings[k].race, es, e, k);
      }
    }
    forall k: nat {:trigger FirstCall(es + [e], k)} | k >= |b'.handlings|
      ensures FirstCall(es + [e], k).None? && EndOf(es + [e], k) == Receiving
    {
      assert FirstCall(es, k).None? && !Concerns(e, k);
      CallPush(es, e, k);
    }
  }

  lemma NewRace(es: seq<Event>, k: nat, asks: bool)
    requires FirstCall(es, k).None? && EndOf(es, k) == Receiving
    ensures RaceOk(StartRace(asks)) && RaceIs(StartRace(asks), es, k)
  {
  }

  /**
   In any run: the callback of a delivery has been called with the timeout error if its timer fired first,
   with the very value that the receiver returned if that came first, and not at all if neither came.
   */
  lemma {:induction false} RaceIsHistory(es: seq<Event>, bs: seq<System>, i: nat)
    requires Runs(es, bs) && bs[0].handlings == [] && i < |bs|
    ensures RacesAre(bs[i], es[..i])
  {
    hide Steps, RaceIs, RaceOk;
    if i > 0 {
      RaceIsHistory(es, bs, i - 1);
      assert es[..i] == es[..i - 1] + [es[i - 1]];
      RacesStep(bs[i - 1], es[i - 1], bs[i], es[..i - 1]);
    }
  }

  // ---- What actors have sent ------------------------------------------------------------------------------

  /** The messages actors have sent while the inbox was open, in order. */
  function ActorsSent(es: seq<Event>): seq<Message> {
    if es == [] then []
    else
      var rest := ActorsSent(es[..|es| - 1]);
      if es[|es| - 1].ActorSends? && Stop !in es[..|es| - 1] then rest + [es[|es| - 1].msg] else rest
  }

  /** They are scheduled, and each waits until its timer has fired. */
  ghost predicate ScheduleIs(b: System, es: seq<Event>) {
    && (b.stopped <==> Stop in es) && |b.scheduled| == |ActorsSent(es)|
    && forall j {:trigger b.scheduled[j]} :: 0 <= j < |b.scheduled| ==>
      b.scheduled[j].msg == ActorsSent(es)[j] && (b.scheduled[j].waiting <==> ScheduleFires(j) !in es)
  }

  /** No timer fires that has not been set. */
  ghost predicate FiresAreSet(b: System, es: seq<Event>) {
    forall j: nat :: ScheduleFires(j) in es ==> j < |b.scheduled|
  }

  lemma SentPush(es: seq<Event>, e: Event)
    ensures ActorsSent(es + [e]) == if e.ActorSends? && Stop !in es then ActorsSent(es) + [e.msg] else ActorsSent(es)
    ensures forall d :: d in es + [e] <==> d in es || d == e
  {
    assert (es + [e])[..|es|] == es;
  }

  lemma ScheduleStep(b: System, e: Event, b': System, es: seq<Event>)
    requires Steps(b, e, b') && ScheduleIs(b, es) && FiresAreSet(b, es)
    ensures ScheduleIs(b', es + [e]) && FiresAreSet(b', es + [e])
  {
    hide TreeMoves, ActorsSent, Handle;
    SentPush(es, e);
    if e.Tree? {
      TreeLeavesDeliveries(b, e.step, b');
    }
  }

  /** In any run, what waits in the schedule is what actors sent before the stop, each until its timer fires, once. */
  lemma {:induction false} ScheduleIsHistory(es: seq<Event>, bs: seq<System>, i: nat)
    requires Runs(es, bs) && bs[0].scheduled == [] && !bs[0].stopped && i < |bs|
    ensures ScheduleIs(bs[i], es[..i]) && FiresAreSet(bs[i], es[..i])
  {
    hide Steps, ActorsSent;
    if i == 0 {
      NothingSent();
    } else {
      ScheduleIsHistory(es, bs, i - 1);
      assert es[..i] == es[..i - 1] + [es[i - 1]];
      ScheduleStep(bs[i - 1], es[i - 1], bs[i], es[..i - 1]);
    }
  }

  lemma NothingSent()
    ensures ActorsSent([]) == []
  {
  }

  // ---- Under whose name a message comes ----------------------------------------------------------------

  /** The REWIRE keeps the name. */
  ghost predicate KeepsName(e: Event) {
    e.Tree? && e.step.Rewired? ==> e.step.n.name == e.step.o.name
  }

  lemma NamesStay(b: System, e: Event, b': System)
    requires Steps(b, e, b') && SelfKnown(b.store) && KeepsName(e)
    ensures SelfKnown(b'.store)
  {
    hide UpdateTree, Grows, Wired;
    if e.Tree? && e.step.Rewired? {
      RewireTreeGrows(b.store, e.step.o, e.step.f);
    }
  }

  lemma {:induction false} NamesStayLong(es: seq<Event>, bs: seq<System>, i: nat)
    requires Runs(es, bs) && i < |bs| && SelfKnown(bs[0].store) && forall k :: 0 <= k < i ==> KeepsName(es[k])
    ensures SelfKnown(bs[i].store)
  {
    hide SelfKnown, Steps, KeepsName;
    if i > 0 {
      NamesStayLong(es, bs, i - 1);
      NamesStay(bs[i - 1], es[i - 1], bs[i]);
    }
  }

  /** While restarts keep names, each message comes under its sender's name. */
  lemma SenderIsFrom(es: seq<Event>, bs: seq<System>, i: nat, k: nat)
    requires Runs(es, bs) && TreeOk(bs[0]) && bs[0].handlings == [] && SelfKnown(bs[0].store)
    requires i < |bs| && k < |bs[i].handlings| && forall j :: 0 <= j < i ==> KeepsName(es[j])
    ensures bs[i].handlings[k].sender == bs[i].handlings[k].msg.from
  {
    hide Wired, SelfKnown, Steps, KeepsName, Renamed, RaceOk, Addressee;
    EachMessageOnce(es, bs, i);
    var a := Acceptances(es, bs, i)[k];
    AcceptedBefore(es, bs, i, k);
    assert DeliveryOk(es, bs, a, bs[i].handlings[k]);
    NamesStayLong(es, bs, a.at);
    TreeIsHistory(es, bs, a.at);
    NotRenamed(bs[a.at].store, bs[0].store, es[..a.at], a.msg.from);
  }

  lemma {:induction false} AcceptedBefore(es: seq<Event>, bs: seq<System>, i: nat, k: nat)
    requires i <= |es| < |bs| && k < |Acceptances(es, bs, i)|
    ensures Acceptances(es, bs, i)[k].at < i
  {
    if k < |Acceptances(es, bs, i - 1)| {
      AcceptedBefore(es, bs, i - 1, k);
    }
  }

  lemma NotRenamed(s: Store, base: Store, es: seq<Event>, name: string)
    requires Wired(s) && SelfKnown(s) && TreeIs(s, base, es)
    ensures !Renamed(base, es, name)
  {
    SenderOk(s, base, es, Message(name, "", Plain(Nothing), false));
  }

  /** An actor is created, restarted under another name, and then sends a message. */
  ghost function RenamedRun(o: Actor, f: ActorRefImpl, n: Actor, g: ActorRefImpl, msg: Message): seq<Event> {
    [Tree(Instantiated(o, f)), Tree(Registered(o)), Tree(Instantiated(n, g)), Tree(Registered(n)),
     Tree(Rewired(o, g, f, n)), SystemSends(msg)]
  }

  /** A creation from its begin to its end. */
  lemma Created(b: System, o: Actor, f: ActorRefImpl) returns (b1: System, b2: System)
    requires TreeOk(b) && CanInstantiate(b.store, o, f)
    ensures Steps(b, Tree(Instantiated(o, f)), b1) && Steps(b1, Tree(Registered(o)), b2) && TreeOk(b2)
    ensures CanRegister(Instantiate(b.store, o, f), o)
    ensures b2.store == Register(Instantiate(b.store, o, f), o)
    ensures b2.stopped == b.stopped && b2.handlings == b.handlings
  {
    hide Wired, Grows;
    var s1 := Instantiate(b.store, o, f);
    InstantiateWired(b.store, o, f);
    RegisterWired(s1, o);
    b1 := b.(store := s1, pending := b.pending + {o});
    b2 := b1.(store := Register(s1, o), pending := b1.pending - {o});
  }

  /**
   An actor without an explicit name comes back from a restart under another one. From then on, whoever
   receives a message sent under the old name sees the new one.
   */
  lemma RenamedSenderIsSeen(b: System, o: Actor, f: ActorRefImpl, n: Actor, g: ActorRefImpl, msg: Message)
    returns (bs: seq<System>)
    requires TreeOk(b) && !b.stopped && b.handlings == [] && CanInstantiate(b.store, o, f)
    requires CanInstantiate(b.store, n, g) && n != o && g != f
    requires n.parent == o.parent && |n.name| == |o.name| && n.name != o.name && msg.from == o.name
    ensures Runs(RenamedRun(o, f, n, g, msg), bs) && bs[0] == b && |bs[6].handlings| == 1
    ensures bs[6].handlings[0].msg == msg && bs[6].handlings[0].sender == n.name != msg.from
  {
    hide Wired, Grows, UpdateTree;
    var b1, b2 := Created(b, o, f);
    var b3, b4 := Created(b2, n, g);
    ReplaceEnabled(b4.store, o, g);
    RewireTreeWired(b4.store, o, g);
    var b5 := b4.(store := RewireTree(b4.store, o, g));
    bs := [b, b1, b2, b3, b4, b5, Accept(b5, msg)];
    assert b5.store.registry[o.name] == o && b5.store.self[o] == f && b5.store.target[f] == n;
  }

  /** What the caller of an ask can rely on, at any moment of any run. */
  lemma AskCallback(es: seq<Event>, bs: seq<System>, i: nat, k: nat)
    requires Runs(es, bs) && TreeOk(bs[0]) && bs[0].handlings == [] && i < |bs|
    requires k < |bs[i].handlings| && bs[i].handlings[k].msg.asks
    ensures var r := bs[i].handlings[k].race;
      && |r.calls| <= 1
      && (r.timer != Pending <==> |r.calls| == 1)
      && (r.calls == [TimeoutError] <==> r.timer == Fired)
      && (r.timer == Cleared ==> r.stage.Returned? && r.calls == [Result(r.stage.value)])
  {
    EachMessageOnce(es, bs, i);
    assert DeliveryOk(es, bs, Acceptances(es, bs, i)[k], bs[i].handlings[k]);
  }

  /** A stopped inbox takes nothing. */
  lemma {:induction false} NothingAfterStop(es: seq<Event>, bs: seq<System>, i: nat, j: nat)
    requires Runs(es, bs) && i <= j < |bs| && bs[i].stopped
    ensures bs[j].stopped && |bs[j].handlings| == |bs[i].handlings| && Acceptances(es, bs, j) == Acceptances(es, bs, i)
  {
    hide TreeMoves;
    if i < j {
      NothingAfterStop(es, bs, i, j - 1);
      assert Steps(bs[j - 1], es[j - 1], bs[j]);
      if es[j - 1].Tree? {
        TreeLeavesDeliveries(bs[j - 1], es[j - 1].step, bs[j]);
      }
    }
  }
}
