/**
 The inbox: where a message goes and from whom it seems to come, the timer that races the receiver of an
 ask, and what an exception leads to.
 */
module Inbox {
  import opened ActorTree
  import opened TidyTree
  import opened WiredTree
  import R = Restarts

  /** Payloads are never looked into, but for whether there is one: `Nothing` is undefined or null. */
  datatype Value = Nothing | Data(token: int)

  datatype Body = Plain(value: Value) | ForNonExistent(original: Body) | ForShutDown(original: Body)

  /** What an ask callback is called with. */
  datatype Outcome = Result(value: Value) | TimeoutError

  datatype Message = Message(from: string, to: string, body: Body, asks: bool)

  datatype Timer = NoTimer | Pending | Fired | Cleared

  datatype Stage = Receiving | Returned(value: Value) | Threw

  /** One delivery: the race between the ask timer and the receiver, with all calls of the callback. */
  datatype Race = Race(asks: bool, timer: Timer, timedOut: bool, stage: Stage, calls: seq<Outcome>)

  function StartRace(asks: bool): Race {
    Race(asks, if asks then Pending else NoTimer, false, Receiving, [])
  }

  function TimerFires(r: Race): Race
    requires r.timer == Pending
  {
    r.(timer := Fired, timedOut := true, calls := r.calls + [TimeoutError])
  }

  /** clearTimeout only affects a timer that is still pending. */
  function ReceiverReturns(r: Race, v: Value): Race
    requires r.stage == Receiving
  {
    if !r.asks then r.(stage := Returned(v))
    else
      r.(stage := Returned(v),
         timer := if r.timer == Pending then Cleared else r.timer,
         calls := if r.timedOut then r.calls else r.calls + [Result(v)])
  }

  function ReceiverThrows(r: Race): Race
    requires r.stage == Receiving
  {
    r.(stage := Threw)
  }

  /** The callback is called at most once, and exactly once when the timer is no longer pending. */
  predicate RaceOk(r: Race) {
    && (!r.asks ==> r.timer == NoTimer && r.calls == [])
    && (r.asks ==> r.timer != NoTimer)
    && (r.timer == Pending ==> r.calls == [] && !r.timedOut && !r.stage.Returned?)
    && (r.timer == Fired ==> r.calls == [TimeoutError] && r.timedOut)
    && (r.timer == Cleared ==> r.stage.Returned? && r.calls == [Result(r.stage.value)])
  }

  // ---- Where a message goes -------------------------------------------------------------------------

  /** Who receives the message. */
  ghost function Receiver(s: Store, msg: Message): Actor {
    if msg.to != s.root.name && msg.to in s.registry && s.registry[msg.to] !in s.dead then s.registry[msg.to]
    else s.root
  }

  /** What the receiver is given: a message for nobody is wrapped, and wrapped again if the system actor is down. */
  ghost function Given(s: Store, msg: Message): Body {
    if msg.to == s.root.name then (if s.root in s.dead then ForShutDown(msg.body) else msg.body)
    else if msg.to !in s.registry then
      (if s.root in s.dead then ForShutDown(ForNonExistent(msg.body)) else ForNonExistent(msg.body))
    else if s.registry[msg.to] in s.dead then ForShutDown(msg.body)
    else msg.body
  }

  /** The name that the receiver sees as the sender's. */
  ghost function SenderName(s: Store, msg: Message): string
    requires Wired(s)
  {
    if msg.from in s.registry then s.target[s.self[s.registry[msg.from]]].name else msg.from
  }

  /**
   In every state without dangling references, whatever restarts and shutdowns are going on: the
   registered instance gets the message as it is if it is up; otherwise the message goes to the system
   actor, as it is only if it was sent there and the system actor is up.
   */
  lemma ReceiverIsNewest(s: Store, msg: Message)
    requires Wired(s)
    ensures msg.to in s.registry && s.registry[msg.to] !in s.dead ==>
      Receiver(s, msg) == s.registry[msg.to] && Given(s, msg) == msg.body
    ensures !(msg.to in s.registry && s.registry[msg.to] !in s.dead) ==>
      Receiver(s, msg) == s.root && (Given(s, msg) == msg.body <==> msg.to == s.root.name && s.root !in s.dead)
  {
    if msg.to in s.registry {
      LongerName(s, s.registry[msg.to]);
    }
  }

  /** While a restart goes on, the message goes to the fresh instance from its REGISTER on, to the old one before. */
  lemma ReceiverMidRestart(s0: Store, plan: R.Plan, reg: set<Actor>, rew: set<Actor>, s: Store, msg: Message)
    requires Tidy(s0) && R.PlanOk(s0, plan) && R.Mid(s0, plan, reg, rew, s) && msg.to in s0.registry
    ensures Receiver(s, msg) == R.Hold(plan, reg, s0.registry[msg.to]) && Given(s, msg) == msg.body
  {
    var o := s0.registry[msg.to];
    assert o in plan ==> R.FreshOk(s0, plan, o);
    assert s.registry[msg.to] == R.Hold(plan, reg, o) && s.registry[msg.to] !in s.dead;
    ClosedIsWired(s);
    ReceiverIsNewest(s, msg);
  }

  /** A run of `handleInboxMessage`, suspended while its receiver is working. */
  class Delivery {
    const target: Actor
    const sender: string
    const body: Body
    const asks: bool
    var timer: Timer
    var timedOut: bool
    var stage: Stage
    var calls: seq<Outcome>

    function View(): Race
      reads this
    {
      Race(asks, timer, timedOut, stage, calls)
    }

    constructor (target: Actor, sender: string, body: Body, asks: bool)
      ensures this.target == target && this.sender == sender && this.body == body
      ensures View() == StartRace(asks)
    {
      this.target := target;
      this.sender := sender;
      this.body := body;
      this.asks := asks;
      timer := if asks then Pending else NoTimer;
      timedOut := false;
      stage := Receiving;
      calls := [];
    }

    method OnTimer()
      requires timer == Pending
      modifies this
      ensures View() == TimerFires(old(View()))
    {
      timer := Fired;
      timedOut := true;
      calls := calls + [TimeoutError];
    }

    method OnReturn(v: Value)
      requires stage == Receiving
      modifies this
      ensures View() == ReceiverReturns(old(View()), v)
    {
      stage := Returned(v);
      if asks {
        if timer == Pending {
          timer := Cleared;
        }
        if !timedOut {
          calls := calls + [Result(v)];
        }
      }
    }

    /** The catch block: the timer is left alone. */
    method OnThrow()
      requires stage == Receiving
      modifies this
      ensures View() == ReceiverThrows(old(View()))
    {
      stage := Threw;
    }
  }

  /** `handleInboxMessage` up to the call of `receive`. */
  method HandleInboxMessage(system: ActorSystem, msg: Message) returns (d: Delivery)
    requires system.Known() && Wired(system.View())
    ensures fresh(d) && d.target == Receiver(system.View(), msg) && d.body == Given(system.View(), msg)
    ensures d.sender == SenderName(system.View(), msg)
    ensures d.View() == StartRace(msg.asks)
  {
    ghost var s := system.View();
    var target: Actor? := null;
    var body := msg.body;
    if msg.to in system.actors {
      target := system.actors[msg.to];
      assert target in s.children;
    }
    if msg.to == system.systemActor.name {
      target := system.systemActor;
    }
    if target == null {
      target := system.systemActor;
      body := ForNonExistent(body);
    }
    assert target.isShutdown <==> target in s.dead;
    if target.isShutdown {
      target := system.systemActor;
      body := ForShutDown(body);
    }
    var sender := msg.from;
    if msg.from in system.actors {
      var from := system.actors[msg.from];
      assert from in s.children && s.self[from] == from.actorRef;
      assert s.target[from.actorRef] == from.actorRef.actor;
      sender := from.actorRef.actor.name;
    }
    d := new Delivery(target, sender, body, msg.asks);
  }

  datatype Supervision = RestartActor(actor: Actor) | ShutdownActor(actor: Actor) | LeaveAlone

  /** The catch block of `handleInboxMessage`: it looks the address up again. */
  method Supervise(system: ActorSystem, msg: Message) returns (r: Supervision)
    requires system.Known() && Wired(system.View())
    ensures msg.to !in system.actors ==> r == LeaveAlone
    ensures msg.to in system.actors ==>
      match system.actors[msg.to].strategy
      case Restart => r == RestartActor(system.actors[msg.to])
      case Resume => r == LeaveAlone
      case Shutdown => r == ShutdownActor(system.actors[msg.to])
    ensures !r.LeaveAlone? ==> r.actor != system.systemActor && r.actor.name == msg.to
  {
    r := LeaveAlone;
    if msg.to in system.actors {
      var target := system.actors[msg.to];
      assert system.View().registry[msg.to] == target;
      match target.strategy
      case Restart => r := RestartActor(target);
      case Resume =>
      case Shutdown => r := ShutdownActor(target);
    }
  }
}
