/**
 How a distributed system decides between its own actors and the bus, and how the websocket
 distributor turns messages into packets and binds the answer to the question it belongs to.
 */
module Distribution {
  import Inbox
  import opened Paths
  import opened ActorTree
  import opened SocketClient
  import opened ClientRuns
  import opened Routing

  /** The time the distributor waits for an acknowledgement or an answer. */
  const BUS_TIMEOUT: nat := 5000

  /** The event that a message in the inbox of `me` leads to, if it is for another system. */
  function Posted(me: ClientId, payload: WireMessage, asks: bool, id: Id, deadline: int): Option<Event> {
    match RouteOf(me, payload.to, asks)
    case Local => None
    case AskRemote(target) => Some(Asks(Msg(id, me, target, payload), deadline))
    case SendRemote(target) => Some(Sends(Msg(id, me, target, payload), deadline))
  }

  /** The callback bound to a received question: whom it answers, and which question. */
  datatype Callback = Callback(origin: ClientId, questionId: Id)

  /** A message from the bus asks exactly if it carries a timeout. */
  function Bound(origin: ClientId, questionId: Id, msg: WireMessage): Option<Callback> {
    if msg.askTimeout != 0 then Some(Callback(origin, questionId)) else None
  }

  function AnswerFor(ask: Callback, me: ClientId, id: Id, outcome: Inbox.Outcome): Packet {
    Answer(id, me, ask.origin, ask.questionId, outcome)
  }

  /** What the asker's own callback is given: the answer, be it a value or an error, or a refusal. */
  datatype Reply = Fulfilled(outcome: Inbox.Outcome) | Refused

  function ReplyTo(e: Effect, q: Id): Option<Reply> {
    match e
    case ResolveWith(id, outcome) => if id == q then Some(Fulfilled(outcome)) else None
    case Reject(id) => if id == q then Some(Refused) else None
    case _ => None
  }

  /** All calls of the callback of question `q`. */
  function Replies(log: seq<Effect>, q: Id): seq<Reply> {
    if log == [] then []
    else
      var rest := Replies(log[..|log| - 1], q);
      match ReplyTo(log[|log| - 1], q)
      case Some(reply) => rest + [reply]
      case None => rest
  }

  lemma RepliesPush(log: seq<Effect>, e: Effect, q: Id)
    ensures Replies(log + [e], q) ==
      Replies(log, q) + if ReplyTo(e, q).Some? then [ReplyTo(e, q).value] else []
  {
    assert (log + [e])[..|log|] == log;
    assert Replies(log, q) + [] == Replies(log, q);
  }

  /**
   The callback is called no more often than the promise is settled, with exactly the answers that the
   client resolved the question with, and with a refusal exactly if it rejected the question.
   */
  lemma {:induction false} RepliesAreSettled(log: seq<Effect>, q: Id)
    ensures |Replies(log, q)| <= Tally(log, Settling, q)
    ensures forall v :: Fulfilled(v) in Replies(log, q) <==> ResolveWith(q, v) in log
    ensures Refused in Replies(log, q) <==> Reject(q) in log
  {
    if log != [] {
      RepliesAreSettled(log[..|log| - 1], q);
      assert log == log[..|log| - 1] + [log[|log| - 1]];
    }
  }

  /** An answer to an open question closes it and reaches the asker's callback, as the last call of all. */
  lemma AnswerArrives(me: ClientId, s: ClientState, answer: Packet)
    requires answer.Answer? && answer.questionId in s.questions
    ensures var r := HearStep(s, me, answer);
      && answer.questionId !in r.questions
      && Replies(r.log, answer.questionId) == Replies(s.log, answer.questionId) + [Fulfilled(answer.outcome)]
  {
    hide Replies;
    var q, log := answer.questionId, s.log + [Heard(answer)];
    RepliesPush(s.log, Heard(answer), q);
    RepliesPush(log, ResolveWith(q, answer.outcome), q);
    RepliesPush(log + [ResolveWith(q, answer.outcome)], Transmit(Ack(answer.id, me, answer.origin)), q);
  }

  lemma PlainIsFirst(system: string)
    requires '/' !in system
    ensures FirstSegment(system) == system
  {
  }

  /**
   A question's way there and back: it goes to the system of its address, is local there, and the answer
   that the callback bound there sends is the one that reaches the asker's own callback.
   */
  lemma AskRoundTrip(me: ClientId, system: ClientId, path: string, payload: WireMessage, q: Id, deadline: int,
                     s: ClientState, id: Id, outcome: Inbox.Outcome)
    requires PlainName(system) && '/' !in me && me != system
    requires payload.to == Address(system, path) && payload.askTimeout != 0
    ensures Posted(me, payload, true, q, deadline) == Some(Asks(Msg(q, me, system, payload), deadline))
    ensures forall asks :: RouteOf(system, payload.to, asks) == Local
    ensures Bound(me, q, payload).Some?
    ensures var asked := After(me, s, Asks(Msg(q, me, system, payload), deadline));
      var answer := AnswerFor(Bound(me, q, payload).value, system, id, outcome);
      var answered := HearStep(asked, me, answer);
      && answer.target == me && answer.origin == system && answer.questionId == q
      && q !in answered.questions
      && Replies(answered.log, q) == Replies(s.log, q) + [Fulfilled(outcome)]
  {
    hide Replies, TargetOf, Channel, HearStep, FirstSegment;
    RoutingRoundTrip(system, path);
    LocalIffOwn(me, system, path);
    LocalIffOwn(system, system, path);
    PlainIsFirst(system);
    var p := Msg(q, me, system, payload);
    RepliesPush(s.log, Transmit(p), q);
    assert Replies(s.log, q) + [] == Replies(s.log, q);
    AnswerArrives(me, AskStep(s, p, deadline), AnswerFor(Callback(me, q), system, id, outcome));
  }

  /**
   A message that asks nothing goes to the system of its address and opens an acknowledgement, a question
   opens a question; either keeps its payload for the report and puts one packet on the socket. Nothing is
   posted exactly if the address is the system's own.
   */
  lemma PostedEffects(me: ClientId, system: ClientId, path: string, payload: WireMessage, asks: bool, id: Id,
                      deadline: int, s: ClientState)
    requires PlainName(system) && payload.to == Address(system, path)
    ensures Posted(me, payload, asks, id, deadline).None? <==> IsLocal(me, payload.to)
    ensures Posted(me, payload, asks, id, deadline).Some? ==>
      var e := Posted(me, payload, asks, id, deadline).value;
      && (e.Sends? || e.Asks?) && e.p == Msg(id, me, system, payload)
      && var r := After(me, s, e);
      && r.acks == (if asks then s.acks else s.acks[id := deadline])
      && r.questions == (if asks then s.questions[id := deadline] else s.questions)
      && r.pending == s.pending[id := Request(payload)] && r.log == s.log + [Transmit(Msg(id, me, system, payload))]
  {
    hide TargetOf, Channel;
    RoutingRoundTrip(system, path);
  }

  /** A name that follows another's by the rules of the hierarchy begins with it and a slash. */
  lemma {:induction false} BelowExtends(parent: string, child: string)
    requires ParentPath(child) == parent && 0 < |parent| < |child|
    ensures parent + "/" <= child
  {
    if child[|child| - 1] == '/' {
      assert child == parent + "/";
    } else {
      var shorter := child[..|child| - 1];
      ParentIsShorter(shorter);
      BelowExtends(parent, shorter);
      assert shorter <= child;
    }
  }

  lemma {:induction false} ParentIsShorter(name: string)
    ensures name != "" ==> |ParentPath(name)| < |name|
  {
    if name != "" && name[|name| - 1] != '/' {
      ParentIsShorter(name[..|name| - 1]);
    }
  }

  lemma {:induction false} NameUnderRoot(s: Store, a: Actor)
    requires Closed(s) && s.root.name != "" && a in s.children && a != s.root
    ensures s.root.name + "/" <= a.name
    decreases |a.name|
  {
    var p := s.target[a.parent];
    if p != s.root {
      NameUnderRoot(s, p);
    }
    BelowExtends(p.name, a.name);
    assert p.name <= p.name + "/" <= a.name;
  }

  /** Every registered actor's name is an address of its own system, so messages to it stay there. */
  lemma RegisteredIsLocal(s: Store, system: ClientId, m: string)
    requires Closed(s) && s.root.name == "actors://" + system && m in s.registry
    ensures s.root.name + "/" <= m
    ensures m == Address(system, m[|s.root.name| + 1..]) && forall asks :: RouteOf(system, m, asks) == Local
  {
    NameUnderRoot(s, s.registry[m]);
    assert SCHEME + system + "/" == s.root.name + "/";
    assert m == m[..|s.root.name| + 1] + m[|s.root.name| + 1..];
  }

  class WebsocketDistributor {
    const client: WebsocketClient

    constructor (systemName: string)
      ensures fresh(client) && client.id == systemName && client.State() == NEW_CLIENT
    {
      client := new WebsocketClient(systemName);
    }

    method Send(channel: string, msg: WireMessage, id: Id, now: int)
      modifies client
      ensures client.State() ==
        SendStep(old(client.State()), Msg(id, client.id, TargetOf(channel), msg), now + BUS_TIMEOUT)
    {
      client.Send(TargetOf(channel), msg, BUS_TIMEOUT, id, now);
    }

    method Ask(channel: string, msg: WireMessage, id: Id, now: int)
      modifies client
      ensures client.State() ==
        AskStep(old(client.State()), Msg(id, client.id, TargetOf(channel), msg), now + BUS_TIMEOUT)
    {
      client.Ask(TargetOf(channel), msg, BUS_TIMEOUT, id, now);
    }

    /** The callback given to the client. */
    method OnMessage(origin: ClientId, questionId: Id, msg: WireMessage)
      returns (message: Inbox.Message, ask: Option<Callback>)
      ensures ask == Bound(origin, questionId, msg)
      ensures message == Inbox.Message(msg.from, msg.to, msg.body, ask.Some?)
    {
      ask := None;
      if msg.askTimeout != 0 {
        ask := Some(Callback(origin, questionId));
      }
      message := Inbox.Message(msg.from, msg.to, msg.body, ask.Some?);
    }

    /** What the bound callback does. */
    method Call(ask: Callback, outcome: Inbox.Outcome, id: Id, now: int)
      modifies client
      ensures client.State() ==
        AnswerStep(old(client.State()), AnswerFor(ask, client.id, id, outcome), now + BUS_TIMEOUT)
    {
      client.AnswerQuestion(ask.origin, ask.questionId, outcome, BUS_TIMEOUT, id, now);
    }
  }

  /** A call of an asker's own callback. */
  datatype Call = Call(question: Id, reply: Reply)

  function CallsFor(calls: seq<Call>, q: Id): seq<Reply> {
    if calls == [] then []
    else
      var rest := CallsFor(calls[..|calls| - 1], q);
      if calls[|calls| - 1].question == q then rest + [calls[|calls| - 1].reply] else rest
  }

  lemma CallsPush(calls: seq<Call>, call: Call, q: Id)
    ensures CallsFor(calls + [call], q) == CallsFor(calls, q) + if call.question == q then [call.reply] else []
  {
    assert (calls + [call])[..|calls|] == calls;
    assert CallsFor(calls, q) + [] == CallsFor(calls, q);
  }

  /** The questions whose callbacks wait get exactly what the client has settled them with, nobody else anything. */
  ghost predicate CallsAreReplies(asking: set<Id>, calls: seq<Call>, seen: seq<Effect>) {
    forall q {:trigger CallsFor(calls, q)} :: CallsFor(calls, q) == if q in asking then Replies(seen, q) else []
  }

  lemma SettledOnce(asking: set<Id>, calls: seq<Call>, seen: seq<Effect>, e: Effect, made: seq<Call>)
    requires CallsAreReplies(asking, calls, seen)
    requires made == match e
      case ResolveWith(id, outcome) => if id in asking then [Call(id, Fulfilled(outcome))] else []
      case Reject(id) => if id in asking then [Call(id, Refused)] else []
      case _ => []
    ensures CallsAreReplies(asking, calls + made, seen + [e])
  {
    forall q {:trigger CallsFor(calls + made, q)}
      ensures CallsFor(calls + made, q) == if q in asking then Replies(seen + [e], q) else []
    {
      RepliesPush(seen, e, q);
      assert CallsFor(calls, q) == if q in asking then Replies(seen, q) else [];
      assert Replies(seen, q) + [] == Replies(seen, q) && calls + [] == calls;
      if made != [] {
        CallsPush(calls, made[0], q);
      }
    }
  }

  class DistributedActorSystem {
    const systemName: string
    const distributor: WebsocketDistributor
    /** The questions with a callback to call, and the calls made. */
    var asking: set<Id>
    var calls: seq<Call>
    /** What the client's promises have been settled with so far. */
    ghost var seen: seq<Effect>

    ghost predicate Valid()
      reads this
    {
      distributor.client.id == systemName && CallsAreReplies(asking, calls, seen)
    }

    constructor (systemName: string)
      ensures Valid() && this.systemName == systemName && asking == {} && calls == [] && seen == []
      ensures fresh(distributor) && fresh(distributor.client)
    {
      this.systemName := systemName;
      distributor := new WebsocketDistributor(systemName);
      asking := {};
      calls := [];
      seen := [];
    }

    /**
     The inbox handler: `local` tells that the message is left to `handleInboxMessage`. The id of a message
     is new.
    */
    method RemoteSubscription(msg: WireMessage, asks: bool, id: Id, now: int) returns (local: bool)
      requires Valid() && Replies(seen, id) == []
      modifies this`asking, distributor.client
      ensures Valid()
      ensures var posted := Posted(systemName, msg, asks, id, now + BUS_TIMEOUT);
        && (local <==> posted.None?)
        && asking == old(asking) + (if asks && !local then {id} else {})
        && distributor.client.State() ==
           if local then old(distributor.client.State())
           else After(systemName, old(distributor.client.State()), posted.value)
      ensures !local && !asks ==>
        && id in distributor.client.acks && distributor.client.acks[id] == now + 5000
        && distributor.client.questions == old(distributor.client.questions)
      ensures !local && asks ==>
        && id in distributor.client.questions && distributor.client.questions[id] == now + 5000
        && distributor.client.acks == old(distributor.client.acks)
    {
      if IsLocal(systemName, msg.to) {
        return true;
      }
      local := false;
      if asks {
        distributor.Ask(Channel(msg.to), msg, id, now);
        AskedNow(asking, calls, seen, id);
        asking := asking + {id};
      } else {
        distributor.Send(Channel(msg.to), msg, id, now);
      }
    }

    /** A promise of the client is settled: the asker's callback gets the answer, or a refusal. */
    method OnSettled(e: Effect)
      requires Valid()
      modifies this`calls, this`seen
      ensures Valid() && seen == old(seen) + [e]
      ensures forall q :: q in asking ==> CallsFor(calls, q) == Replies(old(seen) + [e], q)
    {
      var made := [];
      match e {
        case ResolveWith(id, outcome) =>
          if id in asking {
            made := [Call(id, Fulfilled(outcome))];
          }
        case Reject(id) =>
          if id in asking {
            made := [Call(id, Refused)];
          }
        case _ =>
      }
      SettledOnce(asking, calls, seen, e, made);
      calls := calls + made;
      seen := seen + [e];
    }
  }

  /** Nothing has been settled for a question that is only now asked. */
  lemma AskedNow(asking: set<Id>, calls: seq<Call>, seen: seq<Effect>, id: Id)
    requires CallsAreReplies(asking, calls, seen) && Replies(seen, id) == []
    ensures CallsAreReplies(asking + {id}, calls, seen)
  {
    forall q {:trigger CallsFor(calls, q)}
      ensures CallsFor(calls, q) == if q in asking + {id} then Replies(seen, q) else []
    {
    }
  }
}
