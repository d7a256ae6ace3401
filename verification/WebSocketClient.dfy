/**
 The websocket client: the maps of open acknowledgements, open questions and pending messages, and
 everything the client does with them.
 */
module SocketClient {
  import opened Inbox

  /** The name of an actor system, which is also its client id. */
  type ClientId = string
  type Id = nat

  /** An actor message as it crosses the wire: the callback is gone, its timeout is not. */
  datatype WireMessage = WireMessage(from: string, to: string, body: Body, askTimeout: nat)

  datatype Packet =
    | Msg(id: Id, origin: ClientId, target: ClientId, payload: WireMessage)
    | Ack(id: Id, origin: ClientId, target: ClientId)
    | Answer(id: Id, origin: ClientId, target: ClientId, questionId: Id, outcome: Outcome)

  /** A payload kept for error reports. */
  datatype Content = Request(payload: WireMessage) | Response(outcome: Outcome)

  /** What the client does to the world, and what it hears from it. */
  datatype Effect =
    | Heard(p: Packet)
    | Transmit(p: Packet)
    | Resolve(id: Id)
    | ResolveWith(id: Id, outcome: Outcome)
    | Reject(id: Id)
    | Report(id: Id, content: Content)
    | Deliver(origin: ClientId, questionId: Id, payload: WireMessage)

  datatype ClientState = ClientState(
    acks: map<Id, int>,
    questions: map<Id, int>,
    pending: map<Id, Content>,
    log: seq<Effect>)

  const NEW_CLIENT := ClientState(map[], map[], map[], [])

  function SendStep(s: ClientState, p: Packet, deadline: int): ClientState
    requires p.Msg?
  {
    s.(acks := s.acks[p.id := deadline], pending := s.pending[p.id := Request(p.payload)], log := s.log + [Transmit(p)])
  }

  function AnswerStep(s: ClientState, p: Packet, deadline: int): ClientState
    requires p.Answer?
  {
    s.(acks := s.acks[p.id := deadline], pending := s.pending[p.id := Response(p.outcome)],
      log := s.log + [Transmit(p)])
  }

  function AskStep(s: ClientState, p: Packet, deadline: int): ClientState
    requires p.Msg?
  {
    s.(questions := s.questions[p.id := deadline], pending := s.pending[p.id := Request(p.payload)],
       log := s.log + [Transmit(p)])
  }

  function HearStep(s: ClientState, me: ClientId, p: Packet): ClientState {
    match p
    case Msg(id, origin, _, payload) =>
      s.(log := s.log + [Heard(p)] + [Transmit(Ack(id, me, origin))] + [Deliver(origin, id, payload)])
    case Ack(id, _, _) =>
      s.(acks := s.acks - {id}, pending := s.pending - {id},
         log := s.log + [Heard(p)] + if id in s.acks then [Resolve(id)] else [])
    case Answer(id, origin, _, questionId, outcome) =>
      s.(questions := s.questions - {questionId}, pending := s.pending - {id},
         log := s.log + [Heard(p)] + (if questionId in s.questions then [ResolveWith(questionId, outcome)] else [])
           + [Transmit(Ack(id, me, origin))])
  }

  // ---- The sweep --------------------------------------------------------------------------------------

  /** The state after a sweep, and whether it was cut short by an exception. */
  datatype Swept = Swept(state: ClientState, threw: bool)

  /** The error report reads a field of the pending payload, which fails when there is no payload to read. */
  predicate Readable(pending: map<Id, Content>, k: Id) {
    k in pending && pending[k] != Response(Result(Nothing))
  }

  function SweepAcks(s: ClientState, keys: seq<Id>): Swept
    decreases |keys|
  {
    if keys == [] then Swept(s, false)
    else if keys[0] !in s.acks then SweepAcks(s, keys[1..])
    else if !Readable(s.pending, keys[0]) then Swept(s, true)
    else
      SweepAcks(s.(acks := s.acks - {keys[0]}, pending := s.pending - {keys[0]},
                   log := s.log + [Report(keys[0], s.pending[keys[0]])]), keys[1..])
  }

  function SweepQuestions(s: ClientState, keys: seq<Id>): Swept
    decreases |keys|
  {
    if keys == [] then Swept(s, false)
    else if keys[0] !in s.questions then SweepQuestions(s, keys[1..])
    else if !Readable(s.pending, keys[0]) then Swept(s, true)
    else
      SweepQuestions(s.(questions := s.questions - {keys[0]}, pending := s.pending - {keys[0]},
                        log := s.log + [Report(keys[0], s.pending[keys[0]])] + [Reject(keys[0])]), keys[1..])
  }

  function Sweep(s: ClientState, ackKeys: seq<Id>, questionKeys: seq<Id>): Swept {
    var first := SweepAcks(s, ackKeys);
    if first.threw then first else SweepQuestions(first.state, questionKeys)
  }

  /** `keys` lists the entries whose deadline is before `t`, each once, in the map's iteration order. */
  ghost predicate ListsExpired(keys: seq<Id>, deadlines: map<Id, int>, t: int) {
    && (forall k :: k in keys <==> k in deadlines && deadlines[k] < t)
    && (forall i, j :: 0 <= i < j < |keys| ==> keys[i] != keys[j])
  }

  class WebsocketClient {
    const id: ClientId
    var acks: map<Id, int>
    var questions: map<Id, int>
    var pending: map<Id, Content>
    var log: seq<Effect>

    function State(): ClientState
      reads this
    {
      ClientState(acks, questions, pending, log)
    }

    constructor (id: ClientId)
      ensures this.id == id && State() == NEW_CLIENT
    {
      this.id := id;
      acks, questions, pending, log := map[], map[], map[], [];
    }

    /** `messageId` is the uuid made for the message, `now` the time. */
    method Send(targetId: ClientId, msg: WireMessage, timeout: nat, messageId: Id, now: int)
      modifies this
      ensures State() == SendStep(old(State()), Msg(messageId, id, targetId, msg), now + timeout)
    {
      acks := acks[messageId := now + timeout];
      pending := pending[messageId := Request(msg)];
      log := log + [Transmit(Msg(messageId, id, targetId, msg))];
    }

    method AnswerQuestion(targetId: ClientId, questionId: Id, outcome: Outcome, timeout: nat, messageId: Id, now: int)
      modifies this
      ensures State() == AnswerStep(old(State()), Answer(messageId, id, targetId, questionId, outcome), now + timeout)
    {
      acks := acks[messageId := now + timeout];
      pending := pending[messageId := Response(outcome)];
      log := log + [Transmit(Answer(messageId, id, targetId, questionId, outcome))];
    }

    method Ask(targetId: ClientId, msg: WireMessage, timeout: nat, messageId: Id, now: int)
      modifies this
      ensures State() == AskStep(old(State()), Msg(messageId, id, targetId, msg), now + timeout)
    {
      questions := questions[messageId := now + timeout];
      pending := pending[messageId := Request(msg)];
      log := log + [Transmit(Msg(messageId, id, targetId, msg))];
    }

    /** The `onmessage` handler. */
    method OnMessage(p: Packet)
      modifies this
      ensures State() == HearStep(old(State()), id, p)
    {
      log := log + [Heard(p)];
      match p
      case Msg(msgId, origin, _, payload) =>
        log := log + [Transmit(Ack(msgId, id, origin))];
        log := log + [Deliver(origin, msgId, payload)];
      case Ack(msgId, _, _) =>
        if msgId in acks {
          log := log + [Resolve(msgId)];
        }
        acks := acks - {msgId};
        pending := pending - {msgId};
      case Answer(msgId, origin, _, questionId, outcome) =>
        if questionId in questions {
          log := log + [ResolveWith(questionId, outcome)];
        }
        questions := questions - {questionId};
        pending := pending - {msgId};
        log := log + [Transmit(Ack(msgId, id, origin))];
    }

    /** The keys whose deadline has passed; any order stands for the map's insertion order. */
    static method ExpiredKeys(deadlines: map<Id, int>, t: int) returns (keys: seq<Id>)
      ensures ListsExpired(keys, deadlines, t)
    {
      keys := [];
      var todo := deadlines.Keys;
      while todo != {}
        invariant todo <= deadlines.Keys
        invariant forall k :: k in keys <==> k in deadlines && k !in todo && deadlines[k] < t
        invariant forall i, j :: 0 <= i < j < |keys| ==> keys[i] != keys[j]
        decreases todo
      {
        var k :| k in todo;
        todo := todo - {k};
        if deadlines[k] < t {
          keys := keys + [k];
        }
      }
    }

    /** The periodic sweep; `threw` tells that it was left by an exception. */
    method HandleTimeouts(t: int) returns (threw: bool, ackKeys: seq<Id>, questionKeys: seq<Id>)
      modifies this
      ensures ListsExpired(ackKeys, old(acks), t)
      ensures !SweepAcks(old(State()), ackKeys).threw ==> ListsExpired(questionKeys, old(questions), t)
      ensures Swept(State(), threw) == Sweep(old(State()), ackKeys, questionKeys)
    {
      ghost var s0 := State();
      questionKeys := [];
      ackKeys := ExpiredKeys(acks, t);
      for i := 0 to |ackKeys|
        invariant questions == s0.questions
        invariant SweepAcks(State(), ackKeys[i..]) == SweepAcks(s0, ackKeys)
      {
        var key := ackKeys[i];
        assert ackKeys[i..][1..] == ackKeys[i + 1..];
        if key in acks {
          if !Readable(pending, key) {
            return true, ackKeys, questionKeys;
          }
          log := log + [Report(key, pending[key])];
          acks := acks - {key};
          pending := pending - {key};
        }
      }
      ghost var s1 := State();
      questionKeys := ExpiredKeys(questions, t);
      for i := 0 to |questionKeys|
        invariant SweepQuestions(State(), questionKeys[i..]) == SweepQuestions(s1, questionKeys)
      {
        var key := questionKeys[i];
        assert questionKeys[i..][1..] == questionKeys[i + 1..];
        if key in questions {
          if !Readable(pending, key) {
            return true, ackKeys, questionKeys;
          }
          log := log + [Report(key, pending[key])];
          questions := questions - {key};
          pending := pending - {key};
          log := log + [Reject(key)];
        }
      }
      threw := false;
    }
  }
}
