/**
 What clients put on the wire, and when: the frames of the network are what the clients transmit, each
 message heard is acknowledged once and before it is handed on, and only asking opens a question.
 */
module Transmissions {
  import opened SocketClient
  import opened ClientRuns
  import opened Distribution
  import opened Network
  import opened ActorTree
  import opened Routing

  // ---- Frames ---------------------------------------------------------------------------------------

  /** The frames an event puts on the wire are the packets that the client transmits in it. */
  lemma FramesAreTransmitted(c: ClientId, s: ClientState, issued: Issued, e: ClientRuns.Event)
    requires ClientOk(s, issued) && Legal(c, s, issued, e)
    ensures s.log <= After(c, s, e).log
    ensures Frames(c, e) == set x | x in After(c, s, e).log[|s.log|..] && x.Transmit? :: Data(x.p)
  {
    hide ClientOk, Sweep, ListsExpired;
    LogGrows(c, s, issued, e);
    var added := After(c, s, e).log[|s.log|..];
    match e
    case Sends(p, _) => assert added == [Transmit(p)];
    case Asks(p, _) => assert added == [Transmit(p)];
    case Answers(p, _) => assert added == [Transmit(p)];
    case Hears(p) => HeardFrames(c, s, p);
    case Sweeps(_, _, _) =>
  }

  lemma HeardFrames(c: ClientId, s: ClientState, p: Packet)
    ensures s.log <= HearStep(s, c, p).log
    ensures Frames(c, Hears(p)) == set x | x in HearStep(s, c, p).log[|s.log|..] && x.Transmit? :: Data(x.p)
  {
    var added, ack := HearStep(s, c, p).log[|s.log|..], Transmit(Ack(p.id, c, p.origin));
    match p
    case Msg(id, origin, _, payload) => assert added == [Heard(p), ack, Deliver(origin, id, payload)];
    case Ack(id, _, _) => assert added == [Heard(p)] + if id in s.acks then [Resolve(id)] else [];
    case Answer(_, _, _, q, outcome) =>
      assert added == [Heard(p)] + (if q in s.questions then [ResolveWith(q, outcome)] else []) + [ack];
  }

  // ---- Acknowledging --------------------------------------------------------------------------------

  datatype Flow = Hearing | Acking | Handing

  /** About the message or answer `i` of client `o`: it is heard, acknowledged, handed on. */
  predicate IsFlow(x: Effect, me: ClientId, flow: Flow, i: Id, o: ClientId) {
    match flow
    case Hearing => x.Heard? && !x.p.Ack? && x.p.id == i && x.p.origin == o
    case Acking => x == Transmit(Ack(i, me, o))
    case Handing => x.Deliver? && x.questionId == i && x.origin == o
  }

  function Flowed(log: seq<Effect>, me: ClientId, flow: Flow, i: Id, o: ClientId): nat {
    if log == [] then 0
    else Flowed(log[..|log| - 1], me, flow, i, o) + One(IsFlow(log[|log| - 1], me, flow, i, o))
  }

  lemma FlowPush(log: seq<Effect>, x: Effect, me: ClientId, i: Id, o: ClientId)
    ensures forall flow ::
      Flowed(log + [x], me, flow, i, o) == Flowed(log, me, flow, i, o) + One(IsFlow(x, me, flow, i, o))
    ensures forall kind :: Tally(log + [x], kind, i) == Tally(log, kind, i) + One(Is(x, kind, i))
  {
    assert (log + [x])[..|log|] == log;
  }

  /** Acknowledged only when heard, handed on only when acknowledged, rejected only when reported. */
  ghost predicate InTurn(log: seq<Effect>, me: ClientId, i: Id, o: ClientId) {
    && Flowed(log, me, Handing, i, o) <= Flowed(log, me, Acking, i, o) <= Flowed(log, me, Hearing, i, o)
    && Tally(log, Rejecting, i) <= Tally(log, Reporting, i)
  }

  /** At every moment so far; and by now, everything heard is acknowledged. */
  ghost predicate Matched(log: seq<Effect>, me: ClientId, i: Id, o: ClientId) {
    && AlwaysInTurn(log, me, i, o)
    && Flowed(log, me, Acking, i, o) == Flowed(log, me, Hearing, i, o)
  }

  ghost predicate AlwaysInTurn(log: seq<Effect>, me: ClientId, i: Id, o: ClientId) {
    forall n :: 0 <= n <= |log| ==> InTurn(log[..n], me, i, o)
  }

  lemma TurnNow(log: seq<Effect>, me: ClientId, i: Id, o: ClientId)
    requires AlwaysInTurn(log, me, i, o)
    ensures InTurn(log, me, i, o)
  {
    assert log[..|log|] == log;
  }

  lemma TurnPush(log: seq<Effect>, x: Effect, me: ClientId, i: Id, o: ClientId)
    requires AlwaysInTurn(log, me, i, o) && InTurn(log + [x], me, i, o)
    ensures AlwaysInTurn(log + [x], me, i, o)
  {
    hide InTurn;
    forall n | 0 <= n <= |log + [x]| ensures InTurn((log + [x])[..n], me, i, o) {
      if n <= |log| {
        assert (log + [x])[..n] == log[..n];
      } else {
        assert (log + [x])[..n] == log + [x];
      }
    }
  }

  /** An effect that is none of these. */
  lemma OtherPush(log: seq<Effect>, x: Effect, me: ClientId, i: Id, o: ClientId)
    requires AlwaysInTurn(log, me, i, o) && !x.Reject? && !x.Deliver?
    requires x.Heard? ==> x.p.Ack? || x.p.id != i || x.p.origin != o
    requires x.Transmit? ==> x != Transmit(Ack(i, me, o))
    ensures AlwaysInTurn(log + [x], me, i, o)
    ensures forall flow :: Flowed(log + [x], me, flow, i, o) == Flowed(log, me, flow, i, o)
  {
    hide Flowed, Tally, AlwaysInTurn;
    FlowPush(log, x, me, i, o);
    TurnNow(log, me, i, o);
    TurnPush(log, x, me, i, o);
  }

  /** Hearing a message or answer, and acknowledging it. */
  lemma HeardAndAcked(log: seq<Effect>, p: Packet, settled: seq<Effect>, me: ClientId, i: Id, o: ClientId)
    requires Matched(log, me, i, o) && !p.Ack?
    requires settled == [] || (|settled| == 1 && settled[0].ResolveWith?)
    ensures Matched(log + [Heard(p)] + settled + [Transmit(Ack(p.id, me, p.origin))], me, i, o)
    ensures Flowed(log + [Heard(p)] + settled + [Transmit(Ack(p.id, me, p.origin))], me, Handing, i, o)
            == Flowed(log, me, Handing, i, o)
    ensures Flowed(log + [Heard(p)] + settled + [Transmit(Ack(p.id, me, p.origin))], me, Acking, i, o)
            == Flowed(log, me, Acking, i, o) + One(p.id == i && p.origin == o)
  {
    hide Flowed, Tally, AlwaysInTurn;
    var heard, ack := log + [Heard(p)], Transmit(Ack(p.id, me, p.origin));
    TurnNow(log, me, i, o);
    FlowPush(log, Heard(p), me, i, o);
    TurnPush(log, Heard(p), me, i, o);
    var answered := heard + settled;
    if settled == [] {
      assert answered == heard;
    } else {
      OtherPush(heard, settled[0], me, i, o);
      assert answered == heard + [settled[0]];
    }
    TurnNow(answered, me, i, o);
    FlowPush(answered, ack, me, i, o);
    TurnPush(answered, ack, me, i, o);
  }

  lemma HearMatched(s: ClientState, me: ClientId, p: Packet, i: Id, o: ClientId)
    requires Matched(s.log, me, i, o)
    ensures Matched(HearStep(s, me, p).log, me, i, o)
  {
    hide Flowed, Tally, AlwaysInTurn;
    var heard, ack := s.log + [Heard(p)], Transmit(Ack(p.id, me, p.origin));
    match p
    case Msg(id, origin, _, payload) =>
      HeardAndAcked(s.log, p, [], me, i, o);
      assert heard + [] == heard;
      var acked := heard + [ack];
      TurnNow(s.log, me, i, o);
      TurnNow(acked, me, i, o);
      FlowPush(acked, Deliver(origin, id, payload), me, i, o);
      TurnPush(acked, Deliver(origin, id, payload), me, i, o);
    case Ack(id, _, _) =>
      OtherPush(s.log, Heard(p), me, i, o);
      OtherPush(heard, Resolve(id), me, i, o);
      assert heard + [] == heard;
    case Answer(_, _, _, q, outcome) =>
      HeardAndAcked(s.log, p, if q in s.questions then [ResolveWith(q, outcome)] else [], me, i, o);
  }

  lemma {:induction false} AckSweepMatched(s: ClientState, keys: seq<Id>, me: ClientId, i: Id, o: ClientId)
    requires Matched(s.log, me, i, o)
    ensures Matched(SweepAcks(s, keys).state.log, me, i, o)
    decreases |keys|
  {
    hide Flowed, Tally, AlwaysInTurn;
    if keys != [] {
      if keys[0] !in s.acks {
        AckSweepMatched(s, keys[1..], me, i, o);
      } else if Readable(s.pending, keys[0]) {
        OtherPush(s.log, Report(keys[0], s.pending[keys[0]]), me, i, o);
        AckSweepMatched(ExpireOne(s, keys[0]), keys[1..], me, i, o);
      }
    }
  }

  lemma {:induction false} QuestionSweepMatched(s: ClientState, keys: seq<Id>, me: ClientId, i: Id, o: ClientId)
    requires Matched(s.log, me, i, o)
    ensures Matched(SweepQuestions(s, keys).state.log, me, i, o)
    decreases |keys|
  {
    hide Flowed, Tally, AlwaysInTurn;
    if keys != [] {
      if keys[0] !in s.questions {
        QuestionSweepMatched(s, keys[1..], me, i, o);
      } else if Readable(s.pending, keys[0]) {
        var report := Report(keys[0], s.pending[keys[0]]);
        OtherPush(s.log, report, me, i, o);
        TurnNow(s.log, me, i, o);
        FlowPush(s.log, report, me, i, o);
        FlowPush(s.log + [report], Reject(keys[0]), me, i, o);
        TurnPush(s.log + [report], Reject(keys[0]), me, i, o);
        QuestionSweepMatched(RefuseOne(s, keys[0]), keys[1..], me, i, o);
      }
    }
  }

  lemma StepMatched(s: ClientState, me: ClientId, e: ClientRuns.Event, i: Id, o: ClientId)
    requires Matched(s.log, me, i, o)
    requires e.Sends? || e.Asks? ==> e.p.Msg?
    requires e.Answers? ==> e.p.Answer?
    ensures Matched(After(me, s, e).log, me, i, o)
  {
    hide Flowed, Tally, AlwaysInTurn, HearStep;
    match e
    case Hears(p) => HearMatched(s, me, p, i, o);
    case Sweeps(_, ackKeys, questionKeys) =>
      AckSweepMatched(s, ackKeys, me, i, o);
      QuestionSweepMatched(SweepAcks(s, ackKeys).state, questionKeys, me, i, o);
    case _ => OtherPush(s.log, Transmit(e.p), me, i, o);
  }

  /**
   Over any run of a client, for each message or answer of any other: as many acknowledgements are sent as
   it is heard, each of them after it was heard and before it is handed on; and no question is rejected
   before it is reported.
   */
  lemma {:induction false} HeardIsAckedOnce(me: ClientId, es: seq<ClientRuns.Event>, ss: seq<ClientState>,
                                            made: seq<Issued>, k: nat, i: Id, o: ClientId)
    requires ClientRuns.Runs(me, es, ss, made) && k < |ss|
    ensures Matched(ss[k].log, me, i, o)
  {
    hide Matched, After, IssuedAfter;
    if k == 0 {
      NothingMatched(me, i, o);
    } else {
      HeardIsAckedOnce(me, es, ss, made, k - 1, i, o);
      StepMatched(ss[k - 1], me, es[k - 1], i, o);
    }
  }

  lemma NothingMatched(me: ClientId, i: Id, o: ClientId)
    ensures Matched(NEW_CLIENT.log, me, i, o)
  {
    assert NEW_CLIENT.log[..0] == [];
  }

  // ---- Asking -----------------------------------------------------------------------------------------

  /** `q` is or was an open question of this client. */
  ghost predicate Questioned(s: ClientState, q: Id) {
    q in s.questions || Reject(q) in s.log || exists v :: ResolveWith(q, v) in s.log
  }

  lemma QuestionedPush(s: ClientState, r: ClientState, x: Effect, q: Id)
    requires r.log == s.log + [x] && Questioned(r, q)
    requires q in r.questions ==> q in s.questions
    requires x == Reject(q) || (x.ResolveWith? && x.id == q) ==> q in s.questions
    ensures Questioned(s, q)
  {
    if q !in r.questions && Reject(q) !in r.log {
      var v :| ResolveWith(q, v) in r.log;
      assert ResolveWith(q, v) in s.log || x == ResolveWith(q, v);
    }
  }

  lemma {:induction false} AckSweepAsksNothing(s: ClientState, keys: seq<Id>, q: Id)
    requires Questioned(SweepAcks(s, keys).state, q)
    ensures Questioned(s, q)
    decreases |keys|
  {
    hide Questioned;
    if keys != [] {
      if keys[0] !in s.acks {
        AckSweepAsksNothing(s, keys[1..], q);
      } else if Readable(s.pending, keys[0]) {
        AckSweepAsksNothing(ExpireOne(s, keys[0]), keys[1..], q);
        QuestionedPush(s, ExpireOne(s, keys[0]), Report(keys[0], s.pending[keys[0]]), q);
      }
    }
  }

  lemma {:induction false} QuestionSweepAsksNothing(s: ClientState, keys: seq<Id>, q: Id)
    requires Questioned(SweepQuestions(s, keys).state, q)
    ensures Questioned(s, q)
    decreases |keys|
  {
    hide Questioned;
    if keys != [] {
      if keys[0] !in s.questions {
        QuestionSweepAsksNothing(s, keys[1..], q);
      } else if Readable(s.pending, keys[0]) {
        var r := RefuseOne(s, keys[0]);
        QuestionSweepAsksNothing(r, keys[1..], q);
        var report := Report(keys[0], s.pending[keys[0]]);
        QuestionedPush(s.(log := s.log + [report]), r, Reject(keys[0]), q);
        QuestionedPush(s, s.(log := s.log + [report]), report, q);
      }
    }
  }

  lemma HearAsksNothing(me: ClientId, s: ClientState, p: Packet, q: Id)
    requires Questioned(HearStep(s, me, p), q)
    ensures Questioned(s, q)
  {
    var r := HearStep(s, me, p);
    if q !in r.questions && Reject(q) !in r.log {
      var v :| ResolveWith(q, v) in r.log;
      assert ResolveWith(q, v) in s.log || (p.Answer? && p.questionId == q && q in s.questions);
    }
  }

  /** Only asking opens a question, whatever the network does. */
  lemma OnlyAskingAsks(me: ClientId, s: ClientState, e: ClientRuns.Event, q: Id)
    requires e.Sends? || e.Asks? ==> e.p.Msg?
    requires e.Answers? ==> e.p.Answer?
    requires Questioned(After(me, s, e), q)
    ensures Questioned(s, q) || (e.Asks? && e.p.id == q)
  {
    hide Questioned, HearStep;
    match e
    case Hears(p) => HearAsksNothing(me, s, p, q);
    case Sweeps(_, ackKeys, questionKeys) =>
      if !SweepAcks(s, ackKeys).threw {
        QuestionSweepAsksNothing(SweepAcks(s, ackKeys).state, questionKeys, q);
      }
      AckSweepAsksNothing(s, ackKeys, q);
    case Asks(p, deadline) =>
      if p.id != q {
        QuestionedPush(s, AskStep(s, p, deadline), Transmit(p), q);
      }
    case Sends(p, deadline) => QuestionedPush(s, SendStep(s, p, deadline), Transmit(p), q);
    case Answers(p, deadline) => QuestionedPush(s, AnswerStep(s, p, deadline), Transmit(p), q);
  }

  /** Client `c` posts `q` to another system, asking or not. */
  ghost predicate Posts(step: Step, c: ClientId, q: Id, asks: bool) {
    && step.Post? && step.c == c && step.id == q && step.asks == asks
    && Posted(c, step.payload, asks, q, step.deadline).Some?
  }

  lemma StepAsks(n: Net, s: Step, n': Net, c: ClientId, q: Id)
    requires Steps(n, s, n') && c in n.clients && c in n'.clients && Questioned(n'.clients[c], q)
    ensures Questioned(n.clients[c], q) || Posts(s, c, q, true)
  {
    hide Questioned, After;
    match s
    case Post(d, payload, asks, id, deadline, via) =>
      match Posted(d, payload, asks, id, deadline) {
        case Some(e) =>
          if d == c {
            OnlyAskingAsks(c, n.clients[c], e, q);
          }
        case None =>
      }
    case Hear(socket, p, _, _) =>
      if socket.owner == c {
        OnlyAskingAsks(c, n.clients[c], Hears(p), q);
      }
    case Move(k, race, id, deadline, via) =>
      if via.owner == c && n'.clients != n.clients {
        var h := n.handlings[k];
        OnlyAskingAsks(c, n.clients[c], Answers(AnswerFrom(h, id, race.calls[|race.calls| - 1]), deadline), q);
      }
    case SweepAt(d, t, ackKeys, questionKeys) =>
      if d == c {
        OnlyAskingAsks(c, n.clients[c], Sweeps(t, ackKeys, questionKeys), q);
      }
    case _ =>
  }

  lemma SameClients(n: Net, s: Step, n': Net)
    requires Steps(n, s, n')
    ensures n'.clients.Keys == n.clients.Keys
  {
    hide After;
  }

  /** On the network, whatever is or was an open question was posted to another system by an ask. */
  lemma {:induction false} QuestionsWereAsked(ss: seq<Step>, ns: seq<Net>, k: nat, c: ClientId, q: Id)
    requires NetRuns(ss, ns) && k < |ns| && c in ns[k].clients && Questioned(ns[k].clients[c], q)
    ensures exists j :: 0 <= j < k && Posts(ss[j], c, q, true)
  {
    hide Questioned, Posts, Steps;
    if k == 0 {
      assert ns[0].clients[c] == NEW_CLIENT;
      NothingAsked(q);
    } else {
      assert Steps(ns[k - 1], ss[k - 1], ns[k]);
      SameClients(ns[k - 1], ss[k - 1], ns[k]);
      StepAsks(ns[k - 1], ss[k - 1], ns[k], c, q);
      if Questioned(ns[k - 1].clients[c], q) {
        QuestionsWereAsked(ss, ns, k - 1, c, q);
      }
    }
  }

  lemma NothingAsked(q: Id)
    ensures !Questioned(NEW_CLIENT, q)
  {
  }

  lemma PostIsSent(n: Net, s: Step, n': Net, c: ClientId, q: Id, asks: bool)
    requires Steps(n, s, n') && Posts(s, c, q, asks)
    ensures q !in n.sent && q in n'.sent
  {
    hide After;
  }

  lemma {:induction false} SentStaysSent(ss: seq<Step>, ns: seq<Net>, j: nat, k: nat, q: Id)
    requires NetRuns(ss, ns) && j <= k < |ns| && q in ns[j].sent
    ensures q in ns[k].sent
  {
    hide Steps, NetOk;
    if j < k {
      SentStaysSent(ss, ns, j, k - 1, q);
      NetAlwaysOk(ss, ns, k - 1);
      StepKeepsNet(ns[k - 1], ss[k - 1], ns[k]);
    }
  }

  /** No id is posted to another system twice. */
  lemma PostedOnce(ss: seq<Step>, ns: seq<Net>, i: nat, j: nat, c: ClientId, d: ClientId, q: Id, a: bool, b: bool)
    requires NetRuns(ss, ns) && i < |ss| && j < |ss| && Posts(ss[i], c, q, a) && Posts(ss[j], d, q, b)
    ensures i == j && c == d && a == b
  {
    hide Steps;
    PostIsSent(ns[i], ss[i], ns[i + 1], c, q, a);
    PostIsSent(ns[j], ss[j], ns[j + 1], d, q, b);
    if i < j {
      SentStaysSent(ss, ns, i + 1, j, q);
    } else if j < i {
      SentStaysSent(ss, ns, j + 1, i, q);
    }
  }

  /**
   What is posted without asking opens an acknowledgement and never is a question: it is never open as one,
   answered or rejected. What is posted by an ask opens a question.
   */
  lemma PlainPostIsNoQuestion(ss: seq<Step>, ns: seq<Net>, j: nat, k: nat, c: ClientId, id: Id)
    requires NetRuns(ss, ns) && j < k < |ns| && Posts(ss[j], c, id, false)
    ensures c in ns[j + 1].clients && id in ns[j + 1].clients[c].acks
    ensures c in ns[k].clients ==>
      && id !in ns[k].clients[c].questions && Reject(id) !in ns[k].clients[c].log
      && forall v :: ResolveWith(id, v) !in ns[k].clients[c].log
  {
    PlainPostOpens(ns[j], ss[j], ns[j + 1], c, id);
    hide Steps, Posts, PlainName;
    if c in ns[k].clients && Questioned(ns[k].clients[c], id) {
      QuestionsWereAsked(ss, ns, k, c, id);
      var i :| 0 <= i < k && Posts(ss[i], c, id, true);
      PostedOnce(ss, ns, i, j, c, c, id, true, false);
    }
  }

  lemma PlainPostOpens(n: Net, s: Step, n': Net, c: ClientId, id: Id)
    requires Steps(n, s, n') && Posts(s, c, id, false)
    ensures c in n'.clients && id in n'.clients[c].acks
  {
  }

  // ---- On the network -----------------------------------------------------------------------------------

  lemma StepMatchedOnNet(n: Net, s: Step, n': Net, c: ClientId, i: Id, o: ClientId)
    requires Steps(n, s, n') && c in n.clients && c in n'.clients && Matched(n.clients[c].log, c, i, o)
    ensures Matched(n'.clients[c].log, c, i, o)
  {
    hide Matched, After;
    match s
    case Post(d, payload, asks, id, deadline, via) =>
      match Posted(d, payload, asks, id, deadline) {
        case Some(e) => StepMatched(n.clients[c], c, e, i, o);
        case None =>
      }
    case Hear(socket, p, _, _) => StepMatched(n.clients[c], c, Hears(p), i, o);
    case Move(k, race, id, deadline, via) =>
      if n'.clients != n.clients {
        var h := n.handlings[k];
        StepMatched(n.clients[c], c, Answers(AnswerFrom(h, id, race.calls[|race.calls| - 1]), deadline), i, o);
      }
    case SweepAt(d, t, ackKeys, questionKeys) =>
      StepMatched(n.clients[c], c, Sweeps(t, ackKeys, questionKeys), i, o);
    case _ =>
  }

  /** Every client of the network acknowledges what it hears, once and in turn. */
  lemma {:induction false} NetHeardIsAckedOnce(ss: seq<Step>, ns: seq<Net>, k: nat, c: ClientId, i: Id, o: ClientId)
    requires NetRuns(ss, ns) && k < |ns| && c in ns[k].clients
    ensures Matched(ns[k].clients[c].log, c, i, o)
  {
    hide Matched, Steps;
    if k == 0 {
      NothingMatched(c, i, o);
    } else {
      assert Steps(ns[k - 1], ss[k - 1], ns[k]);
      SameClients(ns[k - 1], ss[k - 1], ns[k]);
      NetHeardIsAckedOnce(ss, ns, k - 1, c, i, o);
      StepMatchedOnNet(ns[k - 1], ss[k - 1], ns[k], c, i, o);
    }
  }
}
