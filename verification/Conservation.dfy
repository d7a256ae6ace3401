/**
 Conservation over the whole network: an answer is sent for each call of a question's callback and for
 nothing else, and there is at most one such call for each time the question was delivered.
 */
module Conservation {
  import Inbox
  import opened ActorTree
  import opened SocketClient
  import opened ClientRuns
  import opened MessageProxy
  import opened Distribution
  import opened Network
  import Routing

  // ---- Counting deliveries at work and calls of their callbacks ---------------------------------------

  function Handled(hs: seq<Handling>, q: Id): nat {
    if hs == [] then 0 else Handled(hs[..|hs| - 1], q) + One(hs[|hs| - 1].questionId == q)
  }

  function Calls(hs: seq<Handling>, q: Id): nat {
    if hs == [] then 0
    else Calls(hs[..|hs| - 1], q) + if hs[|hs| - 1].questionId == q then |hs[|hs| - 1].race.calls| else 0
  }

  lemma OneMoreHandling(hs: seq<Handling>, h: Handling, q: Id)
    ensures Handled(hs + [h], q) == Handled(hs, q) + One(h.questionId == q)
    ensures Calls(hs + [h], q) == Calls(hs, q) + if h.questionId == q then |h.race.calls| else 0
  {
    assert (hs + [h])[..|hs|] == hs;
  }

  lemma {:induction false} RaceChanges(hs: seq<Handling>, k: nat, race: Inbox.Race, q: Id)
    requires k < |hs| && |race.calls| >= |hs[k].race.calls|
    ensures var hs' := hs[k := hs[k].(race := race)];
      && Handled(hs', q) == Handled(hs, q)
      && Calls(hs', q) == Calls(hs, q) + if hs[k].questionId == q then |race.calls| - |hs[k].race.calls| else 0
  {
    var hs' := hs[k := hs[k].(race := race)];
    if k < |hs| - 1 {
      RaceChanges(hs[..|hs| - 1], k, race, q);
      assert hs'[..|hs| - 1] == hs[..|hs| - 1][k := hs[k].(race := race)];
    } else {
      assert hs'[..|hs| - 1] == hs[..|hs| - 1];
    }
  }

  lemma {:induction false} CallsAtMostHandled(n: Net, hs: seq<Handling>, q: Id)
    requires forall h :: h in hs ==> HandlingOk(n, h)
    ensures Calls(hs, q) <= Handled(hs, q)
    ensures q !in n.sent ==> Handled(hs, q) == 0
  {
    if hs != [] {
      CallsAtMostHandled(n, hs[..|hs| - 1], q);
      assert HandlingOk(n, hs[|hs| - 1]);
    }
  }

  // ---- What an event adds to a log --------------------------------------------------------------------

  lemma FlowStep(me: ClientId, s: ClientState, issued: Issued, e: ClientRuns.Event, q: Id)
    requires ClientOk(s, issued) && Legal(me, s, issued, e)
    ensures Tally(After(me, s, e).log, Delivering, q) ==
            Tally(s.log, Delivering, q) + One(e.Hears? && e.p.Msg? && e.p.id == q)
    ensures Tally(After(me, s, e).log, Answering, q) ==
            Tally(s.log, Answering, q) + One(e.Answers? && e.p.questionId == q)
  {
    hide Tally;
    match e
    case Sweeps(t, ackKeys, questionKeys) =>
      OkIsDisjoint(s, issued);
      AnySweep(s, t, ackKeys, questionKeys);
      assert ShrinksAt(s, After(me, s, e), q);
    case Hears(p) => HearFlows(me, s, p, q);
    case Sends(p, _) => Push(s.log, Transmit(p), q);
    case Asks(p, _) => Push(s.log, Transmit(p), q);
    case Answers(p, _) => Push(s.log, Transmit(p), q);
  }

  lemma HearFlows(me: ClientId, s: ClientState, p: Packet, q: Id)
    ensures Tally(HearStep(s, me, p).log, Delivering, q) == Tally(s.log, Delivering, q) + One(p.Msg? && p.id == q)
    ensures Tally(HearStep(s, me, p).log, Answering, q) == Tally(s.log, Answering, q)
  {
    hide Tally;
    var log, ack := s.log + [Heard(p)], Transmit(Ack(p.id, me, p.origin));
    assert log + [] == log;
    Push(s.log, Heard(p), q);
    match p
    case Msg(id, origin, _, payload) =>
      Push(log, ack, q);
      Push(log + [ack], Deliver(origin, id, payload), q);
    case Ack(id, _, _) => Push(log, Resolve(id), q);
    case Answer(_, _, _, question, outcome) =>
      Push(log, ResolveWith(question, outcome), q);
      Push(if question in s.questions then log + [ResolveWith(question, outcome)] else log, ack, q);
  }

  // ---- The balance ------------------------------------------------------------------------------------

  /** At the target of question `q`: answers sent, callback calls, deliveries at work, deliveries. */
  ghost predicate BalancedAt(n: Net, q: Id) {
    && (q !in n.sent ==> forall c :: c in n.clients ==> Tally(n.clients[c].log, Answering, q) == 0)
    && (q in n.sent && n.sent[q].target in n.clients ==>
          var log := n.clients[n.sent[q].target].log;
          && Tally(log, Answering, q) == Calls(n.handlings, q)
          && Handled(n.handlings, q) <= Tally(log, Delivering, q))
  }

  /** What an event of client `c` adds to the log of client `d`. */
  lemma ActFlows(n: Net, c: ClientId, e: ClientRuns.Event, via: Socket, d: ClientId, q: Id)
    requires CoreOk(n) && CanAct(n, c, e, via) && d in n.clients
    ensures var n' := Act(n, c, e, via);
      && d in n'.clients
      && Tally(n'.clients[d].log, Delivering, q) ==
         Tally(n.clients[d].log, Delivering, q) + One(d == c && e.Hears? && e.p.Msg? && e.p.id == q)
      && Tally(n'.clients[d].log, Answering, q) ==
         Tally(n.clients[d].log, Answering, q) + One(d == c && e.Answers? && e.p.questionId == q)
  {
    hide CoreOk, After, Tally, ClientOk, Legal, PacketOk;
    ActLegal(n, c, e, via);
    if d == c {
      FlowStep(c, n.clients[c], IssuedBy(n.sent, c), e, q);
    }
  }

  /** Nobody handles or answers a question that was not sent. */
  lemma UnsentIsIdle(n: Net, q: Id)
    requires NetOk(n)
    ensures Calls(n.handlings, q) <= Handled(n.handlings, q) && (q !in n.sent ==> Handled(n.handlings, q) == 0)
  {
    HandlingsAreOk(n);
    CallsAtMostHandled(n, n.handlings, q);
  }

  /** The logs of `n'` have grown by this much for question `q`, at client `c` and nowhere else. */
  ghost predicate FlowsBy(n: Net, n': Net, q: Id, c: ClientId, delivered: nat, answered: nat) {
    && (forall d :: d in n.clients <==> d in n'.clients)
    && forall d :: d in n.clients && d in n'.clients ==>
         && Tally(n'.clients[d].log, Delivering, q) ==
            Tally(n.clients[d].log, Delivering, q) + (if d == c then delivered else 0)
         && Tally(n'.clients[d].log, Answering, q) ==
            Tally(n.clients[d].log, Answering, q) + (if d == c then answered else 0)
  }

  lemma AllFlows(n: Net, c: ClientId, e: ClientRuns.Event, via: Socket, q: Id)
    requires CoreOk(n) && CanAct(n, c, e, via)
    ensures FlowsBy(n, Act(n, c, e, via), q, c,
                    One(e.Hears? && e.p.Msg? && e.p.id == q), One(e.Answers? && e.p.questionId == q))
  {
    hide CoreOk, After, Tally, PacketOk;
    forall d | d in n.clients
      ensures d in Act(n, c, e, via).clients
      ensures Tally(Act(n, c, e, via).clients[d].log, Delivering, q) ==
              Tally(n.clients[d].log, Delivering, q) + One(d == c && e.Hears? && e.p.Msg? && e.p.id == q)
      ensures Tally(Act(n, c, e, via).clients[d].log, Answering, q) ==
              Tally(n.clients[d].log, Answering, q) + One(d == c && e.Answers? && e.p.questionId == q)
    {
      ActFlows(n, c, e, via, d, q);
    }
  }

  /** What keeps the balance: the target of `q` answers as often as it calls, and delivers whenever it handles. */
  lemma Rebalance(n: Net, n': Net, q: Id, c: ClientId, delivered: nat, answered: nat)
    requires BalancedAt(n, q) && FlowsBy(n, n', q, c, delivered, answered)
    requires q in n.sent ==> q in n'.sent && n'.sent[q] == n.sent[q]
    requires delivered + answered > 0 ==> q in n.sent && n.sent[q].target == c
    requires q !in n.sent ==> Handled(n.handlings, q) == Calls(n.handlings, q) == 0
    requires Calls(n'.handlings, q) == Calls(n.handlings, q) + answered
    requires Handled(n'.handlings, q) <= Handled(n.handlings, q) + delivered
    ensures BalancedAt(n', q)
  {
    hide Tally, Calls, Handled;
  }

  lemma TakenIsSent(n: Net, p: Packet)
    requires PacketOk(n, p)
    ensures p.Msg? ==> p.id in n.sent && n.sent[p.id] == p
  {
  }

  lemma HearCanAct(n: Net, socket: Socket, p: Packet, via: Socket)
    requires NetOk(n) && socket.owner in n.clients && via.owner == socket.owner && (socket, p) in n.down
    ensures CoreOk(n) && CanAct(n, socket.owner, Hears(p), via)
  {
  }

  lemma PostCanAct(n: Net, c: ClientId, payload: WireMessage, asks: bool, id: Id, deadline: int, via: Socket,
                   e: ClientRuns.Event)
    requires NetOk(n) && c in n.clients && via.owner == c && id !in n.sent && Qualified(payload.to)
    requires Posted(c, payload, asks, id, deadline) == Some(e)
    ensures CoreOk(n) && CanAct(n, c, e, via)
  {
    var system, path :| Routing.PlainName(system) && payload.to == Routing.Address(system, path);
    Routing.RoutingRoundTrip(system, path);
    Routing.LocalIffOwn(system, system, path);
  }

  lemma PostBalanced(n: Net, s: Step, n': Net, q: Id)
    requires NetOk(n) && BalancedAt(n, q) && s.Post? && Steps(n, s, n')
    ensures BalancedAt(n', q)
  {
    hide NetOk, CoreOk, Tally, After, FlowsBy, CanAct, BalancedAt;
    var Post(c, payload, asks, id, deadline, via) := s;
    match Posted(c, payload, asks, id, deadline)
    case None =>
    case Some(e) =>
      PostCanAct(n, c, payload, asks, id, deadline, via, e);
      AllFlows(n, c, e, via, q);
      UnsentIsIdle(n, q);
      Rebalance(n, n', q, c, 0, 0);
  }

  lemma HearBalanced(n: Net, s: Step, n': Net, q: Id)
    requires NetOk(n) && BalancedAt(n, q) && s.Hear? && Steps(n, s, n')
    ensures BalancedAt(n', q)
  {
    hide NetOk, CoreOk, Tally, After, FlowsBy, CanAct, BalancedAt, PacketOk, Calls, Handled;
    var Hear(socket, p, running, via) := s;
    var c, m := socket.owner, Act(n, socket.owner, Hears(p), via);
    TakenIsOk(n, socket, p);
    TakenIsSent(n, p);
    HearCanAct(n, socket, p, via);
    AllFlows(n, c, Hears(p), via, q);
    UnsentIsIdle(n, q);
    if p.Msg? && running && Routing.IsLocal(c, p.payload.to) {
      OneMoreHandling(n.handlings, n'.handlings[|n.handlings|], q);
      FlowsSame(n, m, n', q, c, One(p.Msg? && p.id == q), 0);
    }
    Rebalance(n, n', q, c, One(p.Msg? && p.id == q), 0);
  }

  lemma FlowsSame(n: Net, m: Net, n': Net, q: Id, c: ClientId, delivered: nat, answered: nat)
    requires FlowsBy(n, m, q, c, delivered, answered) && n'.clients == m.clients
    ensures FlowsBy(n, n', q, c, delivered, answered)
  {
  }

  /** A step of a race calls the callback once or not at all. */
  lemma OneCall(r: Inbox.Race, r': Inbox.Race)
    requires RaceMoves(r, r')
    ensures |r.calls| <= |r'.calls| <= |r.calls| + 1
  {
  }

  lemma MovedIsCore(n: Net)
    requires NetOk(n)
    ensures CoreOk(n)
  {
  }

  lemma HandledIsSent(n: Net, k: nat)
    requires NetOk(n) && k < |n.handlings|
    ensures var h := n.handlings[k]; h.questionId in n.sent && n.sent[h.questionId].target == h.at
  {
    HandlingsAreOk(n);
    assert HandlingOk(n, n.handlings[k]);
  }

  /** A delivery that calls its callback, and so answers. */
  lemma CallBalanced(n: Net, k: nat, race: Inbox.Race, id: Id, deadline: int, via: Socket, q: Id)
    requires NetOk(n) && BalancedAt(n, q) && k < |n.handlings| && RaceMoves(n.handlings[k].race, race)
    requires n.handlings[k].at in n.clients && via.owner == n.handlings[k].at && id !in n.sent
    requires |race.calls| > |n.handlings[k].race.calls| && n.handlings[k].payload.askTimeout != 0
    ensures BalancedAt(Act(Moved(n, k, race), via.owner,
      Answers(AnswerFrom(n.handlings[k], id, race.calls[|race.calls| - 1]), deadline), via), q)
  {
    hide NetOk, CoreOk, Tally, After, FlowsBy, BalancedAt, RaceMoves, CanAnswer, Calls, Handled;
    var h, m := n.handlings[k], Moved(n, k, race);
    var answer := AnswerFrom(h, id, race.calls[|race.calls| - 1]);
    OneCall(h.race, race);
    RaceChanges(n.handlings, k, race, q);
    HandledIsSent(n, k);
    UnsentIsIdle(n, q);
    MovedKeeps(n, k, race);
    MovedAnswers(n, k, race, id);
    MovedIsCore(m);
    AllFlows(m, h.at, Answers(answer, deadline), via, q);
    var n' := Act(m, via.owner, Answers(answer, deadline), via);
    FlowsFrom(n, m, n', q, h.at, 0, One(h.questionId == q));
    Rebalance(n, n', q, h.at, 0, One(h.questionId == q));
  }

  lemma MoveBalanced(n: Net, s: Step, n': Net, q: Id)
    requires NetOk(n) && BalancedAt(n, q) && s.Move? && Steps(n, s, n')
    ensures BalancedAt(n', q)
  {
    hide NetOk, CoreOk, Tally, After, FlowsBy, BalancedAt, RaceMoves, CanAnswer, Calls, Handled, Act;
    var Move(k, race, id, deadline, via) := s;
    var h := n.handlings[k];
    CalledIsBound(n, k, race);
    if |race.calls| > |h.race.calls| {
      CallBalanced(n, k, race, id, deadline, via, q);
    } else {
      OneCall(h.race, race);
      RaceChanges(n.handlings, k, race, q);
      UnsentIsIdle(n, q);
      NoFlow(n, n', q, h.at);
      Rebalance(n, n', q, h.at, 0, 0);
    }
  }

  lemma FlowsFrom(n: Net, m: Net, n': Net, q: Id, c: ClientId, delivered: nat, answered: nat)
    requires FlowsBy(m, n', q, c, delivered, answered) && m.clients == n.clients
    ensures FlowsBy(n, n', q, c, delivered, answered)
  {
  }

  lemma NoFlow(n: Net, n': Net, q: Id, c: ClientId)
    requires n'.clients == n.clients
    ensures FlowsBy(n, n', q, c, 0, 0)
  {
  }

  lemma SweepBalanced(n: Net, s: Step, n': Net, q: Id)
    requires NetOk(n) && BalancedAt(n, q) && s.SweepAt? && Steps(n, s, n')
    ensures BalancedAt(n', q)
  {
    hide NetOk, CoreOk, Tally, After, FlowsBy, BalancedAt;
    var SweepAt(c, t, ackKeys, questionKeys) := s;
    MovedIsCore(n);
    UnsentIsIdle(n, q);
    AllFlows(n, c, Sweeps(t, ackKeys, questionKeys), Socket(c, 0), q);
    Rebalance(n, n', q, c, 0, 0);
  }

  lemma StepBalanced(n: Net, s: Step, n': Net, q: Id)
    requires NetOk(n) && BalancedAt(n, q) && Steps(n, s, n')
    ensures BalancedAt(n', q)
  {
    match s
    case Post(_, _, _, _, _, _) => PostBalanced(n, s, n', q);
    case Hear(_, _, _, _) => HearBalanced(n, s, n', q);
    case Move(_, _, _, _, _) => MoveBalanced(n, s, n', q);
    case SweepAt(_, _, _, _) => SweepBalanced(n, s, n', q);
    case _ =>
  }

  lemma {:induction false} AlwaysBalanced(ss: seq<Step>, ns: seq<Net>, k: nat, q: Id)
    requires NetRuns(ss, ns) && k < |ns|
    ensures BalancedAt(ns[k], q)
  {
    hide Steps, NetOk;
    if k > 0 {
      AlwaysBalanced(ss, ns, k - 1, q);
      NetAlwaysOk(ss, ns, k - 1);
      StepBalanced(ns[k - 1], ss[k - 1], ns[k], q);
    }
  }

  /**
   In every reachable state of the network, for each question: its target has sent exactly as many
   answers to it as callbacks of its deliveries were called, each of them at most once, and it has not
   been handled more often than it was delivered.
   */
  lemma AnswersAreConserved(ss: seq<Step>, ns: seq<Net>, k: nat, q: Id)
    requires NetRuns(ss, ns) && k < |ns| && q in ns[k].sent && ns[k].sent[q].target in ns[k].clients
    ensures var n := ns[k]; var log := n.clients[n.sent[q].target].log;
      && Tally(log, Answering, q) == Calls(n.handlings, q)
      && Calls(n.handlings, q) <= Handled(n.handlings, q) <= Tally(log, Delivering, q)
  {
    AlwaysBalanced(ss, ns, k, q);
    NetAlwaysOk(ss, ns, k);
    UnsentIsIdle(ns[k], q);
  }
}
