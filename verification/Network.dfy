/**
 Actor systems talking through the proxy, over sockets that lose, duplicate and reorder frames: a
 frame put on a socket may be taken off any number of times, at any time, or never.
 */
module Network {
  import Inbox
  import opened ActorTree
  import opened SocketClient
  import opened ClientRuns
  import opened Distribution
  import opened MessageProxy
  import opened Routing

  datatype Frame = Announce(id: ClientId) | Data(p: Packet)

  /** A message of another system at work in the inbox of system `at`. */
  datatype Handling = Handling(at: ClientId, origin: ClientId, questionId: Id, payload: WireMessage, race: Inbox.Race)

  datatype Net = Net(
    clients: map<ClientId, ClientState>,
    sockets: map<ClientId, Socket>,
    up: set<(Socket, Frame)>,
    down: set<(Socket, Packet)>,
    sent: Issued,
    handlings: seq<Handling>)

  function IssuedBy(sent: Issued, c: ClientId): Issued {
    map i | i in sent && sent[i].origin == c :: sent[i]
  }

  // ---- Steps ----------------------------------------------------------------------------------------

  /** The frames a client event puts on the wire. */
  function Frames(c: ClientId, e: ClientRuns.Event): set<Frame> {
    match e
    case Sends(p, _) => {Data(p)}
    case Asks(p, _) => {Data(p)}
    case Answers(p, _) => {Data(p)}
    case Hears(p) => if p.Ack? then {} else {Data(Ack(p.id, c, p.origin))}
    case Sweeps(_, _, _) => {}
  }

  /** Client `c` takes an event, using its socket `via` to transmit. */
  ghost function Act(n: Net, c: ClientId, e: ClientRuns.Event, via: Socket): Net
    requires c in n.clients
    requires e.Sends? || e.Asks? ==> e.p.Msg?
    requires e.Answers? ==> e.p.Answer?
  {
    n.(clients := n.clients[c := After(c, n.clients[c], e)],
       sent := IssuedAfter(n.sent, e),
       up := n.up + set f | f in Frames(c, e) :: (via, f))
  }

  /** The answer that a call of the callback sends that was bound to the question. */
  function AnswerFrom(h: Handling, id: Id, outcome: Inbox.Outcome): Packet
    requires h.payload.askTimeout != 0
  {
    AnswerFor(Bound(h.origin, h.questionId, h.payload).value, h.at, id, outcome)
  }

  datatype Step =
    | Connect(socket: Socket)
    | ProxyHears(socket: Socket, f: Frame)
    | ProxyCloses(socket: Socket)
    | Post(c: ClientId, payload: WireMessage, asks: bool, id: Id, deadline: int, via: Socket)
    | Hear(socket: Socket, p: Packet, running: bool, via: Socket)
    | Move(k: nat, race: Inbox.Race, id: Id, deadline: int, via: Socket)
    | SweepAt(c: ClientId, t: int, ackKeys: seq<Id>, questionKeys: seq<Id>)

  /** The steps of one delivery: its timer fires, its receiver returns or throws. */
  ghost predicate RaceMoves(r: Inbox.Race, r': Inbox.Race) {
    || (r.timer == Inbox.Pending && r' == Inbox.TimerFires(r))
    || (r.stage == Inbox.Receiving && exists v :: r' == Inbox.ReceiverReturns(r, v))
    || (r.stage == Inbox.Receiving && r' == Inbox.ReceiverThrows(r))
  }

  /** An address with a system name and a path, where the system name is free of '/' and '.'. */
  ghost predicate Qualified(address: string) {
    exists system, path :: PlainName(system) && address == Address(system, path)
  }

  /** A delivery goes on; when it calls its callback, the client sends the answer. */
  ghost function Moved(n: Net, k: nat, race: Inbox.Race): Net
    requires k < |n.handlings|
  {
    n.(handlings := n.handlings[k := n.handlings[k].(race := race)])
  }

  ghost predicate Steps(n: Net, s: Step, n': Net) {
    match s
    case Connect(socket) => n' == n.(up := n.up + {(socket, Announce(socket.owner))})
    case ProxyHears(socket, f) =>
      && (socket, f) in n.up
      && (match f
          case Announce(id) => n'.sockets == n.sockets[id := socket] && n' == n.(sockets := n'.sockets)
          case Data(p) =>
            match Forwarded(n.sockets, p)
            case Some(to) => n' == n.(down := n.down + {(to, p)})
            case None => n' == n)
    case ProxyCloses(socket) =>
      Changes(n.sockets, Closed(socket), n'.sockets) && n' == n.(sockets := n'.sockets)
    case Post(c, payload, asks, id, deadline, via) =>
      && c in n.clients && via.owner == c && id !in n.sent && Qualified(payload.to)
      && (match Posted(c, payload, asks, id, deadline)
          case Some(e) => n' == Act(n, c, e, via)
          case None => n' == n)
    case Hear(socket, p, running, via) =>
      var c := socket.owner;
      && c in n.clients && via.owner == c && (socket, p) in n.down
      && n' == (if p.Msg? && running && IsLocal(c, p.payload.to)
                then var m := Act(n, c, Hears(p), via);
                     m.(handlings := m.handlings + [Handling(c, p.origin, p.id, p.payload,
                       Inbox.StartRace(Bound(p.origin, p.id, p.payload).Some?))])
                else Act(n, c, Hears(p), via))
    case Move(k, race, id, deadline, via) =>
      && k < |n.handlings| && RaceMoves(n.handlings[k].race, race) && n.handlings[k].at in n.clients
      && via.owner == n.handlings[k].at && id !in n.sent
      && n' == (if |race.calls| > |n.handlings[k].race.calls| && n.handlings[k].payload.askTimeout != 0
                then Act(Moved(n, k, race), via.owner,
                         Answers(AnswerFrom(n.handlings[k], id, race.calls[|race.calls| - 1]), deadline), via)
                else Moved(n, k, race))
    case SweepAt(c, t, ackKeys, questionKeys) =>
      && c in n.clients
      && ListsExpired(ackKeys, n.clients[c].acks, t) && ListsExpired(questionKeys, n.clients[c].questions, t)
      && n' == Act(n, c, Sweeps(t, ackKeys, questionKeys), Socket(c, 0))
  }

  // ---- The invariant --------------------------------------------------------------------------------

  /** The callback for question `q` was called with `v`. */
  ghost predicate Called(n: Net, q: Id, v: Inbox.Outcome) {
    exists k :: 0 <= k < |n.handlings| && n.handlings[k].questionId == q && v in n.handlings[k].race.calls
  }

  /** The message was processed by the client it was sent to. */
  ghost predicate Processed(n: Net, i: Id) {
    i in n.sent && n.sent[i].target in n.clients && Heard(n.sent[i]) in n.clients[n.sent[i].target].log
  }

  /** A packet in flight is a message that was sent, or the acknowledgement of one that was processed. */
  ghost predicate PacketOk(n: Net, p: Packet) {
    && p.id in n.sent
    && if p.Ack?
       then n.sent[p.id].target == p.origin && n.sent[p.id].origin == p.target && Processed(n, p.id)
       else n.sent[p.id] == p
  }

  ghost predicate UpOk(n: Net, socket: Socket, f: Frame) {
    match f
    case Announce(id) => id == socket.owner
    case Data(p) => PacketOk(n, p)
  }

  /**
   Nobody sends to itself; an answer answers a question sent to its sender, with what the callback was
   called with.
  */
  ghost predicate SentOk(n: Net, i: Id)
    requires i in n.sent
  {
    var p := n.sent[i];
    && p.target != p.origin
    && (p.Msg? ==> IsLocal(p.target, p.payload.to))
    && (p.Answer? ==>
          && p.questionId in n.sent && n.sent[p.questionId].Msg?
          && n.sent[p.questionId].origin == p.target && n.sent[p.questionId].target == p.origin
          && Called(n, p.questionId, p.outcome))
  }

  ghost predicate EffectOk(n: Net, c: ClientId, e: Effect) {
    match e
    case Resolve(i) => Processed(n, i) && n.sent[i].origin == c
    case ResolveWith(q, v) => q in n.sent && n.sent[q].Msg? && n.sent[q].origin == c && Called(n, q, v)
    case Deliver(origin, q, payload) => q in n.sent && n.sent[q] == Msg(q, origin, c, payload)
    case _ => true
  }

  ghost predicate LogOk(n: Net, c: ClientId)
    requires c in n.clients
  {
    forall e :: e in n.clients[c].log ==> EffectOk(n, c, e)
  }

  ghost predicate BooksOk(n: Net, c: ClientId)
    requires c in n.clients
  {
    ClientOk(n.clients[c], IssuedBy(n.sent, c))
  }

  ghost predicate HandlingOk(n: Net, h: Handling) {
    && h.questionId in n.sent && n.sent[h.questionId] == Msg(h.questionId, h.origin, h.at, h.payload)
    && Inbox.RaceOk(h.race) && h.race.asks == (h.payload.askTimeout != 0)
  }

  /** The registrations and the frames in flight. */
  ghost predicate WireOk(n: Net) {
    && (forall id :: id in n.sockets ==> n.sockets[id].owner == id)
    && (forall s, f :: (s, f) in n.up ==> UpOk(n, s, f))
    && (forall s, p :: (s, p) in n.down ==> PacketOk(n, p) && p.target == s.owner)
  }

  /** The messages sent and what the clients made of them. */
  ghost predicate CoreOk(n: Net) {
    && (forall i :: i in n.sent ==> SentOk(n, i))
    && (forall c :: c in n.clients ==> BooksOk(n, c))
    && (forall c :: c in n.clients ==> LogOk(n, c))
    && (forall k :: 0 <= k < |n.handlings| ==> HandlingOk(n, n.handlings[k]))
  }

  ghost predicate NetOk(n: Net) {
    WireOk(n) && CoreOk(n)
  }

  // ---- What happened stays so -----------------------------------------------------------------------

  ghost predicate CallsGrow(h: Handling, h': Handling) {
    h'.questionId == h.questionId && h.race.calls <= h'.race.calls
  }

  ghost predicate Grows(n: Net, n': Net) {
    && (forall i :: i in n.sent ==> i in n'.sent && n'.sent[i] == n.sent[i])
    && (forall c :: c in n.clients ==> c in n'.clients && n.clients[c].log <= n'.clients[c].log)
    && |n.handlings| <= |n'.handlings|
    && (forall k :: 0 <= k < |n.handlings| ==> CallsGrow(n.handlings[k], n'.handlings[k]))
  }

  lemma CalledStays(n: Net, n': Net, q: Id, v: Inbox.Outcome)
    requires Grows(n, n') && Called(n, q, v)
    ensures Called(n', q, v)
  {
    var k :| 0 <= k < |n.handlings| && n.handlings[k].questionId == q && v in n.handlings[k].race.calls;
    assert CallsGrow(n.handlings[k], n'.handlings[k]);
  }

  lemma PacketStays(n: Net, n': Net, p: Packet)
    requires Grows(n, n') && PacketOk(n, p)
    ensures PacketOk(n', p)
  {
  }

  lemma SentStays(n: Net, n': Net, i: Id)
    requires Grows(n, n') && i in n.sent && SentOk(n, i)
    ensures SentOk(n', i)
  {
    hide Called;
    if n.sent[i].Answer? {
      CalledStays(n, n', n.sent[i].questionId, n.sent[i].outcome);
    }
  }

  lemma EffectStays(n: Net, n': Net, c: ClientId, e: Effect)
    requires Grows(n, n') && EffectOk(n, c, e)
    ensures EffectOk(n', c, e)
  {
    hide Called;
    if e.ResolveWith? {
      CalledStays(n, n', e.id, e.outcome);
    }
  }

  lemma WireStays(n: Net, n': Net)
    requires Grows(n, n') && WireOk(n)
    ensures forall s, f :: (s, f) in n.up ==> UpOk(n', s, f)
    ensures forall s, p :: (s, p) in n.down ==> PacketOk(n', p)
  {
    hide PacketOk, Grows;
    forall s, f | (s, f) in n.up ensures UpOk(n', s, f) {
      assert UpOk(n, s, f);
      if f.Data? {
        PacketStays(n, n', f.p);
      }
    }
    forall s, p | (s, p) in n.down ensures PacketOk(n', p) {
      PacketStays(n, n', p);
    }
  }

  lemma CoreStays(n: Net, n': Net)
    requires Grows(n, n') && CoreOk(n)
    ensures forall i :: i in n.sent ==> SentOk(n', i)
    ensures forall c, e :: c in n.clients && e in n.clients[c].log ==> EffectOk(n', c, e)
    ensures forall k :: 0 <= k < |n.handlings| ==> HandlingOk(n', n.handlings[k])
  {
    hide SentOk, EffectOk;
    forall i | i in n.sent ensures SentOk(n', i) {
      SentStays(n, n', i);
    }
    forall c, e | c in n.clients && e in n.clients[c].log ensures EffectOk(n', c, e) {
      assert LogOk(n, c);
      EffectStays(n, n', c, e);
    }
    assert forall k :: 0 <= k < |n.handlings| ==> HandlingOk(n, n.handlings[k]);
  }

  // ---- Each step keeps the invariant ----------------------------------------------------------------

  /** A change of the wire alone: the core is untouched. */
  lemma WireStep(n: Net, n': Net)
    requires NetOk(n) && n'.clients == n.clients && n'.sent == n.sent && n'.handlings == n.handlings
    requires forall id :: id in n'.sockets ==> n'.sockets[id].owner == id
    requires forall s, f :: (s, f) in n'.up ==> (s, f) in n.up || f == Announce(s.owner)
    requires forall s, p :: (s, p) in n'.down ==> (s, p) in n.down || (PacketOk(n, p) && p.target == s.owner)
    ensures NetOk(n')
  {
    hide PacketOk, SentOk, EffectOk, HandlingOk;
    assert Grows(n, n');
    WireStays(n, n');
    CoreStays(n, n');
    forall c | c in n'.clients ensures BooksOk(n', c) && LogOk(n', c) {
      assert BooksOk(n, c) && LogOk(n, c);
    }
    forall s, p | (s, p) in n'.down ensures PacketOk(n', p) && p.target == s.owner {
      if (s, p) !in n.down {
        PacketStays(n, n', p);
      }
    }
  }

  /** A new message of client `c`, for another system. */
  ghost predicate CanSend(n: Net, c: ClientId, p: Packet) {
    p.Msg? && p.id !in n.sent && p.origin == c && p.target != c && IsLocal(p.target, p.payload.to)
  }

  ghost predicate CanAnswer(n: Net, c: ClientId, p: Packet) {
    && p.Answer? && p.id !in n.sent && p.origin == c && p.target != c
    && p.questionId in n.sent && n.sent[p.questionId].Msg?
    && n.sent[p.questionId].origin == p.target && n.sent[p.questionId].target == c
    && Called(n, p.questionId, p.outcome)
  }

  /** What an event of client `c` may assume. */
  ghost predicate CanAct(n: Net, c: ClientId, e: ClientRuns.Event, via: Socket) {
    && c in n.clients && via.owner == c
    && match e
       case Hears(p) => PacketOk(n, p) && p.target == c
       case Sweeps(t, ackKeys, questionKeys) =>
         ListsExpired(ackKeys, n.clients[c].acks, t) && ListsExpired(questionKeys, n.clients[c].questions, t)
       case Sends(p, _) => CanSend(n, c, p)
       case Asks(p, _) => CanSend(n, c, p)
       case Answers(p, _) => CanAnswer(n, c, p)
  }

  /** The log grows, and a sweep adds reports and rejections only. */
  lemma LogGrows(me: ClientId, s: ClientState, issued: Issued, e: ClientRuns.Event)
    requires ClientOk(s, issued) && Legal(me, s, issued, e)
    ensures s.log <= After(me, s, e).log
    ensures e.Sweeps? ==> OnlyReports(s, After(me, s, e))
  {
    if e.Sweeps? {
      OkIsDisjoint(s, issued);
      AnySweep(s, e.t, e.ackKeys, e.questionKeys);
    }
  }

  lemma ActLegal(n: Net, c: ClientId, e: ClientRuns.Event, via: Socket)
    requires CoreOk(n) && CanAct(n, c, e, via)
    ensures Legal(c, n.clients[c], IssuedBy(n.sent, c), e)
    ensures ClientOk(n.clients[c], IssuedBy(n.sent, c))
  {
    hide Called, ClientOk, LogOk, HandlingOk;
    assert BooksOk(n, c);
    if e.Hears? {
      assert SentOk(n, e.p.id);
    }
  }

  lemma ActGrows(n: Net, c: ClientId, e: ClientRuns.Event, via: Socket)
    requires CoreOk(n) && CanAct(n, c, e, via)
    ensures Grows(n, Act(n, c, e, via))
  {
    hide Called, ClientOk, CoreOk, After, PacketOk;
    ActLegal(n, c, e, via);
    LogGrows(c, n.clients[c], IssuedBy(n.sent, c), e);
  }

  /** A new message is in the books of its sender only. */
  lemma IssuedSplits(n: Net, c: ClientId, e: ClientRuns.Event, via: Socket, d: ClientId)
    requires CoreOk(n) && CanAct(n, c, e, via)
    ensures IssuedBy(IssuedAfter(n.sent, e), d) ==
            if d == c then IssuedAfter(IssuedBy(n.sent, c), e) else IssuedBy(n.sent, d)
  {
    hide Called, CoreOk, PacketOk, IsLocal;
  }

  lemma ActBooks(n: Net, c: ClientId, e: ClientRuns.Event, via: Socket, d: ClientId)
    requires CoreOk(n) && CanAct(n, c, e, via) && d in n.clients
    ensures BooksOk(Act(n, c, e, via), d)
  {
    hide Called, ClientOk, After, PacketOk, LogOk, HandlingOk, SentOk, IssuedBy, IssuedAfter, CanAct;
    ActLegal(n, c, e, via);
    IssuedSplits(n, c, e, via, d);
    assert BooksOk(n, d);
    if d == c {
      StepKeeps(c, n.clients[c], IssuedBy(n.sent, c), e);
    }
  }

  /** Whatever the event adds to the log is justified. */
  lemma ActEffect(n: Net, c: ClientId, e: ClientRuns.Event, via: Socket, x: Effect)
    requires CoreOk(n) && CanAct(n, c, e, via)
    requires x in Act(n, c, e, via).clients[c].log && x !in n.clients[c].log
    ensures EffectOk(n, c, x)
  {
    hide Called, ClientOk, LogOk, HandlingOk, Processed;
    ActLegal(n, c, e, via);
    match e
    case Sweeps(_, _, _) =>
      LogGrows(c, n.clients[c], IssuedBy(n.sent, c), e);
    case Hears(p) =>
      assert SentOk(n, p.id);
      assert x in After(c, n.clients[c], e).log;
    case _ =>
      assert x == Transmit(e.p);
  }

  lemma ActSent(n: Net, c: ClientId, e: ClientRuns.Event, via: Socket, i: Id)
    requires CoreOk(n) && CanAct(n, c, e, via) && i in Act(n, c, e, via).sent
    ensures SentOk(Act(n, c, e, via), i)
  {
    hide Called, After, PacketOk, IsLocal, ClientOk;
    var n' := Act(n, c, e, via);
    ActGrows(n, c, e, via);
    if i in n.sent {
      SentStays(n, n', i);
    } else if e.Answers? {
      CalledStays(n, n', e.p.questionId, e.p.outcome);
    }
  }

  lemma ActCore(n: Net, c: ClientId, e: ClientRuns.Event, via: Socket)
    requires CoreOk(n) && CanAct(n, c, e, via)
    ensures CoreOk(Act(n, c, e, via)) && Grows(n, Act(n, c, e, via))
  {
    var n' := Act(n, c, e, via);
    hide CanAct, SentOk, EffectOk, BooksOk, HandlingOk, After;
    ActGrows(n, c, e, via);
    CoreStays(n, n');
    forall i | i in n'.sent ensures SentOk(n', i) {
      ActSent(n, c, e, via, i);
    }
    forall d | d in n'.clients ensures BooksOk(n', d) && LogOk(n', d) {
      ActBooks(n, c, e, via, d);
      forall x | x in n'.clients[d].log ensures EffectOk(n', d, x) {
        if x !in n.clients[d].log {
          ActEffect(n, c, e, via, x);
          EffectStays(n, n', c, x);
        }
      }
    }
  }

  /** The frames an event sends are justified. */
  lemma ActFrames(n: Net, c: ClientId, e: ClientRuns.Event, via: Socket, f: Frame)
    requires CoreOk(n) && CanAct(n, c, e, via) && f in Frames(c, e)
    ensures UpOk(Act(n, c, e, via), via, f)
  {
    hide Called, IsLocal, ClientOk;
    if e.Hears? {
      ActGrows(n, c, e, via);
      assert Heard(e.p) in After(c, n.clients[c], e).log;
    }
  }

  lemma ActWire(n: Net, c: ClientId, e: ClientRuns.Event, via: Socket)
    requires NetOk(n) && CanAct(n, c, e, via) && Grows(n, Act(n, c, e, via))
    ensures WireOk(Act(n, c, e, via))
  {
    hide CoreOk, UpOk, PacketOk, After, Grows, Frames, Called;
    var n' := Act(n, c, e, via);
    WireStays(n, n');
    forall s, f | (s, f) in n'.up ensures UpOk(n', s, f) {
      if (s, f) !in n.up {
        ActFrames(n, c, e, via, f);
      }
    }
  }

  lemma ActKeeps(n: Net, c: ClientId, e: ClientRuns.Event, via: Socket)
    requires NetOk(n) && CanAct(n, c, e, via)
    ensures NetOk(Act(n, c, e, via)) && Grows(n, Act(n, c, e, via))
  {
    hide CoreOk, WireOk, Grows, PacketOk, After, Frames, Called;
    ActCore(n, c, e, via);
    ActWire(n, c, e, via);
  }

  /** A delivery that starts or goes on. */
  lemma HandlingsKeep(n: Net, n': Net)
    requires NetOk(n) && Grows(n, n') && n' == n.(handlings := n'.handlings)
    requires forall k :: 0 <= k < |n'.handlings| ==> HandlingOk(n, n'.handlings[k])
    ensures NetOk(n')
  {
    hide SentOk, EffectOk, PacketOk, UpOk;
    WireStays(n, n');
    CoreStays(n, n');
    forall c | c in n'.clients ensures BooksOk(n', c) && LogOk(n', c) {
      assert BooksOk(n, c) && LogOk(n, c);
    }
  }

  lemma RaceKeeps(r: Inbox.Race, r': Inbox.Race)
    requires Inbox.RaceOk(r) && RaceMoves(r, r')
    ensures Inbox.RaceOk(r') && r'.asks == r.asks && r.calls <= r'.calls
    ensures |r'.calls| > |r.calls| ==> r.asks
  {
  }

  lemma PostKeeps(n: Net, s: Step, n': Net)
    requires NetOk(n) && s.Post? && Steps(n, s, n')
    ensures NetOk(n') && Grows(n, n')
  {
    hide NetOk;
    var Post(c, payload, asks, id, deadline, via) := s;
    var system, path :| PlainName(system) && payload.to == Address(system, path);
    RoutingRoundTrip(system, path);
    LocalIffOwn(system, system, path);
    match Posted(c, payload, asks, id, deadline)
    case Some(e) =>
      ActKeeps(n, c, e, via);
    case None =>
  }

  lemma HearKeeps(n: Net, s: Step, n': Net)
    requires NetOk(n) && s.Hear? && Steps(n, s, n')
    ensures NetOk(n') && Grows(n, n')
  {
    var Hear(socket, p, running, via) := s;
    var c := socket.owner;
    var m := Act(n, c, Hears(p), via);
    assert CanAct(n, c, Hears(p), via);
    hide CoreOk, WireOk, After, PacketOk, CanAct;
    ActKeeps(n, c, Hears(p), via);
    if p.Msg? && running && IsLocal(c, p.payload.to) {
      assert PacketOk(n, p) && p.target == c by {
        TakenIsOk(n, socket, p);
      }
      DeliveryStarts(n, m, n', c, p);
    }
  }

  lemma TakenIsOk(n: Net, socket: Socket, p: Packet)
    requires NetOk(n) && (socket, p) in n.down
    ensures PacketOk(n, p) && p.target == socket.owner
  {
  }

  lemma DeliveryStarts(n: Net, m: Net, n': Net, c: ClientId, p: Packet)
    requires NetOk(m) && Grows(n, m) && PacketOk(n, p) && p.Msg? && p.target == c
    requires n' == m.(handlings := m.handlings + [Handling(c, p.origin, p.id, p.payload,
      Inbox.StartRace(p.payload.askTimeout != 0))])
    ensures NetOk(n') && Grows(n, n')
  {
    hide Processed, NetOk;
    assert Grows(m, n');
    GrowsTwice(n, m, n');
    HandlingsAreOk(m);
    assert HandlingOk(m, n'.handlings[|m.handlings|]);
    hide HandlingOk, PacketOk, Grows;
    HandlingsKeep(m, n');
  }

  lemma HandlingsAreOk(n: Net)
    requires NetOk(n)
    ensures forall k :: 0 <= k < |n.handlings| ==> HandlingOk(n, n.handlings[k])
  {
  }

  lemma MovedKeeps(n: Net, k: nat, race: Inbox.Race)
    requires NetOk(n) && k < |n.handlings| && RaceMoves(n.handlings[k].race, race)
    ensures NetOk(Moved(n, k, race)) && Grows(n, Moved(n, k, race))
  {
    hide RaceMoves, Inbox.RaceOk;
    var n' := Moved(n, k, race);
    assert HandlingOk(n, n.handlings[k]);
    RaceKeeps(n.handlings[k].race, race);
    forall j | 0 <= j < |n'.handlings| ensures HandlingOk(n, n'.handlings[j]) {
      assert HandlingOk(n, n.handlings[j]);
    }
    assert Grows(n, n');
    HandlingsKeep(n, n');
  }

  lemma GrowsTwice(n: Net, m: Net, n': Net)
    requires Grows(n, m) && Grows(m, n')
    ensures Grows(n, n')
  {
  }

  /** Only a question has a callback to call. */
  lemma CalledIsBound(n: Net, k: nat, race: Inbox.Race)
    requires NetOk(n) && k < |n.handlings| && RaceMoves(n.handlings[k].race, race)
    ensures |race.calls| > |n.handlings[k].race.calls| ==> n.handlings[k].payload.askTimeout != 0
  {
    HandlingsAreOk(n);
    assert HandlingOk(n, n.handlings[k]);
    RaceKeeps(n.handlings[k].race, race);
  }

  /** Whatever a delivery's callback was called with last may be sent as the answer. */
  lemma MovedAnswers(n: Net, k: nat, race: Inbox.Race, id: Id)
    requires NetOk(n) && k < |n.handlings| && race.calls != [] && id !in n.sent
    requires n.handlings[k].payload.askTimeout != 0
    ensures CanAnswer(Moved(n, k, race), n.handlings[k].at,
                      AnswerFrom(n.handlings[k], id, race.calls[|race.calls| - 1]))
  {
    var m, h := Moved(n, k, race), n.handlings[k];
    assert HandlingOk(n, h) && SentOk(n, h.questionId);
    assert m.handlings[k].questionId == h.questionId && race.calls[|race.calls| - 1] in m.handlings[k].race.calls;
  }

  lemma MoveKeeps(n: Net, s: Step, n': Net)
    requires NetOk(n) && s.Move? && Steps(n, s, n')
    ensures NetOk(n') && Grows(n, n')
  {
    hide NetOk, CanAnswer, Grows, RaceMoves;
    var Move(k, race, id, deadline, via) := s;
    var h, m := n.handlings[k], Moved(n, k, race);
    MovedKeeps(n, k, race);
    CalledIsBound(n, k, race);
    if |race.calls| > |h.race.calls| {
      MovedAnswers(n, k, race, id);
      ActKeeps(m, h.at, Answers(AnswerFrom(h, id, race.calls[|race.calls| - 1]), deadline), via);
      GrowsTwice(n, m, n');
    }
  }

  lemma StepKeepsNet(n: Net, s: Step, n': Net)
    requires NetOk(n) && Steps(n, s, n')
    ensures NetOk(n') && Grows(n, n')
  {
    match s
    case Post(_, _, _, _, _, _) => PostKeeps(n, s, n');
    case Hear(_, _, _, _) => HearKeeps(n, s, n');
    case Move(_, _, _, _, _) => MoveKeeps(n, s, n');
    case SweepAt(c, t, ackKeys, questionKeys) => ActKeeps(n, c, Sweeps(t, ackKeys, questionKeys), Socket(c, 0));
    case _ => WireKeeps(n, s, n');
  }

  lemma WireKeeps(n: Net, s: Step, n': Net)
    requires NetOk(n) && Steps(n, s, n') && (s.Connect? || s.ProxyHears? || s.ProxyCloses?)
    ensures NetOk(n') && Grows(n, n')
  {
    hide CoreOk, PacketOk;
    if s.ProxyHears? {
      assert UpOk(n, s.socket, s.f);
    }
    WireStep(n, n');
  }

  // ---- Whole runs -----------------------------------------------------------------------------------

  /** New clients, no frame in flight, nobody registered. */
  ghost predicate Quiet(n: Net) {
    && (forall c :: c in n.clients ==> n.clients[c] == NEW_CLIENT)
    && n.sockets == map[] && n.up == {} && n.down == {} && n.sent == map[] && n.handlings == []
  }

  ghost predicate NetRuns(ss: seq<Step>, ns: seq<Net>) {
    && |ns| == |ss| + 1 && Quiet(ns[0])
    && forall k :: 0 <= k < |ss| ==> Steps(ns[k], ss[k], ns[k + 1])
  }

  lemma QuietIsOk(n: Net)
    requires Quiet(n)
    ensures NetOk(n)
  {
    forall c | c in n.clients ensures BooksOk(n, c) {
      assert IssuedBy(n.sent, c) == map[];
      NewIsOk();
    }
  }

  lemma {:induction false} NetAlwaysOk(ss: seq<Step>, ns: seq<Net>, k: nat)
    requires NetRuns(ss, ns) && k < |ns|
    ensures NetOk(ns[k])
  {
    hide NetOk, Steps;
    if k == 0 {
      QuietIsOk(ns[0]);
    } else {
      NetAlwaysOk(ss, ns, k - 1);
      StepKeepsNet(ns[k - 1], ss[k - 1], ns[k]);
    }
  }

  /**
   No promise of any client is settled twice, no message reported twice, and every missing
   acknowledgement is pending.
  */
  lemma NothingSettledTwice(ss: seq<Step>, ns: seq<Net>, k: nat, c: ClientId)
    requires NetRuns(ss, ns) && k < |ns| && c in ns[k].clients
    ensures forall i :: Tally(ns[k].clients[c].log, Settling, i) <= 1 && Tally(ns[k].clients[c].log, Reporting, i) <= 1
    ensures ns[k].clients[c].acks.Keys <= ns[k].clients[c].pending.Keys
  {
    NetAlwaysOk(ss, ns, k);
    assert BooksOk(ns[k], c);
    forall i
      ensures Tally(ns[k].clients[c].log, Settling, i) <= 1 && Tally(ns[k].clients[c].log, Reporting, i) <= 1
      ensures i in ns[k].clients[c].acks ==> i in ns[k].clients[c].pending
    {
      assert OkAt(ns[k].clients[c], IssuedBy(ns[k].sent, c), i);
    }
  }

  /**
   Acknowledgement soundness: the promise of a send or answer is resolved only after the client with
   its target id has processed that very message; and only that client is ever registered under the id.
   */
  lemma AckSoundness(ss: seq<Step>, ns: seq<Net>, k: nat, c: ClientId, i: Id)
    requires NetRuns(ss, ns) && k < |ns| && c in ns[k].clients && Resolve(i) in ns[k].clients[c].log
    ensures i in ns[k].sent && ns[k].sent[i].origin == c
    ensures var p := ns[k].sent[i]; p.target in ns[k].clients && Heard(p) in ns[k].clients[p.target].log
    ensures forall id :: id in ns[k].sockets ==> ns[k].sockets[id].owner == id
  {
    NetAlwaysOk(ss, ns, k);
    assert LogOk(ns[k], c);
    assert EffectOk(ns[k], c, Resolve(i));
  }

  /**
   End-to-end ask soundness: when a remote ask resolves with `v`, the system it was sent to has handled
   exactly that question in its inbox, and has called the callback with `v` and with nothing else.
   */
  lemma AskSoundness(ss: seq<Step>, ns: seq<Net>, k: nat, c: ClientId, q: Id, v: Inbox.Outcome)
    requires NetRuns(ss, ns) && k < |ns| && c in ns[k].clients && ResolveWith(q, v) in ns[k].clients[c].log
    ensures q in ns[k].sent && ns[k].sent[q].Msg? && ns[k].sent[q].origin == c
    ensures exists j :: 0 <= j < |ns[k].handlings| && AnsweredBy(ns[k].sent[q], ns[k].handlings[j], v)
  {
    NetAlwaysOk(ss, ns, k);
    ResolvedAsk(ns[k], c, q, v);
  }

  /** `h` is the handling of the question `p` at its target, and its callback was called with `v` only. */
  ghost predicate AnsweredBy(p: Packet, h: Handling, v: Inbox.Outcome)
    requires p.Msg?
  {
    && p == Msg(h.questionId, h.origin, h.at, h.payload)
    && h.race.calls == [v] && h.payload.askTimeout != 0
    && (v == Inbox.TimeoutError || (h.race.stage.Returned? && v == Inbox.Result(h.race.stage.value)))
  }

  lemma ResolvedAsk(n: Net, c: ClientId, q: Id, v: Inbox.Outcome)
    requires CoreOk(n) && c in n.clients && ResolveWith(q, v) in n.clients[c].log
    ensures q in n.sent && n.sent[q].Msg? && n.sent[q].origin == c
    ensures exists j :: 0 <= j < |n.handlings| && AnsweredBy(n.sent[q], n.handlings[j], v)
  {
    hide SentOk, BooksOk, Inbox.RaceOk, AnsweredBy;
    assert LogOk(n, c);
    assert EffectOk(n, c, ResolveWith(q, v));
    var j :| 0 <= j < |n.handlings| && n.handlings[j].questionId == q && v in n.handlings[j].race.calls;
    CallbackOnce(n, n.handlings[j], v);
  }

  lemma CallbackOnce(n: Net, h: Handling, v: Inbox.Outcome)
    requires HandlingOk(n, h) && v in h.race.calls
    ensures AnsweredBy(n.sent[h.questionId], h, v)
  {
  }

  /**
   The callback of a remote ask is called at most once; and if it is given an outcome, that is the one the
   callback at the target was called with, for exactly this question.
   */
  lemma AskCallbackSoundness(ss: seq<Step>, ns: seq<Net>, k: nat, c: ClientId, q: Id)
    requires NetRuns(ss, ns) && k < |ns| && c in ns[k].clients
    ensures |Replies(ns[k].clients[c].log, q)| <= 1
    ensures forall v :: Fulfilled(v) in Replies(ns[k].clients[c].log, q) ==>
      && q in ns[k].sent && ns[k].sent[q].Msg? && ns[k].sent[q].origin == c
      && exists j :: 0 <= j < |ns[k].handlings| && AnsweredBy(ns[k].sent[q], ns[k].handlings[j], v)
  {
    NothingSettledTwice(ss, ns, k, c);
    RepliesAreSettled(ns[k].clients[c].log, q);
    forall v | Fulfilled(v) in Replies(ns[k].clients[c].log, q)
      ensures q in ns[k].sent && ns[k].sent[q].Msg? && ns[k].sent[q].origin == c
      ensures exists j :: 0 <= j < |ns[k].handlings| && AnsweredBy(ns[k].sent[q], ns[k].handlings[j], v)
    {
      AskSoundness(ss, ns, k, c, q, v);
    }
  }

  /** Whatever a client is given from the network was sent to it, by another client, and is for its own actors. */
  lemma DeliveredIsLocal(ss: seq<Step>, ns: seq<Net>, k: nat, c: ClientId, origin: ClientId, q: Id,
                         payload: WireMessage)
    requires NetRuns(ss, ns) && k < |ns| && c in ns[k].clients && Deliver(origin, q, payload) in ns[k].clients[c].log
    ensures q in ns[k].sent && ns[k].sent[q] == Msg(q, origin, c, payload) && origin != c
    ensures forall asks :: RouteOf(c, payload.to, asks) == Local
  {
    NetAlwaysOk(ss, ns, k);
    assert LogOk(ns[k], c);
    assert EffectOk(ns[k], c, Deliver(origin, q, payload));
    assert SentOk(ns[k], q);
  }
}
