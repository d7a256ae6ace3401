/**
 What holds over whole runs of one websocket client, whatever the network does to its packets: nothing
 is settled twice, every error report carries its own message, and a sweep is a filter.
 */
module ClientRuns {
  import opened Inbox
  import opened SocketClient

  // ---- Counting effects -----------------------------------------------------------------------------

  datatype Kind = Settling | Rejecting | Reporting | Delivering | Answering

  predicate Is(e: Effect, kind: Kind, i: Id) {
    match kind
    case Settling => e == Resolve(i) || e == Reject(i) || (e.ResolveWith? && e.id == i)
    case Rejecting => e == Reject(i)
    case Reporting => e.Report? && e.id == i
    case Delivering => e.Deliver? && e.questionId == i
    case Answering => e.Transmit? && e.p.Answer? && e.p.questionId == i
  }

  /** What happens to the promise of a message. */
  predicate OfPromise(kind: Kind) {
    kind.Settling? || kind.Rejecting? || kind.Reporting?
  }

  /** How often the effect of this kind is logged for message `i`. */
  function Tally(log: seq<Effect>, kind: Kind, i: Id): nat {
    if log == [] then 0
    else Tally(log[..|log| - 1], kind, i) + if Is(log[|log| - 1], kind, i) then 1 else 0
  }

  ghost predicate AckHeard(log: seq<Effect>, i: Id) {
    exists o, t :: Heard(Ack(i, o, t)) in log
  }

  predicate Reported(log: seq<Effect>, i: Id, c: Content) {
    Report(i, c) in log
  }

  /** What one more effect changes for message `i`. */
  lemma Push(log: seq<Effect>, e: Effect, i: Id)
    ensures forall kind :: Tally(log + [e], kind, i) == Tally(log, kind, i) + if Is(e, kind, i) then 1 else 0
    ensures AckHeard(log + [e], i) <==> AckHeard(log, i) || (e.Heard? && e.p.Ack? && e.p.id == i)
    ensures forall c :: Reported(log + [e], i, c) <==> Reported(log, i, c) || e == Report(i, c)
  {
    assert (log + [e])[..|log|] == log;
    if e.Heard? && e.p.Ack? && e.p.id == i {
      assert Heard(Ack(i, e.p.origin, e.p.target)) in log + [e];
    }
    if AckHeard(log, i) {
      var o, t :| Heard(Ack(i, o, t)) in log;
      assert Heard(Ack(i, o, t)) in log + [e];
    }
  }

  // ---- Sweeps ---------------------------------------------------------------------------------------

  predicate Expired(s: ClientState, r: ClientState, i: Id) {
    i in s.acks && i !in r.acks
  }

  predicate Refused(s: ClientState, r: ClientState, i: Id) {
    i in s.questions && i !in r.questions
  }

  function One(b: bool): nat {
    if b then 1 else 0
  }

  /** What giving up acknowledgements and questions does to the entries and reports of message `i`. */
  ghost predicate ShrinksAt(s: ClientState, r: ClientState, i: Id) {
    && (i in r.acks ==> i in s.acks && r.acks[i] == s.acks[i])
    && (i in r.questions ==> i in s.questions && r.questions[i] == s.questions[i])
    && (i in r.pending <==> i in s.pending && !Expired(s, r, i) && !Refused(s, r, i))
    && (i in r.pending ==> r.pending[i] == s.pending[i])
    && (Expired(s, r, i) || Refused(s, r, i) ==> i in s.pending)
    && Tally(r.log, Settling, i) == Tally(s.log, Settling, i) + One(Refused(s, r, i))
    && Tally(r.log, Rejecting, i) == Tally(s.log, Rejecting, i) + One(Refused(s, r, i))
    && Tally(r.log, Reporting, i) == Tally(s.log, Reporting, i) + One(Expired(s, r, i)) + One(Refused(s, r, i))
    && Tally(r.log, Delivering, i) == Tally(s.log, Delivering, i)
    && Tally(r.log, Answering, i) == Tally(s.log, Answering, i)
    && (forall c :: Reported(r.log, i, c) ==> Reported(s.log, i, c) || (i in s.pending && s.pending[i] == c))
  }

  /** Nothing is heard, sent, resolved or delivered. */
  ghost predicate OnlyReports(s: ClientState, r: ClientState) {
    && s.log <= r.log
    && (forall i :: |s.log| <= i < |r.log| ==> r.log[i].Report? || r.log[i].Reject?)
    && forall e :: e in r.log && !e.Report? && !e.Reject? ==> e in s.log
  }

  /** `r` is `s` with some acknowledgements and questions given up. */
  ghost predicate Shrinks(s: ClientState, r: ClientState) {
    OnlyReports(s, r) && forall i :: ShrinksAt(s, r, i)
  }

  lemma ShrinksTwiceAt(s: ClientState, m: ClientState, r: ClientState, i: Id)
    requires ShrinksAt(s, m, i) && ShrinksAt(m, r, i)
    ensures ShrinksAt(s, r, i)
    ensures Expired(s, r, i) <==> Expired(s, m, i) || Expired(m, r, i)
    ensures Refused(s, r, i) <==> Refused(s, m, i) || Refused(m, r, i)
  {
  }

  lemma ShrinksTwice(s: ClientState, m: ClientState, r: ClientState)
    requires Shrinks(s, m) && Shrinks(m, r)
    ensures Shrinks(s, r)
    ensures forall i :: Expired(s, r, i) <==> Expired(s, m, i) || Expired(m, r, i)
    ensures forall i :: Refused(s, r, i) <==> Refused(s, m, i) || Refused(m, r, i)
  {
    hide ShrinksAt, Expired, Refused;
    forall i
      ensures ShrinksAt(s, r, i)
      ensures Expired(s, r, i) <==> Expired(s, m, i) || Expired(m, r, i)
      ensures Refused(s, r, i) <==> Refused(s, m, i) || Refused(m, r, i)
    {
      assert ShrinksAt(s, m, i) && ShrinksAt(m, r, i);
      ShrinksTwiceAt(s, m, r, i);
    }
  }

  function ExpireOne(s: ClientState, k: Id): ClientState
    requires k in s.pending
  {
    s.(acks := s.acks - {k}, pending := s.pending - {k}, log := s.log + [Report(k, s.pending[k])])
  }

  function RefuseOne(s: ClientState, k: Id): ClientState
    requires k in s.pending
  {
    s.(questions := s.questions - {k}, pending := s.pending - {k},
       log := s.log + [Report(k, s.pending[k])] + [Reject(k)])
  }

  lemma OneExpiresAt(s: ClientState, k: Id, i: Id)
    requires k in s.acks && k in s.pending
    ensures ShrinksAt(s, ExpireOne(s, k), i)
  {
    hide Tally, AckHeard, Reported;
    Push(s.log, Report(k, s.pending[k]), i);
  }

  lemma OneRefusedAt(s: ClientState, k: Id, i: Id)
    requires k in s.questions && k in s.pending
    ensures ShrinksAt(s, RefuseOne(s, k), i)
  {
    hide Tally, AckHeard, Reported;
    Push(s.log, Report(k, s.pending[k]), i);
    Push(s.log + [Report(k, s.pending[k])], Reject(k), i);
  }

  lemma OneExpires(s: ClientState, k: Id)
    requires k in s.acks && k in s.pending
    ensures Shrinks(s, ExpireOne(s, k))
  {
    hide ShrinksAt;
    forall i ensures ShrinksAt(s, ExpireOne(s, k), i) {
      OneExpiresAt(s, k, i);
    }
  }

  lemma OneRefused(s: ClientState, k: Id)
    requires k in s.questions && k in s.pending
    ensures Shrinks(s, RefuseOne(s, k))
  {
    hide ShrinksAt;
    forall i ensures ShrinksAt(s, RefuseOne(s, k), i) {
      OneRefusedAt(s, k, i);
    }
  }

  ghost predicate Distinct(keys: seq<Id>) {
    forall i, j :: 0 <= i < j < |keys| ==> keys[i] != keys[j]
  }

  ghost predicate AllReadable(pending: map<Id, Content>, keys: seq<Id>) {
    forall k :: k in keys ==> Readable(pending, k)
  }

  lemma DropFirst(pending: map<Id, Content>, keys: seq<Id>)
    requires keys != [] && Distinct(keys) && Readable(pending, keys[0])
    ensures AllReadable(pending, keys) <==> AllReadable(pending - {keys[0]}, keys[1..])
    ensures Distinct(keys[1..]) && keys[0] !in keys[1..]
    ensures forall k :: k in keys <==> k == keys[0] || k in keys[1..]
  {
    assert keys == [keys[0]] + keys[1..];
    assert forall k :: k in keys[1..] ==> (Readable(pending, k) <==> Readable(pending - {keys[0]}, k));
  }

  lemma {:induction false} AckSweep(s: ClientState, keys: seq<Id>)
    requires Distinct(keys) && forall k :: k in keys ==> k in s.acks
    ensures var r := SweepAcks(s, keys);
      && Shrinks(s, r.state) && r.state.questions == s.questions
      && (forall k :: Expired(s, r.state, k) ==> k in keys)
      && (r.threw <==> !AllReadable(s.pending, keys))
      && (!r.threw ==> forall k :: k in keys ==> Expired(s, r.state, k))
    decreases |keys|
  {
    hide Shrinks, Distinct;
    if keys == [] || !Readable(s.pending, keys[0]) {
      ShrinksNot(s);
    } else {
      var m := ExpireOne(s, keys[0]);
      OneExpires(s, keys[0]);
      DropFirst(s.pending, keys);
      AckSweep(m, keys[1..]);
      ShrinksTwice(s, m, SweepAcks(m, keys[1..]).state);
    }
  }

  lemma ShrinksNot(s: ClientState)
    ensures Shrinks(s, s)
  {
  }

  lemma {:induction false} QuestionSweep(s: ClientState, keys: seq<Id>)
    requires Distinct(keys) && forall k :: k in keys ==> k in s.questions
    ensures var r := SweepQuestions(s, keys);
      && Shrinks(s, r.state) && r.state.acks == s.acks
      && (forall k :: Refused(s, r.state, k) ==> k in keys)
      && (r.threw <==> !AllReadable(s.pending, keys))
      && (!r.threw ==> forall k :: k in keys ==> Refused(s, r.state, k))
    decreases |keys|
  {
    hide Shrinks, Distinct;
    if keys == [] || !Readable(s.pending, keys[0]) {
      ShrinksNot(s);
    } else {
      var m := RefuseOne(s, keys[0]);
      OneRefused(s, keys[0]);
      DropFirst(s.pending, keys);
      QuestionSweep(m, keys[1..]);
      ShrinksTwice(s, m, SweepQuestions(m, keys[1..]).state);
    }
  }

  lemma FirstExpires(s: ClientState, keys: seq<Id>)
    requires keys != [] && Distinct(keys) && (forall k :: k in keys ==> k in s.acks) && Readable(s.pending, keys[0])
    ensures keys[0] !in SweepAcks(s, keys).state.acks
  {
    hide Distinct;
    var m := ExpireOne(s, keys[0]);
    DropFirst(s.pending, keys);
    AckSweep(m, keys[1..]);
    assert ShrinksAt(m, SweepAcks(m, keys[1..]).state, keys[0]);
  }

  /** The prefixes of the remaining keys, once the first key is dealt with. */
  lemma DropFirstPrefix(pending: map<Id, Content>, keys: seq<Id>, n: nat)
    requires 0 < n < |keys| && Distinct(keys) && Readable(pending, keys[0])
    ensures AllReadable(pending, keys[..n + 1]) <==> AllReadable(pending - {keys[0]}, keys[1..][..n])
  {
    DropFirst(pending, keys[..n + 1]);
    assert keys[..n + 1][1..] == keys[1..][..n];
  }

  /** A sweep gives up the acknowledgements up to the first whose payload cannot be read, and no other. */
  lemma {:induction false} SweptUpTo(s: ClientState, keys: seq<Id>, n: nat)
    requires Distinct(keys) && (forall k :: k in keys ==> k in s.acks) && n < |keys|
    ensures keys[n] in SweepAcks(s, keys).state.acks <==> !AllReadable(s.pending, keys[..n + 1])
    decreases n
  {
    hide Distinct;
    if !Readable(s.pending, keys[0]) {
      assert keys[0] in keys[..n + 1];
    } else if n == 0 {
      assert keys[..1] == [keys[0]];
      FirstExpires(s, keys);
    } else {
      DropFirst(s.pending, keys);
      DropFirstPrefix(s.pending, keys, n);
      SweptUpTo(ExpireOne(s, keys[0]), keys[1..], n - 1);
    }
  }

  lemma FirstRefused(s: ClientState, keys: seq<Id>)
    requires keys != [] && Distinct(keys) && (forall k :: k in keys ==> k in s.questions)
    requires Readable(s.pending, keys[0])
    ensures keys[0] !in SweepQuestions(s, keys).state.questions
  {
    hide Distinct;
    var m := RefuseOne(s, keys[0]);
    DropFirst(s.pending, keys);
    QuestionSweep(m, keys[1..]);
    assert ShrinksAt(m, SweepQuestions(m, keys[1..]).state, keys[0]);
  }

  /** The same for the questions. */
  lemma {:induction false} RefusedUpTo(s: ClientState, keys: seq<Id>, n: nat)
    requires Distinct(keys) && (forall k :: k in keys ==> k in s.questions) && n < |keys|
    ensures keys[n] in SweepQuestions(s, keys).state.questions <==> !AllReadable(s.pending, keys[..n + 1])
    decreases n
  {
    hide Distinct;
    if !Readable(s.pending, keys[0]) {
      assert keys[0] in keys[..n + 1];
    } else if n == 0 {
      assert keys[..1] == [keys[0]];
      FirstRefused(s, keys);
    } else {
      DropFirst(s.pending, keys);
      DropFirstPrefix(s.pending, keys, n);
      RefusedUpTo(RefuseOne(s, keys[0]), keys[1..], n - 1);
    }
  }

  ghost predicate Disjoint(s: ClientState) {
    forall k :: k in s.acks ==> k !in s.questions
  }

  lemma SweptAcksStillReadable(s: ClientState, r: ClientState, questionKeys: seq<Id>)
    requires Shrinks(s, r) && r.questions == s.questions && Disjoint(s)
    requires forall k :: k in questionKeys ==> k in s.questions
    ensures AllReadable(s.pending, questionKeys) <==> AllReadable(r.pending, questionKeys)
  {
    forall k | k in questionKeys ensures Readable(s.pending, k) <==> Readable(r.pending, k) {
      assert ShrinksAt(s, r, k);
    }
  }

  /** Any sweep, cut short or not; and the acknowledgements are all swept when their payloads can be read. */
  lemma AnySweep(s: ClientState, t: int, ackKeys: seq<Id>, questionKeys: seq<Id>)
    requires ListsExpired(ackKeys, s.acks, t) && ListsExpired(questionKeys, s.questions, t) && Disjoint(s)
    ensures var r := Sweep(s, ackKeys, questionKeys);
      && Shrinks(s, r.state)
      && (forall k :: Expired(s, r.state, k) ==> k in ackKeys)
      && (forall k :: Refused(s, r.state, k) ==> k in questionKeys)
      && (AllReadable(s.pending, ackKeys) ==> forall k :: k in ackKeys ==> Expired(s, r.state, k))
      && (!r.threw ==> forall k :: k in questionKeys ==> Refused(s, r.state, k))
      && (r.threw <==> !AllReadable(s.pending, ackKeys) || !AllReadable(s.pending, questionKeys))
  {
    hide Shrinks, AllReadable;
    AckSweep(s, ackKeys);
    var m := SweepAcks(s, ackKeys);
    if !m.threw {
      SweptAcksStillReadable(s, m.state, questionKeys);
      QuestionSweep(m.state, questionKeys);
      ShrinksTwice(s, m.state, SweepQuestions(m.state, questionKeys).state);
    }
  }

  /**
   How far a sweep gets: an expired acknowledgement is given up if and only if its payload and those
   listed before it can be read; an expired question if and only if all of the former can, and so can
   its own payload and those of the questions before it.
   */
  lemma SweepReaches(s: ClientState, t: int, ackKeys: seq<Id>, questionKeys: seq<Id>)
    requires ListsExpired(ackKeys, s.acks, t) && ListsExpired(questionKeys, s.questions, t) && Disjoint(s)
    ensures var r := Sweep(s, ackKeys, questionKeys).state;
      && (forall n :: 0 <= n < |ackKeys| ==> (ackKeys[n] in r.acks <==> !AllReadable(s.pending, ackKeys[..n + 1])))
      && (forall n :: 0 <= n < |questionKeys| ==>
            (questionKeys[n] in r.questions <==>
             !AllReadable(s.pending, ackKeys) || !AllReadable(s.pending, questionKeys[..n + 1])))
  {
    hide Shrinks, AllReadable;
    AckSweep(s, ackKeys);
    var m := SweepAcks(s, ackKeys);
    var r := Sweep(s, ackKeys, questionKeys).state;
    if !m.threw {
      QuestionSweep(m.state, questionKeys);
    }
    forall n | 0 <= n < |ackKeys| ensures ackKeys[n] in r.acks <==> !AllReadable(s.pending, ackKeys[..n + 1]) {
      SweptUpTo(s, ackKeys, n);
    }
    forall n | 0 <= n < |questionKeys|
      ensures questionKeys[n] in r.questions <==>
              !AllReadable(s.pending, ackKeys) || !AllReadable(s.pending, questionKeys[..n + 1])
    {
      if !m.threw {
        RefusedUpTo(m.state, questionKeys, n);
        SweptAcksStillReadable(s, m.state, questionKeys[..n + 1]);
      }
    }
  }

  /** The entries a sweep at time `t` leaves. */
  function Unexpired(deadlines: map<Id, int>, t: int): map<Id, int> {
    map k | k in deadlines && deadlines[k] >= t :: deadlines[k]
  }

  ghost predicate ExpiredReadable(pending: map<Id, Content>, deadlines: map<Id, int>, t: int) {
    forall k :: k in deadlines && deadlines[k] < t ==> Readable(pending, k)
  }

  /** Each expired entry is reported once, each expired question rejected once, and nothing else is settled. */
  ghost predicate SweptAt(s: ClientState, r: ClientState, t: int, i: Id) {
    var expired, refused := i in s.acks && s.acks[i] < t, i in s.questions && s.questions[i] < t;
    && (i in r.pending <==> i in s.pending && !expired && !refused)
    && (i in r.pending ==> r.pending[i] == s.pending[i])
    && Tally(r.log, Reporting, i) == Tally(s.log, Reporting, i) + One(expired || refused)
    && Tally(r.log, Settling, i) == Tally(s.log, Settling, i) + One(refused)
    && Tally(r.log, Rejecting, i) == Tally(s.log, Rejecting, i) + One(refused)
  }

  lemma SweepFilters(s: ClientState, t: int, ackKeys: seq<Id>, questionKeys: seq<Id>, i: Id)
    requires ListsExpired(ackKeys, s.acks, t) && ListsExpired(questionKeys, s.questions, t) && Disjoint(s)
    ensures var r := Sweep(s, ackKeys, questionKeys);
      !r.threw ==>
        && (i in r.state.acks <==> i in s.acks && s.acks[i] >= t)
        && (i in r.state.questions <==> i in s.questions && s.questions[i] >= t)
        && (i in r.state.acks ==> r.state.acks[i] == s.acks[i])
        && (i in r.state.questions ==> r.state.questions[i] == s.questions[i])
        && SweptAt(s, r.state, t, i)
  {
    hide Tally, AckHeard, Reported;
    AnySweep(s, t, ackKeys, questionKeys);
    assert ShrinksAt(s, Sweep(s, ackKeys, questionKeys).state, i);
    assert i in ackKeys <==> i in s.acks && s.acks[i] < t;
    assert i in questionKeys <==> i in s.questions && s.questions[i] < t;
  }

  /**
   The two-phase sweep is a filter, exactly when the payload of every expired entry can still be read:
   the entries with deadline `t` or later remain, each other one is reported once, and each question
   among those rejected once. Otherwise it is cut short by an exception.
   */
  lemma SweepIsFilter(s: ClientState, t: int, ackKeys: seq<Id>, questionKeys: seq<Id>)
    requires ListsExpired(ackKeys, s.acks, t) && ListsExpired(questionKeys, s.questions, t) && Disjoint(s)
    ensures var r := Sweep(s, ackKeys, questionKeys);
      && (!r.threw <==> ExpiredReadable(s.pending, s.acks, t) && ExpiredReadable(s.pending, s.questions, t))
      && (!r.threw ==>
            && r.state.acks == Unexpired(s.acks, t) && r.state.questions == Unexpired(s.questions, t)
            && forall i :: SweptAt(s, r.state, t, i))
  {
    hide SweptAt, Shrinks, Sweep;
    AnySweep(s, t, ackKeys, questionKeys);
    var r := Sweep(s, ackKeys, questionKeys);
    if !r.threw {
      forall i
        ensures i in r.state.acks <==> i in s.acks && s.acks[i] >= t
        ensures i in r.state.questions <==> i in s.questions && s.questions[i] >= t
        ensures i in r.state.acks ==> r.state.acks[i] == s.acks[i]
        ensures i in r.state.questions ==> r.state.questions[i] == s.questions[i]
        ensures SweptAt(s, r.state, t, i)
      {
        SweepFilters(s, t, ackKeys, questionKeys, i);
      }
    }
  }

  // ---- Runs -----------------------------------------------------------------------------------------

  datatype Event =
    | Sends(p: Packet, deadline: int)
    | Answers(p: Packet, deadline: int)
    | Asks(p: Packet, deadline: int)
    | Hears(p: Packet)
    | Sweeps(t: int, ackKeys: seq<Id>, questionKeys: seq<Id>)

  function ContentOf(p: Packet): Content
    requires !p.Ack?
  {
    if p.Msg? then Request(p.payload) else Response(p.outcome)
  }

  /** The messages a client has issued, by id. */
  type Issued = i: map<Id, Packet> | forall k :: k in i ==> !i[k].Ack? && i[k].id == k

  /**
   Ids are fresh: an acknowledgement is for a message of this client, another client's answer has an id
   of its own.
  */
  ghost predicate Legal(me: ClientId, s: ClientState, issued: Issued, e: Event) {
    match e
    case Sends(p, _) => p.Msg? && p.id !in issued
    case Asks(p, _) => p.Msg? && p.id !in issued
    case Answers(p, _) => p.Answer? && p.id !in issued
    case Hears(p) => (p.Answer? ==> p.id !in issued) && (p.Ack? ==> p.id in issued)
    case Sweeps(t, ackKeys, questionKeys) =>
      ListsExpired(ackKeys, s.acks, t) && ListsExpired(questionKeys, s.questions, t)
  }

  function After(me: ClientId, s: ClientState, e: Event): ClientState
    requires e.Sends? || e.Asks? ==> e.p.Msg?
    requires e.Answers? ==> e.p.Answer?
  {
    match e
    case Sends(p, deadline) => SendStep(s, p, deadline)
    case Asks(p, deadline) => AskStep(s, p, deadline)
    case Answers(p, deadline) => AnswerStep(s, p, deadline)
    case Hears(p) => HearStep(s, me, p)
    case Sweeps(_, ackKeys, questionKeys) => Sweep(s, ackKeys, questionKeys).state
  }

  function IssuedAfter(issued: Issued, e: Event): Issued
    requires e.Sends? || e.Asks? ==> e.p.Msg?
    requires e.Answers? ==> e.p.Answer?
  {
    if e.Sends? || e.Asks? || e.Answers? then issued[e.p.id := e.p] else issued
  }

  ghost predicate OkAt(s: ClientState, issued: Issued, i: Id) {
    && (i in s.acks ==> i !in s.questions && i in issued && i in s.pending)
    && (i in s.questions ==> i in issued && issued[i].Msg? && (i in s.pending || AckHeard(s.log, i)))
    && (AckHeard(s.log, i) ==> i in issued && i !in s.pending)
    && (i in issued ==> (i in s.pending <==> !AckHeard(s.log, i) && Tally(s.log, Reporting, i) == 0))
    && (i in s.pending ==> i in issued && s.pending[i] == ContentOf(issued[i]))
    && Tally(s.log, Settling, i) <= One(i in issued && i !in s.acks && i !in s.questions)
    && Tally(s.log, Reporting, i) <= One(i in issued && i !in s.acks && i !in s.questions)
    && (forall c :: Reported(s.log, i, c) ==> i in issued && c == ContentOf(issued[i]))
  }

  /**
   Every open acknowledgement has its payload pending, and so has every open question until its own
   acknowledgement is heard; nothing is settled or reported twice; reports carry their own message.
   */
  ghost predicate ClientOk(s: ClientState, issued: Issued) {
    forall i :: OkAt(s, issued, i)
  }

  lemma IssueKeeps(s: ClientState, issued: Issued, e: Event, me: ClientId, i: Id)
    requires OkAt(s, issued, i) && Legal(me, s, issued, e) && (e.Sends? || e.Asks? || e.Answers?)
    ensures OkAt(After(me, s, e), IssuedAfter(issued, e), i)
  {
    hide Tally, AckHeard, Reported;
    Push(s.log, Transmit(e.p), i);
  }

  lemma HearMsgKeeps(s: ClientState, issued: Issued, p: Packet, me: ClientId, i: Id)
    requires OkAt(s, issued, i) && p.Msg?
    ensures OkAt(HearStep(s, me, p), issued, i)
  {
    hide Tally, AckHeard, Reported;
    var log, ack := s.log + [Heard(p)], Transmit(Ack(p.id, me, p.origin));
    Push(s.log, Heard(p), i);
    Push(log, ack, i);
    Push(log + [ack], Deliver(p.origin, p.id, p.payload), i);
  }

  lemma HearAckKeeps(s: ClientState, issued: Issued, p: Packet, me: ClientId, i: Id)
    requires OkAt(s, issued, i) && p.Ack? && p.id in issued
    ensures OkAt(HearStep(s, me, p), issued, i)
  {
    hide Tally, AckHeard, Reported;
    var log := s.log + [Heard(p)];
    Push(s.log, Heard(p), i);
    Push(log, Resolve(p.id), i);
    assert log + [] == log;
  }

  lemma HearAnswerKeeps(s: ClientState, issued: Issued, p: Packet, me: ClientId, i: Id)
    requires OkAt(s, issued, i) && p.Answer? && p.id !in issued
    ensures OkAt(HearStep(s, me, p), issued, i)
  {
    hide Tally, AckHeard, Reported;
    var log, settle := s.log + [Heard(p)], ResolveWith(p.questionId, p.outcome);
    Push(s.log, Heard(p), i);
    Push(log, settle, i);
    assert log + [] == log;
    Push(if p.questionId in s.questions then log + [settle] else log, Transmit(Ack(p.id, me, p.origin)), i);
  }

  lemma SweepKeeps(s: ClientState, r: ClientState, issued: Issued, i: Id)
    requires OkAt(s, issued, i) && ShrinksAt(s, r, i) && OnlyReports(s, r)
    ensures OkAt(r, issued, i)
  {
    hide Tally, Reported;
    assert forall o, t :: Heard(Ack(i, o, t)) in s.log <==> Heard(Ack(i, o, t)) in r.log;
  }

  lemma OkIsDisjoint(s: ClientState, issued: Issued)
    requires ClientOk(s, issued)
    ensures Disjoint(s)
  {
    forall k | k in s.acks ensures k !in s.questions {
      assert OkAt(s, issued, k);
    }
  }

  lemma StepKeeps(me: ClientId, s: ClientState, issued: Issued, e: Event)
    requires ClientOk(s, issued) && Legal(me, s, issued, e)
    ensures ClientOk(After(me, s, e), IssuedAfter(issued, e))
  {
    hide OkAt;
    var s', issued' := After(me, s, e), IssuedAfter(issued, e);
    if e.Sweeps? {
      OkIsDisjoint(s, issued);
      AnySweep(s, e.t, e.ackKeys, e.questionKeys);
    }
    forall i ensures OkAt(s', issued', i) {
      assert OkAt(s, issued, i);
      match e
      case Hears(p) =>
        match p {
          case Msg(_, _, _, _) => HearMsgKeeps(s, issued, p, me, i);
          case Ack(_, _, _) => HearAckKeeps(s, issued, p, me, i);
          case Answer(_, _, _, _, _) => HearAnswerKeeps(s, issued, p, me, i);
        }
      case Sweeps(_, _, _) =>
        assert ShrinksAt(s, s', i);
        SweepKeeps(s, s', issued, i);
      case _ => IssueKeeps(s, issued, e, me, i);
    }
  }

  /** A run of the client `me` from its creation: the events, the states, and the messages issued so far. */
  ghost predicate Runs(me: ClientId, es: seq<Event>, ss: seq<ClientState>, made: seq<Issued>) {
    && |ss| == |made| == |es| + 1
    && ss[0] == NEW_CLIENT && made[0] == map[]
    && forall k :: 0 <= k < |es| ==>
         && Legal(me, ss[k], made[k], es[k])
         && ss[k + 1] == After(me, ss[k], es[k]) && made[k + 1] == IssuedAfter(made[k], es[k])
  }

  lemma {:induction false} AlwaysOk(me: ClientId, es: seq<Event>, ss: seq<ClientState>, made: seq<Issued>, k: nat)
    requires Runs(me, es, ss, made) && k < |ss|
    ensures ClientOk(ss[k], made[k])
  {
    hide After, IssuedAfter, Legal;
    if k == 0 {
      NewIsOk();
    } else {
      AlwaysOk(me, es, ss, made, k - 1);
      StepKeeps(me, ss[k - 1], made[k - 1], es[k - 1]);
    }
  }

  lemma NewIsOk()
    ensures ClientOk(NEW_CLIENT, map[])
  {
    forall i ensures OkAt(NEW_CLIENT, map[], i) {
      assert forall o, t :: Heard(Ack(i, o, t)) !in NEW_CLIENT.log;
    }
  }

  /**
   In every reachable state: no promise is settled twice, no message reported twice, every missing
   acknowledgement still has its message pending, an open question's message is pending exactly as
   long as its own acknowledgement has not been heard, and any message is pending exactly until it is
   acknowledged or reported: an answer to a question does not free it.
   */
  lemma SettledAtMostOnce(me: ClientId, es: seq<Event>, ss: seq<ClientState>, made: seq<Issued>, k: nat)
    requires Runs(me, es, ss, made) && k < |ss|
    ensures forall i :: Tally(ss[k].log, Settling, i) <= 1 && Tally(ss[k].log, Reporting, i) <= 1
    ensures ss[k].acks.Keys <= ss[k].pending.Keys
    ensures forall q :: q in ss[k].questions ==> (q in ss[k].pending <==> !AckHeard(ss[k].log, q))
    ensures forall i :: i in made[k] ==>
      (i in ss[k].pending <==> !AckHeard(ss[k].log, i) && Tally(ss[k].log, Reporting, i) == 0)
    ensures forall i, c :: Report(i, c) in ss[k].log ==> i in made[k] && c == ContentOf(made[k][i])
    ensures forall i :: i in ss[k].pending ==>
      && i in made[k]
      && ss[k].pending[i] == if made[k][i].Msg? then Request(made[k][i].payload) else Response(made[k][i].outcome)
  {
    AlwaysOk(me, es, ss, made, k);
    forall i
      ensures Tally(ss[k].log, Settling, i) <= 1 && Tally(ss[k].log, Reporting, i) <= 1
      ensures i in ss[k].acks ==> i in ss[k].pending
      ensures i in ss[k].questions ==> (i in ss[k].pending <==> !AckHeard(ss[k].log, i))
      ensures i in made[k] ==>
        (i in ss[k].pending <==> !AckHeard(ss[k].log, i) && Tally(ss[k].log, Reporting, i) == 0)
      ensures forall c :: Report(i, c) in ss[k].log ==> i in made[k] && c == ContentOf(made[k][i])
      ensures i in ss[k].pending ==>
        && i in made[k]
        && ss[k].pending[i] == if made[k][i].Msg? then Request(made[k][i].payload) else Response(made[k][i].outcome)
    {
      hide Tally, AckHeard;
      assert OkAt(ss[k], made[k], i);
      assert forall c :: Report(i, c) in ss[k].log <==> Reported(ss[k].log, i, c);
    }
  }

  // ---- What stops a sweep ---------------------------------------------------------------------------

  predicate CarriesNothing(p: Packet) {
    p.Answer? && p.outcome == Result(Nothing)
  }

  /** An expired answer that carried nothing, or an expired question whose own acknowledgement came back. */
  ghost predicate Blocks(s: ClientState, issued: Issued, t: int, k: Id) {
    || (k in s.acks && s.acks[k] < t && k in issued && CarriesNothing(issued[k]))
    || (k in s.questions && s.questions[k] < t && AckHeard(s.log, k))
  }

  /** A sweep is cut short by an exception exactly when one of its expired entries cannot be described. */
  lemma SweepThrowsExactly(s: ClientState, issued: Issued, t: int, ackKeys: seq<Id>, questionKeys: seq<Id>)
    requires ClientOk(s, issued) && ListsExpired(ackKeys, s.acks, t) && ListsExpired(questionKeys, s.questions, t)
    ensures Sweep(s, ackKeys, questionKeys).threw <==> exists k :: Blocks(s, issued, t, k)
    ensures forall k :: Blocks(s, issued, t, k) <==>
      || (k in s.acks && s.acks[k] < t && k in issued && issued[k].Answer? && issued[k].outcome == Result(Nothing))
      || (k in s.questions && s.questions[k] < t && AckHeard(s.log, k))
  {
    OkIsDisjoint(s, issued);
    SweepIsFilter(s, t, ackKeys, questionKeys);
    forall k
      ensures Blocks(s, issued, t, k) <==> !Readable(s.pending, k) && (k in ackKeys || k in questionKeys)
    {
      hide AckHeard, Tally;
      assert OkAt(s, issued, k);
    }
    assert forall k :: k in ackKeys || k in questionKeys ==> (Blocks(s, issued, t, k) <==> !Readable(s.pending, k));
  }

  /**
   A question whose acknowledgement has been heard waits for ever if no answer to it is heard: no sweep
   rejects it, and each sweep after its deadline is cut short.
   */
  lemma {:induction false} AckedQuestionHangs(me: ClientId, es: seq<Event>, ss: seq<ClientState>, made: seq<Issued>,
                                              j: nat, k: nat, q: Id)
    requires Runs(me, es, ss, made) && j <= k < |ss|
    requires q in ss[j].questions && AckHeard(ss[j].log, q)
    requires forall n :: j <= n < k && es[n].Hears? && es[n].p.Answer? ==> es[n].p.questionId != q
    ensures q in ss[k].questions && ss[k].questions[q] == ss[j].questions[q]
    ensures AckHeard(ss[k].log, q) && Tally(ss[k].log, Settling, q) == 0
    ensures k < |es| && es[k].Sweeps? && ss[j].questions[q] < es[k].t ==>
      Sweep(ss[k], es[k].ackKeys, es[k].questionKeys).threw
  {
    hide After, IssuedAfter, OkAt, AckHeard, Tally, Sweep, ListsExpired;
    AlwaysOk(me, es, ss, made, k);
    if j < k {
      AckedQuestionHangs(me, es, ss, made, j, k - 1, q);
      AlwaysOk(me, es, ss, made, k - 1);
      QuestionStays(me, ss[k - 1], made[k - 1], es[k - 1], q);
    }
    OpenIsUnsettled(ss[k], made[k], q);
    if k < |es| && es[k].Sweeps? && ss[j].questions[q] < es[k].t {
      assert Blocks(ss[k], made[k], es[k].t, q);
      SweepThrowsExactly(ss[k], made[k], es[k].t, es[k].ackKeys, es[k].questionKeys);
    }
  }

  lemma OpenIsUnsettled(s: ClientState, issued: Issued, q: Id)
    requires ClientOk(s, issued) && q in s.questions
    ensures Tally(s.log, Settling, q) == 0
  {
    assert OkAt(s, issued, q);
  }

  /** One step away: an open, acknowledged question stays open unless its answer is heard. */
  lemma QuestionStays(me: ClientId, s: ClientState, issued: Issued, e: Event, q: Id)
    requires ClientOk(s, issued) && Legal(me, s, issued, e)
    requires q in s.questions && AckHeard(s.log, q)
    requires e.Hears? && e.p.Answer? ==> e.p.questionId != q
    ensures var r := After(me, s, e); q in r.questions && r.questions[q] == s.questions[q] && AckHeard(r.log, q)
  {
    assert OkAt(s, issued, q);
    var r := After(me, s, e);
    if e.Sweeps? {
      OkIsDisjoint(s, issued);
      AnySweep(s, e.t, e.ackKeys, e.questionKeys);
      assert ShrinksAt(s, r, q);
    }
    assert s.log <= r.log;
    var o, t :| Heard(Ack(q, o, t)) in s.log;
    assert Heard(Ack(q, o, t)) in r.log;
  }
}
