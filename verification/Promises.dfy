/**
 What becomes of each promise over a whole run of one client: a send or an answer is resolved,
 reported or open for ever, a question answered, rejected or open for ever, and when which.
 */
module Promises {
  import opened SocketClient
  import opened ClientRuns

  predicate IsSend(e: Event) {
    e.Sends? || e.Answers?
  }

  predicate IsAckOf(e: Event, i: Id) {
    e.Hears? && e.p.Ack? && e.p.id == i
  }

  predicate IsAnswerTo(e: Event, q: Id) {
    e.Hears? && e.p.Answer? && e.p.questionId == q
  }

  /** A run of one client. */
  datatype History = History(me: ClientId, es: seq<Event>, ss: seq<ClientState>, made: seq<Issued>)

  ghost predicate Ran(h: History) {
    Runs(h.me, h.es, h.ss, h.made)
  }

  // ---- Messages that are done with ------------------------------------------------------------------

  lemma QuietStep(me: ClientId, s: ClientState, e: Event, i: Id)
    requires !e.Sweeps? && (e.Sends? || e.Asks? ==> e.p.Msg?) && (e.Answers? ==> e.p.Answer?)
    requires (IsAckOf(e, i) ==> i !in s.acks) && (IsAnswerTo(e, i) ==> i !in s.questions)
    ensures forall kind :: OfPromise(kind) ==> Tally(After(me, s, e).log, kind, i) == Tally(s.log, kind, i)
  {
    hide Tally;
    if e.Hears? {
      var log, ack := s.log + [Heard(e.p)], Transmit(Ack(e.p.id, me, e.p.origin));
      assert log + [] == log;
      Push(s.log, Heard(e.p), i);
      match e.p
      case Msg(id, origin, _, payload) =>
        Push(log, ack, i);
        Push(log + [ack], Deliver(origin, id, payload), i);
      case Ack(id, _, _) =>
        Push(log, Resolve(id), i);
      case Answer(_, _, _, q, outcome) =>
        Push(log, ResolveWith(q, outcome), i);
        Push(if q in s.questions then log + [ResolveWith(q, outcome)] else log, ack, i);
    } else {
      Push(s.log, Transmit(e.p), i);
    }
  }

  ghost predicate Gone(h: History, k: nat, i: Id)
    requires k < |h.ss| == |h.made|
  {
    i in h.made[k] && i !in h.ss[k].acks && i !in h.ss[k].questions
  }

  ghost predicate SameTallies(h: History, j: nat, k: nat, i: Id)
    requires j < |h.ss| && k < |h.ss|
  {
    forall kind :: OfPromise(kind) ==> Tally(h.ss[k].log, kind, i) == Tally(h.ss[j].log, kind, i)
  }

  lemma SweepAt(h: History, k: nat, i: Id)
    requires Ran(h) && k < |h.es| && h.es[k].Sweeps?
    ensures Disjoint(h.ss[k]) && ShrinksAt(h.ss[k], h.ss[k + 1], i)
    ensures Expired(h.ss[k], h.ss[k + 1], i) ==> i in h.es[k].ackKeys
    ensures Refused(h.ss[k], h.ss[k + 1], i) ==> i in h.es[k].questionKeys
  {
    AlwaysOk(h.me, h.es, h.ss, h.made, k);
    OkIsDisjoint(h.ss[k], h.made[k]);
    AnySweep(h.ss[k], h.es[k].t, h.es[k].ackKeys, h.es[k].questionKeys);
  }

  lemma GoneStep(h: History, k: nat, i: Id)
    requires Ran(h) && k < |h.es| && Gone(h, k, i)
    ensures Gone(h, k + 1, i) && SameTallies(h, k, k + 1, i)
  {
    hide Tally;
    if h.es[k].Sweeps? {
      SweepAt(h, k, i);
      forall kind | OfPromise(kind) ensures Tally(h.ss[k + 1].log, kind, i) == Tally(h.ss[k].log, kind, i) {
        match kind
        case Settling =>
        case Rejecting =>
        case _ =>
      }
    } else {
      QuietStep(h.me, h.ss[k], h.es[k], i);
    }
  }

  lemma {:induction false} StaysGone(h: History, j: nat, k: nat, i: Id)
    requires Ran(h) && j <= k < |h.ss| && Gone(h, j, i)
    ensures Gone(h, k, i) && SameTallies(h, j, k, i)
  {
    if j < k {
      StaysGone(h, j, k - 1, i);
      GoneStep(h, k - 1, i);
    }
  }

  lemma {:induction false} MadeStays(h: History, j: nat, k: nat, i: Id)
    requires Ran(h) && j <= k < |h.ss| && i in h.made[j]
    ensures i in h.made[k] && h.made[k][i] == h.made[j][i]
  {
    if j < k {
      MadeStays(h, j, k - 1, i);
    }
  }

  // ---- Sends and answers ----------------------------------------------------------------------------

  ghost predicate Tallies(h: History, k: nat, i: Id, settled: nat, rejected: nat, reported: nat)
    requires k < |h.ss|
  {
    && Tally(h.ss[k].log, Settling, i) == settled
    && Tally(h.ss[k].log, Rejecting, i) == rejected
    && Tally(h.ss[k].log, Reporting, i) == reported
  }

  ghost predicate Open(h: History, k: nat, i: Id, deadline: int)
    requires k < |h.ss|
  {
    i in h.ss[k].acks && h.ss[k].acks[i] == deadline && Tallies(h, k, i, 0, 0, 0)
  }

  ghost predicate Acked(h: History, k: nat, i: Id)
    requires k < |h.ss| == |h.made|
  {
    Gone(h, k, i) && Tallies(h, k, i, 1, 0, 0)
  }

  ghost predicate Lost(h: History, k: nat, i: Id)
    requires k < |h.ss| == |h.made|
  {
    Gone(h, k, i) && Tallies(h, k, i, 0, 0, 1)
  }

  /** Message `i` is an answer that carries undefined or null. */
  ghost predicate VoidAnswer(h: History, k: nat, i: Id)
    requires k < |h.made|
  {
    i in h.made[k] && CarriesNothing(h.made[k][i])
  }

  /** The sweep at `k` lists neither `i` nor anything before it as a void answer. */
  ghost predicate ClearTo(h: History, k: nat, i: Id)
    requires k < |h.es| && k < |h.made| && h.es[k].Sweeps?
  {
    forall n :: 0 <= n < |h.es[k].ackKeys| && h.es[k].ackKeys[n] == i ==>
      forall m :: 0 <= m <= n ==> !VoidAnswer(h, k, h.es[k].ackKeys[m])
  }

  /** What an open acknowledgement becomes at step `k`. */
  ghost predicate Expires(h: History, k: nat, deadline: int, i: Id)
    requires k < |h.es| && k < |h.made|
  {
    h.es[k].Sweeps? && deadline < h.es[k].t && ClearTo(h, k, i)
  }

  lemma AckReadable(h: History, k: nat, i: Id)
    requires Ran(h) && k < |h.ss| && i in h.ss[k].acks
    ensures Readable(h.ss[k].pending, i) <==> !VoidAnswer(h, k, i)
  {
    hide Tally, AckHeard;
    AlwaysOk(h.me, h.es, h.ss, h.made, k);
    assert OkAt(h.ss[k], h.made[k], i);
  }

  lemma ClearIsReadable(h: History, k: nat, n: nat)
    requires Ran(h) && k < |h.es| && h.es[k].Sweeps? && n < |h.es[k].ackKeys|
    ensures ClearTo(h, k, h.es[k].ackKeys[n]) <==> AllReadable(h.ss[k].pending, h.es[k].ackKeys[..n + 1])
  {
    var keys := h.es[k].ackKeys;
    forall m | 0 <= m <= n ensures Readable(h.ss[k].pending, keys[m]) <==> !VoidAnswer(h, k, keys[m]) {
      assert keys[m] in keys;
      AckReadable(h, k, keys[m]);
    }
    assert forall m :: 0 <= m <= n ==> keys[m] in keys[..n + 1];
  }

  lemma OpenSwept(h: History, k: nat, i: Id, deadline: int)
    requires Ran(h) && k < |h.es| && Open(h, k, i, deadline) && h.es[k].Sweeps?
    ensures if Expires(h, k, deadline, i) then Lost(h, k + 1, i) else Open(h, k + 1, i, deadline)
  {
    hide Tally, ClearTo, AllReadable;
    var e := h.es[k];
    AlwaysOk(h.me, h.es, h.ss, h.made, k);
    SweepAt(h, k, i);
    SweepReaches(h.ss[k], e.t, e.ackKeys, e.questionKeys);
    assert OkAt(h.ss[k], h.made[k], i);
    if deadline < e.t {
      assert i in e.ackKeys;
      var n :| 0 <= n < |e.ackKeys| && e.ackKeys[n] == i;
      ClearIsReadable(h, k, n);
    }
  }

  lemma OpenHeard(h: History, k: nat, i: Id, deadline: int)
    requires Ran(h) && k < |h.es| && Open(h, k, i, deadline) && IsAckOf(h.es[k], i)
    ensures Acked(h, k + 1, i)
  {
    hide Tally;
    AlwaysOk(h.me, h.es, h.ss, h.made, k);
    assert OkAt(h.ss[k], h.made[k], i);
    Push(h.ss[k].log, Heard(h.es[k].p), i);
    Push(h.ss[k].log + [Heard(h.es[k].p)], Resolve(i), i);
  }

  lemma OpenKept(h: History, k: nat, i: Id, deadline: int)
    requires Ran(h) && k < |h.es| && Open(h, k, i, deadline) && !IsAckOf(h.es[k], i) && !h.es[k].Sweeps?
    ensures Open(h, k + 1, i, deadline)
  {
    hide Tally;
    AlwaysOk(h.me, h.es, h.ss, h.made, k);
    assert OkAt(h.ss[k], h.made[k], i);
    QuietStep(h.me, h.ss[k], h.es[k], i);
  }

  lemma OpenStep(h: History, k: nat, i: Id, deadline: int)
    requires Ran(h) && k < |h.es| && Open(h, k, i, deadline)
    ensures if IsAckOf(h.es[k], i) then Acked(h, k + 1, i)
            else if Expires(h, k, deadline, i) then Lost(h, k + 1, i)
            else Open(h, k + 1, i, deadline)
  {
    hide Tallies, Gone, After, IssuedAfter, Legal;
    if h.es[k].Sweeps? {
      OpenSwept(h, k, i, deadline);
    } else if IsAckOf(h.es[k], i) {
      OpenHeard(h, k, i, deadline);
    } else {
      OpenKept(h, k, i, deadline);
    }
  }

  lemma OpensAt(h: History, i: nat)
    requires Ran(h) && i < |h.es| && IsSend(h.es[i])
    ensures Open(h, i + 1, h.es[i].p.id, h.es[i].deadline)
  {
    hide Tally;
    AlwaysOk(h.me, h.es, h.ss, h.made, i);
    assert OkAt(h.ss[i], h.made[i], h.es[i].p.id);
    Push(h.ss[i].log, Transmit(h.es[i].p), h.es[i].p.id);
    RejectsAreSettled(h.ss[i].log, h.es[i].p.id);
  }

  lemma {:induction false} RejectsAreSettled(log: seq<Effect>, i: Id)
    ensures Tally(log, Rejecting, i) <= Tally(log, Settling, i)
  {
    if log != [] {
      RejectsAreSettled(log[..|log| - 1], i);
    }
  }

  lemma LostStays(h: History, j: nat, k: nat, i: Id)
    requires Ran(h) && j <= k < |h.ss| && Lost(h, j, i)
    ensures Lost(h, k, i)
  {
    hide Tally, After, IssuedAfter, Legal;
    StaysGone(h, j, k, i);
  }

  /**
   A send or answer without acknowledgement is reported by a sweep if and only if the sweep comes after
   its deadline and gets as far as the message; so it is reported at all if and only if some sweep of
   the run does.
   */
  lemma {:induction false} LostIffReached(h: History, i: nat, j: nat)
    requires Ran(h) && i < j < |h.ss| && IsSend(h.es[i])
    requires forall n :: i < n < j ==> !IsAckOf(h.es[n], h.es[i].p.id)
    ensures Lost(h, j, h.es[i].p.id) <==> exists k :: i < k < j && Expires(h, k, h.es[i].deadline, h.es[i].p.id)
    ensures Open(h, j, h.es[i].p.id, h.es[i].deadline) <==> !Lost(h, j, h.es[i].p.id)
  {
    hide Tally, After, IssuedAfter, Legal, ClearTo;
    var id, deadline := h.es[i].p.id, h.es[i].deadline;
    if j == i + 1 {
      OpensAt(h, i);
    } else {
      LostIffReached(h, i, j - 1);
      if Lost(h, j - 1, id) {
        LostStays(h, j - 1, j, id);
      } else {
        OpenStep(h, j - 1, id, deadline);
      }
    }
  }

  lemma {:induction false} FirstAck(h: History, i: nat, k: nat, id: Id) returns (n: nat)
    requires i < k <= |h.es| && exists n :: i < n < k && IsAckOf(h.es[n], id)
    ensures i < n < k && IsAckOf(h.es[n], id) && forall m :: i < m < n ==> !IsAckOf(h.es[m], id)
  {
    if exists n :: i < n < k - 1 && IsAckOf(h.es[n], id) {
      n := FirstAck(h, i, k - 1, id);
    } else {
      n := k - 1;
    }
  }

  /** An acknowledgement of `id` is heard at `n`, and `id` has not been reported by then. */
  ghost predicate AckedUnreported(h: History, n: nat, id: Id)
    requires n < |h.es| && n < |h.ss|
  {
    IsAckOf(h.es[n], id) && Tally(h.ss[n].log, Reporting, id) == 0
  }

  /** A send or answer is settled if and only if an acknowledgement was heard before any sweep reported it. */
  lemma SettledIffAckedUnreported(h: History, i: nat, j: nat)
    requires Ran(h) && i < j < |h.ss| && IsSend(h.es[i])
    ensures Tally(h.ss[j].log, Settling, h.es[i].p.id) ==
            One(exists n :: i < n < j && AckedUnreported(h, n, h.es[i].p.id))
  {
    hide Tally;
    var id := h.es[i].p.id;
    if exists n :: i < n < j && IsAckOf(h.es[n], id) {
      var n := FirstAck(h, i, j, id);
      LostIffReached(h, i, n);
      if Lost(h, n, id) {
        forall m | n <= m <= j ensures SameTallies(h, n, m, id) {
          StaysGone(h, n, m, id);
        }
        assert SameTallies(h, n, j, id);
        forall m | i < m < j ensures !AckedUnreported(h, m, id) {
          assert m >= n ==> SameTallies(h, n, m, id);
        }
      } else {
        OpenStep(h, n, id, h.es[i].deadline);
        StaysGone(h, n + 1, j, id);
        assert AckedUnreported(h, n, id);
      }
    } else {
      LostIffReached(h, i, j);
    }
  }

  /** Once a sweep has reported it, the promise of a send or answer is never settled, whatever arrives later. */
  lemma ReportedIsNeverSettled(h: History, i: nat, k: nat, j: nat)
    requires Ran(h) && i < k <= j < |h.ss| && IsSend(h.es[i]) && Tally(h.ss[k].log, Reporting, h.es[i].p.id) > 0
    ensures Tally(h.ss[j].log, Settling, h.es[i].p.id) == 0 && h.es[i].p.id !in h.ss[j].acks
  {
    hide Tally;
    var id := h.es[i].p.id;
    if exists n :: i < n < k && IsAckOf(h.es[n], id) {
      var n := FirstAck(h, i, k, id);
      LostIffReached(h, i, n);
      if Open(h, n, id, h.es[i].deadline) {
        OpenStep(h, n, id, h.es[i].deadline);
        StaysGone(h, n + 1, k, id);
      } else {
        StaysGone(h, n, j, id);
      }
    } else {
      LostIffReached(h, i, k);
      StaysGone(h, k, j, id);
    }
  }

  // ---- Questions ------------------------------------------------------------------------------------

  ghost predicate Asked(h: History, k: nat, q: Id, deadline: int)
    requires k < |h.ss|
  {
    q in h.ss[k].questions && h.ss[k].questions[q] == deadline && Tallies(h, k, q, 0, 0, 0)
  }

  ghost predicate Answered(h: History, k: nat, q: Id)
    requires k < |h.ss| == |h.made|
  {
    Gone(h, k, q) && Tallies(h, k, q, 1, 0, 0)
  }

  ghost predicate Rejected(h: History, k: nat, q: Id)
    requires k < |h.ss| == |h.made|
  {
    Gone(h, k, q) && Tallies(h, k, q, 1, 1, 1)
  }

  /**
   The sweep at `k` gets as far as question `q`: it lists no void answer, and neither `q` nor a question
   listed before `q` has been acknowledged.
   */
  ghost predicate ClearToQuestion(h: History, k: nat, q: Id)
    requires k < |h.es| && k < |h.made| && k < |h.ss| && h.es[k].Sweeps?
  {
    && (forall m :: 0 <= m < |h.es[k].ackKeys| ==> !VoidAnswer(h, k, h.es[k].ackKeys[m]))
    && (forall n :: 0 <= n < |h.es[k].questionKeys| && h.es[k].questionKeys[n] == q ==>
          forall m :: 0 <= m <= n ==> !AckHeard(h.ss[k].log, h.es[k].questionKeys[m]))
  }

  ghost predicate Gives(h: History, k: nat, deadline: int, q: Id)
    requires k < |h.es| && k < |h.made| && k < |h.ss|
  {
    h.es[k].Sweeps? && deadline < h.es[k].t && ClearToQuestion(h, k, q)
  }

  lemma QuestionReadable(h: History, k: nat, q: Id)
    requires Ran(h) && k < |h.ss| && q in h.ss[k].questions
    ensures Readable(h.ss[k].pending, q) <==> !AckHeard(h.ss[k].log, q)
  {
    hide Tally, AckHeard;
    AlwaysOk(h.me, h.es, h.ss, h.made, k);
    assert OkAt(h.ss[k], h.made[k], q);
  }

  lemma ClearAcksReadable(h: History, k: nat)
    requires Ran(h) && k < |h.es| && h.es[k].Sweeps?
    ensures (forall m :: 0 <= m < |h.es[k].ackKeys| ==> !VoidAnswer(h, k, h.es[k].ackKeys[m])) <==>
            AllReadable(h.ss[k].pending, h.es[k].ackKeys)
  {
    var keys := h.es[k].ackKeys;
    forall m | 0 <= m < |keys| ensures Readable(h.ss[k].pending, keys[m]) <==> !VoidAnswer(h, k, keys[m]) {
      assert keys[m] in keys;
      AckReadable(h, k, keys[m]);
    }
  }

  lemma ClearQuestionsReadable(h: History, k: nat, n: nat)
    requires Ran(h) && k < |h.es| && h.es[k].Sweeps? && n < |h.es[k].questionKeys|
    ensures (forall m :: 0 <= m <= n ==> !AckHeard(h.ss[k].log, h.es[k].questionKeys[m])) <==>
            AllReadable(h.ss[k].pending, h.es[k].questionKeys[..n + 1])
  {
    hide AckHeard;
    var keys := h.es[k].questionKeys;
    forall m | 0 <= m <= n ensures Readable(h.ss[k].pending, keys[m]) <==> !AckHeard(h.ss[k].log, keys[m]) {
      assert keys[m] in keys;
      QuestionReadable(h, k, keys[m]);
    }
    assert forall m :: 0 <= m <= n ==> keys[m] in keys[..n + 1];
  }

  lemma ClearIsReached(h: History, k: nat, n: nat)
    requires Ran(h) && k < |h.es| && h.es[k].Sweeps? && n < |h.es[k].questionKeys|
    ensures ClearToQuestion(h, k, h.es[k].questionKeys[n]) <==> h.es[k].questionKeys[n] !in h.ss[k + 1].questions
  {
    hide AckHeard, VoidAnswer, AllReadable;
    var e := h.es[k];
    AlwaysOk(h.me, h.es, h.ss, h.made, k);
    OkIsDisjoint(h.ss[k], h.made[k]);
    SweepReaches(h.ss[k], e.t, e.ackKeys, e.questionKeys);
    ClearAcksReadable(h, k);
    ClearQuestionsReadable(h, k, n);
    assert e.questionKeys[n] in e.questionKeys;
  }

  lemma AskedSwept(h: History, k: nat, q: Id, deadline: int)
    requires Ran(h) && k < |h.es| && Asked(h, k, q, deadline) && h.es[k].Sweeps?
    ensures if Gives(h, k, deadline, q) then Rejected(h, k + 1, q) else Asked(h, k + 1, q, deadline)
  {
    hide Tally, ClearToQuestion, AckHeard;
    var e := h.es[k];
    AlwaysOk(h.me, h.es, h.ss, h.made, k);
    SweepAt(h, k, q);
    assert OkAt(h.ss[k], h.made[k], q);
    if deadline < e.t {
      assert q in e.questionKeys;
      var n :| 0 <= n < |e.questionKeys| && e.questionKeys[n] == q;
      ClearIsReached(h, k, n);
    }
  }

  lemma AskedHeard(h: History, k: nat, q: Id, deadline: int)
    requires Ran(h) && k < |h.es| && Asked(h, k, q, deadline) && IsAnswerTo(h.es[k], q)
    ensures Answered(h, k + 1, q)
  {
    hide Tally;
    AlwaysOk(h.me, h.es, h.ss, h.made, k);
    assert OkAt(h.ss[k], h.made[k], q);
    var p, log := h.es[k].p, h.ss[k].log + [Heard(h.es[k].p)];
    Push(h.ss[k].log, Heard(p), q);
    Push(log, ResolveWith(q, p.outcome), q);
    Push(log + [ResolveWith(q, p.outcome)], Transmit(Ack(p.id, h.me, p.origin)), q);
  }

  lemma AskedKept(h: History, k: nat, q: Id, deadline: int)
    requires Ran(h) && k < |h.es| && Asked(h, k, q, deadline) && !IsAnswerTo(h.es[k], q) && !h.es[k].Sweeps?
    ensures Asked(h, k + 1, q, deadline)
  {
    hide Tally;
    AlwaysOk(h.me, h.es, h.ss, h.made, k);
    assert OkAt(h.ss[k], h.made[k], q);
    QuietStep(h.me, h.ss[k], h.es[k], q);
  }

  lemma AskedStep(h: History, k: nat, q: Id, deadline: int)
    requires Ran(h) && k < |h.es| && Asked(h, k, q, deadline)
    ensures if IsAnswerTo(h.es[k], q) then Answered(h, k + 1, q)
            else if Gives(h, k, deadline, q) then Rejected(h, k + 1, q)
            else Asked(h, k + 1, q, deadline)
  {
    hide Tallies, Gone, After, IssuedAfter, Legal;
    if h.es[k].Sweeps? {
      AskedSwept(h, k, q, deadline);
    } else if IsAnswerTo(h.es[k], q) {
      AskedHeard(h, k, q, deadline);
    } else {
      AskedKept(h, k, q, deadline);
    }
  }

  lemma AskedAt(h: History, i: nat)
    requires Ran(h) && i < |h.es| && h.es[i].Asks?
    ensures Asked(h, i + 1, h.es[i].p.id, h.es[i].deadline)
  {
    hide Tally;
    AlwaysOk(h.me, h.es, h.ss, h.made, i);
    assert OkAt(h.ss[i], h.made[i], h.es[i].p.id);
    Push(h.ss[i].log, Transmit(h.es[i].p), h.es[i].p.id);
    RejectsAreSettled(h.ss[i].log, h.es[i].p.id);
  }

  lemma RejectedStays(h: History, j: nat, k: nat, q: Id)
    requires Ran(h) && j <= k < |h.ss| && Rejected(h, j, q)
    ensures Rejected(h, k, q)
  {
    hide Tally, After, IssuedAfter, Legal;
    StaysGone(h, j, k, q);
  }

  /**
   An unanswered question is rejected by a sweep if and only if the sweep comes after its deadline and
   gets as far as the question; so it is rejected at all if and only if some sweep of the run does.
   */
  lemma {:induction false} RejectedIffReached(h: History, i: nat, j: nat)
    requires Ran(h) && i < j < |h.ss| && h.es[i].Asks?
    requires forall n :: i < n < j ==> !IsAnswerTo(h.es[n], h.es[i].p.id)
    ensures Rejected(h, j, h.es[i].p.id) <==> exists k :: i < k < j && Gives(h, k, h.es[i].deadline, h.es[i].p.id)
    ensures Asked(h, j, h.es[i].p.id, h.es[i].deadline) <==> !Rejected(h, j, h.es[i].p.id)
  {
    hide Tally, After, IssuedAfter, Legal, ClearToQuestion;
    var q, deadline := h.es[i].p.id, h.es[i].deadline;
    if j == i + 1 {
      AskedAt(h, i);
    } else {
      RejectedIffReached(h, i, j - 1);
      if Rejected(h, j - 1, q) {
        RejectedStays(h, j - 1, j, q);
      } else {
        AskedStep(h, j - 1, q, deadline);
      }
    }
  }
}
