/**
 The client against the clock: with a sweep every five seconds, what is not acknowledged or answered
 in time is reported or rejected within five seconds of its deadline, exactly if that sweep gets there.
 */
module Deadlines {
  import Inbox
  import opened SocketClient
  import opened ClientRuns
  import opened Promises

  const SWEEP_INTERVAL := 5000

  /** A run of one client with the time of each event and of the sweep that is due next. */
  datatype Timeline = Timeline(run: History, times: seq<int>, next: seq<int>)

  predicate Issues(e: Event) {
    e.Sends? || e.Answers? || e.Asks?
  }

  /** Sweeps come exactly when they are due, timeouts are not negative. */
  ghost predicate OnSchedule(es: seq<Event>, times: seq<int>, next: seq<int>) {
    && |times| == |next| == |es| + 1
    && next[0] == times[0] + SWEEP_INTERVAL
    && (forall k :: 0 <= k <= |es| ==> times[k] <= next[k])
    && forall k :: 0 <= k < |es| ==>
         && times[k] <= times[k + 1]
         && (es[k].Sweeps? ==> es[k].t == times[k] == next[k])
         && next[k + 1] == next[k] + (if es[k].Sweeps? then SWEEP_INTERVAL else 0)
         && (Issues(es[k]) ==> times[k] <= es[k].deadline)
  }

  ghost predicate Timed(t: Timeline) {
    Ran(t.run) && OnSchedule(t.run.es, t.times, t.next)
  }

  // ---- The first sweep after a deadline -------------------------------------------------------------

  /** No sweep strictly between `i` and `k` came after the deadline. */
  ghost predicate NotDueYet(t: Timeline, deadline: int, i: nat, k: nat)
    requires k < |t.run.es| + 1 == |t.times|
  {
    forall n :: i < n < k && t.run.es[n].Sweeps? ==> t.times[n] <= deadline
  }

  ghost predicate FirstDue(t: Timeline, deadline: int, i: nat, k: nat)
    requires k < |t.run.es| + 1 == |t.times|
  {
    i < k < |t.run.es| && t.run.es[k].Sweeps? && deadline < t.times[k] && NotDueYet(t, deadline, i, k)
  }

  lemma {:induction false} NextIsNear(t: Timeline, k: nat)
    requires Timed(t) && k <= |t.run.es|
    ensures t.next[k] <= t.times[k] + SWEEP_INTERVAL
  {
    if k > 0 {
      NextIsNear(t, k - 1);
    }
  }

  lemma {:induction false} DueInTime(t: Timeline, deadline: int, i: nat, k: nat)
    requires Timed(t) && i < k <= |t.run.es| && NotDueYet(t, deadline, i, k)
    requires t.times[i] <= deadline && !t.run.es[i].Sweeps?
    ensures t.next[k] <= deadline + SWEEP_INTERVAL
  {
    assert t.next[k] == t.next[k - 1] + if t.run.es[k - 1].Sweeps? then SWEEP_INTERVAL else 0;
    if k == i + 1 {
      NextIsNear(t, i);
    } else {
      DueInTime(t, deadline, i, k - 1);
    }
  }

  lemma {:induction false} FirstViolation(t: Timeline, deadline: int, i: nat, j: nat) returns (k: nat)
    requires Timed(t) && i < j <= |t.run.es| && !NotDueYet(t, deadline, i, j)
    ensures k < j && FirstDue(t, deadline, i, k)
  {
    if NotDueYet(t, deadline, i, j - 1) {
      k := j - 1;
    } else {
      k := FirstViolation(t, deadline, i, j - 1);
    }
  }

  lemma SomeSweepIsDue(t: Timeline, deadline: int, i: nat, j: nat) returns (k: nat)
    requires Timed(t) && i < j <= |t.run.es| && !t.run.es[i].Sweeps? && t.times[i] <= deadline
    requires t.times[j] > deadline + SWEEP_INTERVAL
    ensures k < j && FirstDue(t, deadline, i, k) && t.times[k] <= deadline + SWEEP_INTERVAL
  {
    if NotDueYet(t, deadline, i, j) {
      DueInTime(t, deadline, i, j);
    }
    k := FirstViolation(t, deadline, i, j);
    DueInTime(t, deadline, i, k);
  }

  lemma {:induction false} TimePasses(t: Timeline, j: nat, k: nat)
    requires Timed(t) && j <= k <= |t.run.es|
    ensures t.times[j] <= t.times[k]
  {
    if j < k {
      TimePasses(t, j, k - 1);
    }
  }

  lemma NothingDueBy(t: Timeline, deadline: int, i: nat, n: nat)
    requires Timed(t) && i < n <= |t.run.es| && t.times[n] <= deadline
    ensures NotDueYet(t, deadline, i, n)
  {
    forall m | i < m < n && t.run.es[m].Sweeps? ensures t.times[m] <= deadline {
      TimePasses(t, m, n);
    }
  }

  // ---- Sends and answers ----------------------------------------------------------------------------

  lemma OpenUntilDue(t: Timeline, i: nat, k: nat)
    requires Timed(t) && i < k <= |t.run.es| && IsSend(t.run.es[i]) && NotDueYet(t, t.run.es[i].deadline, i, k)
    requires forall n :: i < n < k ==> !IsAckOf(t.run.es[n], t.run.es[i].p.id)
    ensures Open(t.run, k, t.run.es[i].p.id, t.run.es[i].deadline)
  {
    hide Tallies, Gone, ClearTo, After, IssuedAfter, Legal;
    LostIffReached(t.run, i, k);
  }

  /** The first acknowledgement, heard before a due sweep, closes the message unreported. */
  lemma AckedUntilDue(t: Timeline, i: nat, k: nat)
    requires Timed(t) && i < k <= |t.run.es| && IsSend(t.run.es[i]) && NotDueYet(t, t.run.es[i].deadline, i, k)
    requires exists n :: i < n < k && IsAckOf(t.run.es[n], t.run.es[i].p.id)
    ensures Acked(t.run, k, t.run.es[i].p.id)
  {
    hide Tally, ClearTo, After, IssuedAfter, Legal;
    var n := FirstAck(t.run, i, k, t.run.es[i].p.id);
    OpenUntilDue(t, i, n);
    OpenStep(t.run, n, t.run.es[i].p.id, t.run.es[i].deadline);
    StaysGone(t.run, n + 1, k, t.run.es[i].p.id);
  }

  /**
   The first sweep after the deadline reports a send or answer if and only if no acknowledgement was
   heard by then and it lists no void answer up to the message. Nothing reports it earlier.
   */
  lemma ReportedAtFirstDue(t: Timeline, i: nat, k: nat)
    requires Timed(t) && i < k < |t.run.es| && IsSend(t.run.es[i]) && FirstDue(t, t.run.es[i].deadline, i, k)
    ensures Tally(t.run.ss[k].log, Reporting, t.run.es[i].p.id) == 0
    ensures Tally(t.run.ss[k + 1].log, Reporting, t.run.es[i].p.id) ==
            One((forall n :: i < n < k ==> !IsAckOf(t.run.es[n], t.run.es[i].p.id)) &&
                ClearTo(t.run, k, t.run.es[i].p.id))
  {
    hide Tally, ClearTo, After, IssuedAfter, Legal;
    var id := t.run.es[i].p.id;
    if forall n :: i < n < k ==> !IsAckOf(t.run.es[n], id) {
      OpenUntilDue(t, i, k);
      OpenStep(t.run, k, id, t.run.es[i].deadline);
    } else {
      AckedUntilDue(t, i, k);
      GoneStep(t.run, k, id);
    }
  }

  /** The send at `i` is reported by the sweep at `k` and, up to `j`, by no other. */
  ghost predicate ReportedBy(h: History, i: nat, k: nat, j: nat)
    requires i < k < j < |h.ss| == |h.es| + 1 && IsSend(h.es[i])
  {
    && (forall m :: i < m <= k ==> Tally(h.ss[m].log, Reporting, h.es[i].p.id) == 0)
    && (forall m :: k < m <= j ==> Tally(h.ss[m].log, Reporting, h.es[i].p.id) == 1)
    && !h.es[i].p.Ack? && Report(h.es[i].p.id, ContentOf(h.es[i].p)) in h.ss[j].log
  }

  lemma {:induction false} ReportOf(log: seq<Effect>, i: Id) returns (c: Content)
    requires Tally(log, Reporting, i) > 0
    ensures Report(i, c) in log
  {
    var last := log[|log| - 1];
    if last.Report? && last.id == i {
      c := last.content;
    } else {
      c := ReportOf(log[..|log| - 1], i);
    }
  }

  lemma ReportsItself(h: History, i: nat, j: nat)
    requires Ran(h) && i < j < |h.ss| && IsSend(h.es[i]) && Tally(h.ss[j].log, Reporting, h.es[i].p.id) > 0
    ensures !h.es[i].p.Ack? && Report(h.es[i].p.id, ContentOf(h.es[i].p)) in h.ss[j].log
  {
    var content := ReportOf(h.ss[j].log, h.es[i].p.id);
    SettledAtMostOnce(h.me, h.es, h.ss, h.made, j);
    MadeStays(h, i + 1, j, h.es[i].p.id);
  }

  lemma ReportedWhenReached(t: Timeline, i: nat, k: nat, j: nat)
    requires Timed(t) && i < k < j <= |t.run.es| && IsSend(t.run.es[i])
    requires FirstDue(t, t.run.es[i].deadline, i, k) && ClearTo(t.run, k, t.run.es[i].p.id)
    requires forall n :: i < n < j ==> !IsAckOf(t.run.es[n], t.run.es[i].p.id)
    ensures ReportedBy(t.run, i, k, j)
  {
    hide Tally, ClearTo, After, IssuedAfter, Legal;
    var id := t.run.es[i].p.id;
    forall m | i < m <= k ensures Tally(t.run.ss[m].log, Reporting, id) == 0 {
      OpenUntilDue(t, i, m);
    }
    OpenUntilDue(t, i, k);
    OpenStep(t.run, k, id, t.run.es[i].deadline);
    forall m | k < m <= j ensures Tally(t.run.ss[m].log, Reporting, id) == 1 {
      LostStays(t.run, k + 1, m, id);
    }
    ReportsItself(t.run, i, j);
  }

  /**
   The deadline bound: for what was sent with a deadline and not acknowledged there is a sweep later
   than the deadline and at most five seconds later, and that sweep reports it, with its own payload, as
   the only one, if and only if it lists no void answer up to the message.
   */
  lemma ReportedInTime(t: Timeline, i: nat, j: nat)
    requires Timed(t) && i < j <= |t.run.es| && IsSend(t.run.es[i])
    requires t.times[j] > t.run.es[i].deadline + SWEEP_INTERVAL
    requires forall n :: i < n < j ==> !IsAckOf(t.run.es[n], t.run.es[i].p.id)
    ensures exists k ::
      && i < k < j && FirstDue(t, t.run.es[i].deadline, i, k)
      && t.times[k] <= t.run.es[i].deadline + SWEEP_INTERVAL
      && (ReportedBy(t.run, i, k, j) <==> ClearTo(t.run, k, t.run.es[i].p.id))
  {
    hide ClearTo, Tally, After, IssuedAfter, Legal;
    var k := SomeSweepIsDue(t, t.run.es[i].deadline, i, j);
    if ClearTo(t.run, k, t.run.es[i].p.id) {
      ReportedWhenReached(t, i, k, j);
    } else {
      ReportedAtFirstDue(t, i, k);
    }
  }

  /** What is acknowledged by its deadline is never reported. */
  lemma AckedInTimeIsNeverReported(t: Timeline, i: nat, n: nat, j: nat)
    requires Timed(t) && i < n < |t.run.es| && n < j <= |t.run.es| && IsSend(t.run.es[i])
    requires IsAckOf(t.run.es[n], t.run.es[i].p.id) && t.times[n] <= t.run.es[i].deadline
    ensures Tally(t.run.ss[j].log, Reporting, t.run.es[i].p.id) == 0
  {
    hide Tally;
    NothingDueBy(t, t.run.es[i].deadline, i, n);
    AckedUntilDue(t, i, n + 1);
    StaysGone(t.run, n + 1, j, t.run.es[i].p.id);
  }

  // ---- Questions ------------------------------------------------------------------------------------

  /** The question at `i` is rejected by the sweep at `k`, once, and not settled otherwise up to `j`. */
  ghost predicate RejectedBy(h: History, i: nat, k: nat, j: nat)
    requires i < k < j < |h.ss| == |h.es| + 1 == |h.made| && h.es[i].Asks?
  {
    && (forall m :: i < m <= k ==> Asked(h, m, h.es[i].p.id, h.es[i].deadline))
    && (forall m :: k < m <= j ==> Rejected(h, m, h.es[i].p.id))
  }

  lemma AskedUntilDue(t: Timeline, i: nat, k: nat)
    requires Timed(t) && i < k <= |t.run.es| && t.run.es[i].Asks? && NotDueYet(t, t.run.es[i].deadline, i, k)
    requires forall n :: i < n < k ==> !IsAnswerTo(t.run.es[n], t.run.es[i].p.id)
    ensures Asked(t.run, k, t.run.es[i].p.id, t.run.es[i].deadline)
  {
    hide Tallies, Gone, ClearToQuestion, After, IssuedAfter, Legal;
    RejectedIffReached(t.run, i, k);
  }

  lemma RejectedWhenReached(t: Timeline, i: nat, k: nat, j: nat)
    requires Timed(t) && i < k < j <= |t.run.es| && t.run.es[i].Asks?
    requires FirstDue(t, t.run.es[i].deadline, i, k)
    requires forall n :: i < n < j ==> !IsAnswerTo(t.run.es[n], t.run.es[i].p.id)
    ensures RejectedBy(t.run, i, k, j) <==> ClearToQuestion(t.run, k, t.run.es[i].p.id)
  {
    hide Tallies, Gone, ClearToQuestion, After, IssuedAfter, Legal;
    var q := t.run.es[i].p.id;
    forall m | i < m <= k ensures Asked(t.run, m, q, t.run.es[i].deadline) {
      AskedUntilDue(t, i, m);
    }
    AskedStep(t.run, k, q, t.run.es[i].deadline);
    if ClearToQuestion(t.run, k, q) {
      forall m | k < m <= j ensures Rejected(t.run, m, q) {
        RejectedStays(t.run, k + 1, m, q);
      }
    } else {
      AskedIsNotRejected(t.run, k + 1, q, t.run.es[i].deadline);
    }
  }

  lemma AskedIsNotRejected(h: History, k: nat, q: Id, deadline: int)
    requires k < |h.ss| == |h.made| && Asked(h, k, q, deadline)
    ensures !Rejected(h, k, q)
  {
  }

  /**
   The same bound for questions: a question that is not answered is rejected by the first sweep after
   its deadline, at most five seconds later, if and only if that sweep lists no void answer and neither
   the question nor one listed before it has been acknowledged.
   */
  lemma RejectedInTime(t: Timeline, i: nat, j: nat)
    requires Timed(t) && i < j <= |t.run.es| && t.run.es[i].Asks?
    requires t.times[j] > t.run.es[i].deadline + SWEEP_INTERVAL
    requires forall n :: i < n < j ==> !IsAnswerTo(t.run.es[n], t.run.es[i].p.id)
    ensures exists k ::
      && i < k < j && FirstDue(t, t.run.es[i].deadline, i, k)
      && t.times[k] <= t.run.es[i].deadline + SWEEP_INTERVAL
      && (RejectedBy(t.run, i, k, j) <==> ClearToQuestion(t.run, k, t.run.es[i].p.id))
  {
    hide RejectedBy, ClearToQuestion, After, IssuedAfter, Legal;
    var k := SomeSweepIsDue(t, t.run.es[i].deadline, i, j);
    RejectedWhenReached(t, i, k, j);
  }

  // ---- Runs in which a sweep does not get there ------------------------------------------------------

  /** Two messages to "b" at time 0, an answer carrying nothing and a send; neither is acknowledged. */
  function VoidAnswerEvents(payload: WireMessage): seq<Event> {
    [Answers(Answer(0, "a", "b", 7, Inbox.Result(Inbox.Nothing)), 1), Sends(Msg(1, "a", "b", payload), 1),
     Sweeps(5000, [0, 1], []), Sweeps(10000, [0, 1], [])]
  }

  lemma VoidAnswerRun(payload: WireMessage, s1: ClientState, s2: ClientState, made1: Issued, made2: Issued)
    requires s1 == After("a", NEW_CLIENT, VoidAnswerEvents(payload)[0])
    requires s2 == After("a", s1, VoidAnswerEvents(payload)[1])
    requires made1 == IssuedAfter(map[], VoidAnswerEvents(payload)[0])
    requires made2 == IssuedAfter(made1, VoidAnswerEvents(payload)[1])
    ensures Runs("a", VoidAnswerEvents(payload), [NEW_CLIENT, s1, s2, s2, s2], [map[], made1, made2, made2, made2])
    ensures Tally(s2.log, Reporting, 1) == 0
  {
    hide Tally;
    QuietStep("a", NEW_CLIENT, VoidAnswerEvents(payload)[0], 1);
    QuietStep("a", s1, VoidAnswerEvents(payload)[1], 1);
    NewIsOk();
    assert OkAt(NEW_CLIENT, map[], 1);
    assert s2.acks == map[0 := 1, 1 := 1] && s2.questions == map[];
    assert ListsExpired([0, 1], s2.acks, 5000) && ListsExpired([0, 1], s2.acks, 10000);
    assert SweepAcks(s2, [0, 1]) == Swept(s2, true);
  }

  /** The send is not reported, more than five seconds after its deadline. */
  lemma VoidAnswerHidesLoss(payload: WireMessage)
    ensures exists t :: (Timed(t) && t.run.es == VoidAnswerEvents(payload)
                         && t.times[4] > t.run.es[1].deadline + SWEEP_INTERVAL
                         && Tally(t.run.ss[4].log, Reporting, 1) == 0)
  {
    var es := VoidAnswerEvents(payload);
    var times, next := [0, 0, 5000, 10000, 12000], [5000, 5000, 5000, 10000, 15000];
    assert OnSchedule(es, times, next);
    var s1, made1 := After("a", NEW_CLIENT, es[0]), IssuedAfter(map[], es[0]);
    var s2, made2 := After("a", s1, es[1]), IssuedAfter(made1, es[1]);
    VoidAnswerRun(payload, s1, s2, made1, made2);
    hide Runs, After, IssuedAfter, Tally, OnSchedule;
    var h := History("a", es, [NEW_CLIENT, s1, s2, s2, s2], [map[], made1, made2, made2, made2]);
    assert Timed(Timeline(h, times, next));
  }

  /** A question to "b" at time 0 that is acknowledged at once and never answered. */
  function HangingEvents(payload: WireMessage): seq<Event> {
    [Asks(Msg(0, "a", "b", payload), 1), Hears(Ack(0, "b", "a")), Sweeps(5000, [], [0]), Sweeps(10000, [], [0])]
  }

  lemma HangingRun(payload: WireMessage, s1: ClientState, s2: ClientState, made1: Issued)
    requires s1 == After("a", NEW_CLIENT, HangingEvents(payload)[0])
    requires s2 == After("a", s1, HangingEvents(payload)[1])
    requires made1 == IssuedAfter(map[], HangingEvents(payload)[0])
    ensures Runs("a", HangingEvents(payload), [NEW_CLIENT, s1, s2, s2, s2], [map[], made1, made1, made1, made1])
    ensures 0 in s2.questions && AckHeard(s2.log, 0)
  {
    hide Tally;
    assert s2.acks == map[] && s2.questions == map[0 := 1] && s2.pending == map[];
    assert ListsExpired([0], s2.questions, 5000) && ListsExpired([0], s2.questions, 10000);
    assert SweepQuestions(s2, [0]) == Swept(s2, true);
    assert Heard(Ack(0, "b", "a")) in s2.log;
  }

  /** The question is neither answered nor rejected, more than five seconds after its deadline. */
  lemma QuestionHangs(payload: WireMessage)
    ensures exists t :: (Timed(t) && t.run.es == HangingEvents(payload)
                         && t.times[4] > t.run.es[0].deadline + SWEEP_INTERVAL
                         && Asked(t.run, 4, 0, t.run.es[0].deadline) && AckHeard(t.run.ss[4].log, 0))
  {
    hide Runs, After, IssuedAfter, Tallies, OnSchedule, AckHeard;
    var es := HangingEvents(payload);
    var times, next := HangingSchedule(payload);
    var s1, made1 := After("a", NEW_CLIENT, es[0]), IssuedAfter(map[], es[0]);
    var s2 := After("a", s1, es[1]);
    HangingRun(payload, s1, s2, made1);
    var h := History("a", es, [NEW_CLIENT, s1, s2, s2, s2], [map[], made1, made1, made1, made1]);
    assert Timed(Timeline(h, times, next));
    HangingStaysAsked(h);
  }

  lemma HangingSchedule(payload: WireMessage) returns (times: seq<int>, next: seq<int>)
    ensures OnSchedule(HangingEvents(payload), times, next) && |times| == 5 && times[4] == 12000
  {
    times, next := [0, 0, 5000, 10000, 12000], [5000, 5000, 5000, 10000, 15000];
  }

  lemma HangingStaysAsked(h: History)
    requires Ran(h) && |h.es| == 4 && h.es[0].Asks? && h.es[0].p.id == 0 && 0 in h.ss[4].questions
    requires forall n :: 0 < n < 4 ==> !IsAnswerTo(h.es[n], 0)
    ensures Asked(h, 4, 0, h.es[0].deadline)
  {
    hide Tallies, ClearToQuestion, After, IssuedAfter, Legal;
    RejectedIffReached(h, 0, 4);
  }
}
