/** The restaurant child workflow (MegaBurgerOrderWorkflowImpl). It places the
  * order with the MegaBurger backend, then polls that order and forwards each
  * transition it sees to the parent order workflow, pushing the ETA once.
  * The backend's answers are an explicit finite input: when they run out
  * while a poll is still waiting, the workflow is left suspended there. */
module Restaurant {
  import opened Domain

  /** One answer of the backend to "read order by id": the order's status
    * (always present on a backend order) and its ETA if one is set. */
  datatype RemoteRead = RemoteRead(status: OrderStatus, etaMinutes: Option<int>)

  /** Where `orderFood` stands. */
  datatype Phase =
    | NotStarted
    | Polling(awayFrom: OrderStatus)   // waiting for the remote status to leave `awayFrom`
    | AwaitingEtaRead                  // waiting for the read that supplies the ETA
    | Failed
    | Completed

  datatype RestaurantState = RestaurantState(status: OrderStatus, phase: Phase, log: seq<Effect>)

  function Init(): RestaurantState {
    RestaurantState(Created, NotStarted, [])
  }

  /** The backend request built from a food order: meal and quantity only. */
  function MapMegaBurgerFoodOrder(order: FoodOrder): (r: MegaBurgerFoodOrder)
    ensures r.meal == Some(order.meal) && r.quantity == Some(order.quantity)
    ensures r.id.None? && r.status.None? && r.etaMinutes.None?
  {
    MegaBurgerFoodOrder(None, Some(order.meal), Some(order.quantity), None, None)
  }

  /** Two food orders give the same backend request exactly when they agree
    * on meal and quantity: restaurant, telephone, address and pickup are not
    * sent. */
  lemma MapKeepsOnlyMealAndQuantity(a: FoodOrder, b: FoodOrder)
    ensures MapMegaBurgerFoodOrder(a) == MapMegaBurgerFoodOrder(b) <==>
      a.meal == b.meal && a.quantity == b.quantity
  {
    if MapMegaBurgerFoodOrder(a) == MapMegaBurgerFoodOrder(b) {
      assert MapMegaBurgerFoodOrder(a).meal.value == MapMegaBurgerFoodOrder(b).meal.value;
    }
  }

  /** What a poll loop found (None while every read repeats the awaited-out
    * status) and how many answers it made. */
  datatype PollResult = PollResult(polled: Option<OrderStatus>, used: nat)

  /** The poll loop: the first read whose status differs from `s`, and how
    * many answers it took; None if every available read still says `s`. */
  function PollTransition(answers: seq<RemoteRead>, s: OrderStatus): (r: PollResult)
    ensures r.used <= |answers|
    ensures r.polled.Some? ==> 0 < r.used && r.polled.value == answers[r.used - 1].status && r.polled.value != s
    ensures r.polled.None? ==> r.used == |answers|
    decreases |answers|
  {
    if answers == [] then PollResult(None, 0)
    else if answers[0].status != s then PollResult(Some(answers[0].status), 1)
    else
      var r := PollTransition(answers[1..], s);
      r.(used := r.used + 1)
  }

  /** Every read before the one the poll loop stops at still says `s`, and
    * when it finds nothing, every read does. */
  lemma {:induction false} PollTransitionWaitsOut(answers: seq<RemoteRead>, s: OrderStatus)
    ensures var r := PollTransition(answers, s);
      && (forall j :: 0 <= j < r.used - 1 ==> answers[j].status == s)
      && (r.polled.None? ==> forall j :: 0 <= j < |answers| ==> answers[j].status == s)
    decreases |answers|
  {
    if answers != [] && answers[0].status == s {
      PollTransitionWaitsOut(answers[1..], s);
      var r := PollTransition(answers, s);
      forall j | 0 <= j < |answers| && (j < r.used - 1 || r.polled.None?)
        ensures answers[j].status == s
      {
        if j > 0 {
          assert answers[j] == answers[1..][j - 1];
        }
      }
    }
  }

  /** The poll loop's result is determined by where the first status other
    * than `s` stands: any answer with that description is PollTransition's. */
  lemma {:induction false} PollTransitionUnique(answers: seq<RemoteRead>, s: OrderStatus, p: Option<OrderStatus>, n: nat)
    requires n <= |answers|
    requires p.Some? ==> 0 < n && p.value == answers[n - 1].status && p.value != s
    requires forall j :: 0 <= j < n - 1 ==> answers[j].status == s
    requires p.None? ==> n == |answers| && forall j :: 0 <= j < |answers| ==> answers[j].status == s
    ensures PollResult(p, n) == PollTransition(answers, s)
    decreases |answers|
  {
    if answers != [] && answers[0].status == s {
      PollTransitionUnique(answers[1..], s, p, n - 1);
    }
  }

  /** `updateOrderStatus`: remember the status and send it to the parent. */
  function Forward(st: RestaurantState, s: OrderStatus): RestaurantState {
    st.(status := s, log := st.log + [SentStatus(s)])
  }

  /** The three closing polls, each waiting out a fixed status and forwarding
    * what replaced it; the workflow completes after the last one. */
  function WaitOut(st: RestaurantState, answers: seq<RemoteRead>, froms: seq<OrderStatus>): RestaurantState
    decreases |froms|
  {
    if froms == [] then st.(phase := Completed, log := st.log + [WorkflowCompleted])
    else
      var r := PollTransition(answers, froms[0]);
      if r.polled.None? then st.(phase := Polling(froms[0]))
      else WaitOut(Forward(st, r.polled.value), answers[r.used..], froms[1..])
  }

  const ClosingPolls: seq<OrderStatus> := [Accepted, Cooking, Ready]

  /** The whole of `orderFood`, given the id the backend assigned and the
    * backend's successive answers to reads of that order. */
  function OrderFoodRun(order: FoodOrder, orderId: int, answers: seq<RemoteRead>): (r: RestaurantState)
    ensures |r.log| >= 2 && r.log[..2] == Opening(order)
    ensures !r.phase.NotStarted?
  {
    var r1 := PollTransition(answers, Pending);
    if r1.polled.None? then Opened(order)
    else
      var st1 := FirstForwarded(order, r1.polled.value);
      AfterFirstKeepsLog(st1, orderId, answers[r1.used..]);
      PrefixOfPrefix(AfterFirstTransition(st1, orderId, answers[r1.used..]).log, st1.log);
      AfterFirstTransition(st1, orderId, answers[r1.used..])
  }

  /** A log that starts with `head` starts with the first two entries of `head`. */
  lemma PrefixOfPrefix(log: seq<Effect>, head: seq<Effect>)
    requires |head| >= 2 && |log| >= |head| && log[..|head|] == head
    ensures log[..2] == head[..2]
  {
    assert log[..2] == log[..|head|][..2];
  }

  /** The remote order has been created and PENDING sent; polling away from it. */
  function Opened(order: FoodOrder): RestaurantState {
    Forward(RestaurantState(Created, Polling(Pending), [CreatedRemoteOrder(MapMegaBurgerFoodOrder(order))]), Pending)
  }

  /** The first status after PENDING has been forwarded; the ETA is read next. */
  function FirstForwarded(order: FoodOrder, s1: OrderStatus): RestaurantState {
    Forward(Opened(order), s1).(phase := AwaitingEtaRead)
  }

  /** `orderFood` once the first status after PENDING has been forwarded:
    * fail on REJECTED, otherwise read the ETA, send it, and close out. */
  function AfterFirstTransition(st1: RestaurantState, orderId: int, rest: seq<RemoteRead>): RestaurantState {
    if st1.status == Rejected then
      st1.(phase := Failed, log := st1.log + [WorkflowFailed(RestaurantRejected(orderId))])
    else if rest == [] then st1.(phase := AwaitingEtaRead)
    else if rest[0].etaMinutes.None? then
      st1.(phase := Failed, log := st1.log + [WorkflowFailed(MissingEta(orderId))])
    else
      WaitOut(st1.(log := st1.log + [SentEta(rest[0].etaMinutes.value)]), rest[1..], ClosingPolls)
  }

  // ---------------------------------------------------------------------
  // What orderFood does, for every sequence of backend answers

  /** What the closing polls send: one status per poll that finished, then
    * the completion once all have. */
  function ClosingLog(answers: seq<RemoteRead>, froms: seq<OrderStatus>): seq<Effect>
    decreases |froms|
  {
    if froms == [] then [WorkflowCompleted]
    else
      var r := PollTransition(answers, froms[0]);
      if r.polled.None? then []
      else [SentStatus(r.polled.value)] + ClosingLog(answers[r.used..], froms[1..])
  }

  /** Where the closing polls leave the workflow. */
  function ClosingPhase(answers: seq<RemoteRead>, froms: seq<OrderStatus>): Phase
    decreases |froms|
  {
    if froms == [] then Completed
    else
      var r := PollTransition(answers, froms[0]);
      if r.polled.None? then Polling(froms[0])
      else ClosingPhase(answers[r.used..], froms[1..])
  }

  /** The closing polls add the same messages whatever was sent before. */
  lemma {:induction false} WaitOutSplit(st: RestaurantState, answers: seq<RemoteRead>, froms: seq<OrderStatus>)
    ensures WaitOut(st, answers, froms).log == st.log + ClosingLog(answers, froms)
    ensures WaitOut(st, answers, froms).phase == ClosingPhase(answers, froms)
    decreases |froms|
  {
    if froms != [] {
      var r := PollTransition(answers, froms[0]);
      if r.polled.Some? {
        var tail := ClosingLog(answers[r.used..], froms[1..]);
        WaitOutSplit(Forward(st, r.polled.value), answers[r.used..], froms[1..]);
        assert (st.log + [SentStatus(r.polled.value)]) + tail == st.log + ([SentStatus(r.polled.value)] + tail);
      }
    }
  }

  /** What the closing polls send: one status per poll that finished, each
    * different from the status it waited out, then the completion once all
    * have finished; otherwise the workflow is left polling on the first one
    * that did not. */
  lemma ClosingLogShape(answers: seq<RemoteRead>, froms: seq<OrderStatus>)
    ensures var t := ClosingLog(answers, froms);
      var ph := ClosingPhase(answers, froms);
      && |t| <= |froms| + 1
      && (ph.Completed? <==> |t| == |froms| + 1)
      && (ph.Completed? ==> t[|froms|] == WorkflowCompleted)
      && (!ph.Completed? ==> |t| < |froms| && ph == Polling(froms[|t|]))
      && (forall i :: 0 <= i < |t| && i < |froms| ==> t[i].SentStatus? && t[i].status != froms[i])
      && (forall i :: 0 <= i < |t| ==> t[i].SentStatus? || t[i] == WorkflowCompleted)
  {
    ClosingLogLength(answers, froms);
    ClosingLogEntries(answers, froms);
  }

  lemma {:induction false} ClosingLogLength(answers: seq<RemoteRead>, froms: seq<OrderStatus>)
    ensures var t := ClosingLog(answers, froms);
      var ph := ClosingPhase(answers, froms);
      && |t| <= |froms| + 1
      && (ph.Completed? <==> |t| == |froms| + 1)
      && (ph.Completed? ==> t[|froms|] == WorkflowCompleted)
      && (!ph.Completed? ==> |t| < |froms| && ph == Polling(froms[|t|]))
    decreases |froms|
  {
    if froms != [] {
      var r := PollTransition(answers, froms[0]);
      if r.polled.Some? {
        var t := ClosingLog(answers, froms);
        var tail := ClosingLog(answers[r.used..], froms[1..]);
        ClosingLogLength(answers[r.used..], froms[1..]);
        assert t == [SentStatus(r.polled.value)] + tail;
        if |t| < |froms| {
          assert froms[|t|] == froms[1..][|tail|];
        }
      }
    }
  }

  lemma {:induction false} ClosingLogEntries(answers: seq<RemoteRead>, froms: seq<OrderStatus>)
    ensures var t := ClosingLog(answers, froms);
      && (forall i :: 0 <= i < |t| && i < |froms| ==> t[i].SentStatus? && t[i].status != froms[i])
      && (forall i :: 0 <= i < |t| ==> t[i].SentStatus? || t[i] == WorkflowCompleted)
    decreases |froms|
  {
    if froms != [] {
      var r := PollTransition(answers, froms[0]);
      if r.polled.Some? {
        var t := ClosingLog(answers, froms);
        var tail := ClosingLog(answers[r.used..], froms[1..]);
        ClosingLogEntries(answers[r.used..], froms[1..]);
        assert t == [SentStatus(r.polled.value)] + tail;
        forall i | 0 < i < |t|
          ensures t[i] == tail[i - 1] && (i < |froms| ==> froms[i] == froms[1..][i - 1])
        {
        }
      }
    }
  }

  /** The first two messages of every run. */
  function Opening(order: FoodOrder): seq<Effect> {
    [CreatedRemoteOrder(MapMegaBurgerFoodOrder(order)), SentStatus(Pending)]
  }

  /** Every run, case by case: the remote order and PENDING; then, once the
    * poll loop finds the first transition s1, s1; then a rejection, nothing
    * yet, a failed ETA read, or the ETA followed by the closing polls. */
  lemma RunCases(order: FoodOrder, orderId: int, answers: seq<RemoteRead>)
    ensures var st := OrderFoodRun(order, orderId, answers);
      var r1 := PollTransition(answers, Pending);
      && (r1.polled.None? ==> st.log == Opening(order) && st.phase == Polling(Pending))
      && (r1.polled.Some? ==>
            var s1 := r1.polled.value;
            var rest := answers[r1.used..];
            && s1 != Pending
            && (s1 == Rejected ==>
                  st.log == Opening(order) + [SentStatus(s1)] + [WorkflowFailed(RestaurantRejected(orderId))]
                  && st.phase == Failed)
            && (s1 != Rejected && rest == [] ==>
                  st.log == Opening(order) + [SentStatus(s1)] && st.phase == AwaitingEtaRead)
            && (s1 != Rejected && rest != [] && rest[0].etaMinutes.None? ==>
                  st.log == Opening(order) + [SentStatus(s1)] + [WorkflowFailed(MissingEta(orderId))]
                  && st.phase == Failed)
            && (s1 != Rejected && rest != [] && rest[0].etaMinutes.Some? ==>
                  st.log == Opening(order) + [SentStatus(s1)] + [SentEta(rest[0].etaMinutes.value)]
                            + ClosingLog(rest[1..], ClosingPolls)
                  && st.phase == ClosingPhase(rest[1..], ClosingPolls)))
  {
    var r1 := PollTransition(answers, Pending);
    if r1.polled.Some? {
      var st1 := FirstForwarded(order, r1.polled.value);
      assert st1.log == Opening(order) + [SentStatus(r1.polled.value)];
      AfterFirstCases(st1, orderId, answers[r1.used..]);
    }
  }

  /** The tail of a run after the first transition, case by case. */
  lemma AfterFirstCases(st1: RestaurantState, orderId: int, rest: seq<RemoteRead>)
    ensures var st := AfterFirstTransition(st1, orderId, rest);
      && (st1.status == Rejected ==>
            st.log == st1.log + [WorkflowFailed(RestaurantRejected(orderId))] && st.phase == Failed)
      && (st1.status != Rejected && rest == [] ==>
            st.log == st1.log && st.phase == AwaitingEtaRead)
      && (st1.status != Rejected && rest != [] && rest[0].etaMinutes.None? ==>
            st.log == st1.log + [WorkflowFailed(MissingEta(orderId))] && st.phase == Failed)
      && (st1.status != Rejected && rest != [] && rest[0].etaMinutes.Some? ==>
            st.log == st1.log + [SentEta(rest[0].etaMinutes.value)] + ClosingLog(rest[1..], ClosingPolls)
            && st.phase == ClosingPhase(rest[1..], ClosingPolls))
  {
    if st1.status != Rejected && rest != [] && rest[0].etaMinutes.Some? {
      WaitOutSplit(st1.(log := st1.log + [SentEta(rest[0].etaMinutes.value)]), rest[1..], ClosingPolls);
    }
  }

  /** Every run starts by creating the remote order and sending PENDING; it
    * stops there exactly when the backend never reports anything else, and
    * otherwise sends the first other status next. */
  lemma OpeningMessages(order: FoodOrder, orderId: int, answers: seq<RemoteRead>)
    ensures var st := OrderFoodRun(order, orderId, answers);
      && |st.log| >= 2
      && st.log[..2] == Opening(order)
      && (|st.log| == 2 <==> st.phase == Polling(Pending))
      && (|st.log| > 2 ==> st.log[2].SentStatus? && st.log[2].status != Pending)
  {
    var r1 := PollTransition(answers, Pending);
    if r1.polled.Some? {
      OpeningThenTransition(order, orderId, answers);
    } else {
      assert OrderFoodRun(order, orderId, answers) == Opened(order);
    }
  }

  lemma OpeningThenTransition(order: FoodOrder, orderId: int, answers: seq<RemoteRead>)
    requires PollTransition(answers, Pending).polled.Some?
    ensures var st := OrderFoodRun(order, orderId, answers);
      && |st.log| > 2
      && st.log[..2] == Opening(order)
      && st.phase != Polling(Pending)
      && st.log[2] == SentStatus(PollTransition(answers, Pending).polled.value)
  {
    var log := OrderFoodRun(order, orderId, answers).log;
    var r1 := PollTransition(answers, Pending);
    var st1 := FirstForwarded(order, r1.polled.value);
    assert st1.log == Opening(order) + [SentStatus(r1.polled.value)];
    AfterFirstKeepsLog(st1, orderId, answers[r1.used..]);
    assert log[..2] == log[..3][..2] && log[2] == log[..3][2];
  }

  /** What follows the first transition only adds to the log, and never
    * returns to polling away from PENDING. */
  lemma AfterFirstKeepsLog(st1: RestaurantState, orderId: int, rest: seq<RemoteRead>)
    ensures var st := AfterFirstTransition(st1, orderId, rest);
      && |st.log| >= |st1.log| && st.log[..|st1.log|] == st1.log
      && st.phase != Polling(Pending) && (!st1.phase.NotStarted? ==> !st.phase.NotStarted?)
  {
    if st1.status != Rejected && rest != [] && rest[0].etaMinutes.Some? {
      var st2 := st1.(log := st1.log + [SentEta(rest[0].etaMinutes.value)]);
      ClosingKeepsLog(st2, rest[1..]);
      var log := AfterFirstTransition(st1, orderId, rest).log;
      assert log[..|st1.log|] == log[..|st2.log|][..|st1.log|];
    }
  }

  /** The closing polls only add to the log. */
  lemma ClosingKeepsLog(st2: RestaurantState, closing: seq<RemoteRead>)
    ensures var st := WaitOut(st2, closing, ClosingPolls);
      && |st.log| >= |st2.log| && st.log[..|st2.log|] == st2.log
      && st.phase != Polling(Pending) && !st.phase.NotStarted?
  {
    WaitOutSplit(st2, closing, ClosingPolls);
    ClosingNeverPending(closing);
  }

  /** The closing polls never leave the workflow polling away from PENDING,
    * nor back where it had not started. */
  lemma ClosingNeverPending(answers: seq<RemoteRead>)
    ensures ClosingPhase(answers, ClosingPolls) != Polling(Pending)
    ensures !ClosingPhase(answers, ClosingPolls).NotStarted?
  {
    ClosingLogShape(answers, ClosingPolls);
  }

  /** When the first status other than PENDING the backend reports is
    * REJECTED, the workflow sends it, fails, and reads nothing more, whatever
    * the backend would have answered afterwards. */
  lemma RejectionStopsAtOnce(order: FoodOrder, orderId: int, answers: seq<RemoteRead>, k: nat)
    requires k < |answers| && answers[k].status == Rejected
    requires forall j :: 0 <= j < k ==> answers[j].status == Pending
    ensures OrderFoodRun(order, orderId, answers) ==
      RestaurantState(Rejected, Failed,
        [CreatedRemoteOrder(MapMegaBurgerFoodOrder(order)), SentStatus(Pending), SentStatus(Rejected),
         WorkflowFailed(RestaurantRejected(orderId))])
  {
    PollTransitionUnique(answers, Pending, Some(Rejected), k + 1);
  }

  /** After the first transition a run either sends the ETA next, or ends
    * there: failed on REJECTED, failed on a missing ETA, or waiting for the
    * ETA read. */
  lemma AfterFirstOutcomes(order: FoodOrder, orderId: int, answers: seq<RemoteRead>)
    ensures var st := OrderFoodRun(order, orderId, answers);
      |st.log| > 2 ==>
        || (|st.log| > 3 && st.log[3].SentEta? && st.log[2] != SentStatus(Rejected))
        || (st.log[2] == SentStatus(Rejected) &&
            st.phase == Failed && |st.log| == 4 && st.log[3] == WorkflowFailed(RestaurantRejected(orderId)))
        || (st.log[2] != SentStatus(Rejected) && st.phase == AwaitingEtaRead && |st.log| == 3)
        || (st.log[2] != SentStatus(Rejected) &&
            st.phase == Failed && |st.log| == 4 && st.log[3] == WorkflowFailed(MissingEta(orderId)))
  {
    RunCases(order, orderId, answers);
  }

  /** A run that sends the ETA sends it fourth, after a first transition
    * other than REJECTED, and then adds what the closing polls add. */
  lemma EtaOutcome(order: FoodOrder, orderId: int, answers: seq<RemoteRead>)
    requires var log := OrderFoodRun(order, orderId, answers).log; |log| > 3 && log[3].SentEta?
    ensures var st := OrderFoodRun(order, orderId, answers);
      && st.log[2].SentStatus? && st.log[2].status != Rejected
      && |st.log| <= 8
      && (st.phase.Completed? <==> |st.log| == 8)
      && (st.phase.Completed? ==> st.log[7] == WorkflowCompleted)
      && (!st.phase.Completed? ==> |st.log| < 7 && st.phase == Polling(ClosingPolls[|st.log| - 4]))
      && (forall i :: 4 <= i < |st.log| && i < 7 ==>
            st.log[i].SentStatus? && st.log[i].status != ClosingPolls[i - 4])
      && (forall i :: 4 <= i < |st.log| ==> st.log[i].SentStatus? || st.log[i] == WorkflowCompleted)
  {
    var log := OrderFoodRun(order, orderId, answers).log;
    EtaCase(order, orderId, answers);
    RunCases(order, orderId, answers);
    var r1 := PollTransition(answers, Pending);
    var rest := answers[r1.used..];
    var head := Opening(order) + [SentStatus(r1.polled.value)] + [SentEta(rest[0].etaMinutes.value)];
    var tail := ClosingLog(rest[1..], ClosingPolls);
    ClosingLogShape(rest[1..], ClosingPolls);
    assert log == head + tail && |head| == 4;
    assert log[2] == SentStatus(r1.polled.value);
    forall i | 4 <= i < |log|
      ensures log[i] == tail[i - 4]
    {
    }
  }

  /** Only the run with an accepted-like first transition and an ETA on the
    * next read sends the ETA. */
  lemma EtaCase(order: FoodOrder, orderId: int, answers: seq<RemoteRead>)
    requires var log := OrderFoodRun(order, orderId, answers).log; |log| > 3 && log[3].SentEta?
    ensures var r1 := PollTransition(answers, Pending);
      && r1.polled.Some? && r1.polled.value != Rejected
      && answers[r1.used..] != [] && answers[r1.used..][0].etaMinutes.Some?
  {
    RunCases(order, orderId, answers);
  }

  /** A completed run has sent exactly: the remote order, PENDING, the first
    * transition (neither PENDING nor REJECTED), the ETA, one status away from
    * each of ACCEPTED, COOKING and READY, and nothing after its completion. */
  lemma CompletedMessages(order: FoodOrder, orderId: int, answers: seq<RemoteRead>)
    requires OrderFoodRun(order, orderId, answers).phase.Completed?
    ensures var log := OrderFoodRun(order, orderId, answers).log;
      && |log| == 8
      && log[..2] == Opening(order)
      && log[2].SentStatus? && log[2].status != Pending && log[2].status != Rejected
      && log[3].SentEta?
      && log[4].SentStatus? && log[4].status != Accepted
      && log[5].SentStatus? && log[5].status != Cooking
      && log[6].SentStatus? && log[6].status != Ready
      && log[7] == WorkflowCompleted
  {
    OpeningMessages(order, orderId, answers);
    AfterFirstOutcomes(order, orderId, answers);
    EtaOutcome(order, orderId, answers);
  }

  /** The ETA is sent at most once, and only right after the first status
    * that followed PENDING, before any later status. */
  lemma EtaSentOnce(order: FoodOrder, orderId: int, answers: seq<RemoteRead>)
    ensures var log := OrderFoodRun(order, orderId, answers).log;
      && (forall i :: 0 <= i < |log| && log[i].SentEta? ==> i == 3)
      && (|log| > 3 && log[3].SentEta? ==>
            log[2].SentStatus? && log[2].status != Pending && log[2].status != Rejected)
  {
    var log := OrderFoodRun(order, orderId, answers).log;
    OpeningMessages(order, orderId, answers);
    if |log| > 3 && log[3].SentEta? {
      EtaOutcome(order, orderId, answers);
    } else if |log| > 2 {
      AfterFirstOutcomes(order, orderId, answers);
    }
    assert log[0] == log[..2][0] && log[1] == log[..2][1];
    EtaOnlyFourth(log);
  }

  lemma EtaOnlyFourth(log: seq<Effect>)
    requires |log| >= 2 && !log[0].SentEta? && !log[1].SentEta? && (|log| > 2 ==> log[2].SentStatus?)
    requires forall i :: 4 <= i < |log| ==> !log[i].SentEta?
    ensures forall i :: 0 <= i < |log| && log[i].SentEta? ==> i == 3
  {
  }

  /** The status the workflow answers with is the last one it sent. */
  ghost predicate StatusMatchesLog(st: RestaurantState) {
    st.status == LastSentStatus(st.log, Created)
  }

  lemma ForwardMatchesLog(st: RestaurantState, s: OrderStatus)
    ensures StatusMatchesLog(Forward(st, s))
  {
    LastSentStatusAppend(st.log, SentStatus(s), Created);
  }

  lemma AppendKeepsMatch(st: RestaurantState, e: Effect)
    requires StatusMatchesLog(st) && !e.SentStatus?
    ensures StatusMatchesLog(st.(log := st.log + [e]))
  {
    LastSentStatusAppend(st.log, e, Created);
  }

  lemma {:induction false} WaitOutKeepsMatch(st: RestaurantState, answers: seq<RemoteRead>, froms: seq<OrderStatus>)
    requires StatusMatchesLog(st)
    ensures StatusMatchesLog(WaitOut(st, answers, froms))
    decreases |froms|
  {
    if froms == [] {
      AppendKeepsMatch(st, WorkflowCompleted);
    } else {
      var r := PollTransition(answers, froms[0]);
      if r.polled.Some? {
        ForwardMatchesLog(st, r.polled.value);
        WaitOutKeepsMatch(Forward(st, r.polled.value), answers[r.used..], froms[1..]);
      }
    }
  }

  /** `getStatus` always answers the last status sent to the parent. */
  lemma StatusIsLastSent(order: FoodOrder, orderId: int, answers: seq<RemoteRead>)
    ensures StatusMatchesLog(OrderFoodRun(order, orderId, answers))
  {
    var st0 := Opened(order);
    ForwardMatchesLog(RestaurantState(Created, Polling(Pending), [CreatedRemoteOrder(MapMegaBurgerFoodOrder(order))]), Pending);
    var r1 := PollTransition(answers, Pending);
    if r1.polled.Some? {
      var st1 := FirstForwarded(order, r1.polled.value);
      ForwardMatchesLog(st0, r1.polled.value);
      var rest := answers[r1.used..];
      if st1.status == Rejected {
        AppendKeepsMatch(st1, WorkflowFailed(RestaurantRejected(orderId)));
      } else if rest != [] {
        match rest[0].etaMinutes
        case None => AppendKeepsMatch(st1, WorkflowFailed(MissingEta(orderId)));
        case Some(eta) =>
          AppendKeepsMatch(st1, SentEta(eta));
          WaitOutKeepsMatch(st1.(log := st1.log + [SentEta(eta)]), rest[1..], ClosingPolls);
      }
    }
  }

  /** The closing polls wait out fixed constants, not the status last seen:
    * an order that goes straight from PENDING to COOKING has COOKING sent
    * twice, once for the first transition and once as the move away from
    * ACCEPTED. */
  lemma ClosingPollsIgnoreObservedStatus(order: FoodOrder, orderId: int)
    ensures OrderFoodRun(order, orderId,
      [RemoteRead(Cooking, Some(15)), RemoteRead(Cooking, Some(15)), RemoteRead(Cooking, Some(15)),
       RemoteRead(Ready, Some(15)), RemoteRead(RestaurantDelivered, Some(15))]).log ==
      [CreatedRemoteOrder(MapMegaBurgerFoodOrder(order)), SentStatus(Pending), SentStatus(Cooking),
       SentEta(15), SentStatus(Cooking), SentStatus(Ready), SentStatus(RestaurantDelivered), WorkflowCompleted]
  {
    var answers := [RemoteRead(Cooking, Some(15)), RemoteRead(Cooking, Some(15)), RemoteRead(Cooking, Some(15)),
                    RemoteRead(Ready, Some(15)), RemoteRead(RestaurantDelivered, Some(15))];
    RunCases(order, orderId, answers);
    assert PollTransition(answers, Pending) == PollResult(Some(Cooking), 1);
    var closing := answers[1..][1..];
    assert closing == [RemoteRead(Cooking, Some(15)), RemoteRead(Ready, Some(15)), RemoteRead(RestaurantDelivered, Some(15))];
    assert PollTransition(closing, Accepted) == PollResult(Some(Cooking), 1);
    assert PollTransition(closing[1..], Cooking) == PollResult(Some(Ready), 1);
    assert PollTransition(closing[1..][1..], Ready) == PollResult(Some(RestaurantDelivered), 1);
    assert ClosingLog(closing, ClosingPolls) ==
      [SentStatus(Cooking), SentStatus(Ready), SentStatus(RestaurantDelivered), WorkflowCompleted];
  }

  // ---------------------------------------------------------------------
  // The workflow object

  /** MegaBurgerOrderWorkflowImpl: the status it last forwarded, the point
    * where `orderFood` is suspended, and what it has sent so far. */
  class MegaBurgerOrderWorkflow {
    var currentStatus: OrderStatus
    var phase: Phase
    var log: seq<Effect>

    function State(): RestaurantState
      reads this
    {
      RestaurantState(currentStatus, phase, log)
    }

    ghost predicate Valid()
      reads this
    {
      StatusMatchesLog(State()) && (phase.NotStarted? ==> log == [])
    }

    constructor ()
      ensures Valid() && State() == Init()
    {
      currentStatus := Created;
      phase := NotStarted;
      log := [];
    }

    /** `getStatus`: the last status sent to the parent, CREATED before any. */
    function GetStatus(): (s: OrderStatus)
      reads this
      requires Valid()
      ensures s == LastSentStatus(log, Created)
    {
      currentStatus
    }

    /** `updateOrderStatus`: remember the status and send it to the parent. */
    method UpdateOrderStatus(latestStatus: OrderStatus)
      requires Valid() && !phase.NotStarted?
      modifies this`currentStatus, this`log
      ensures Valid() && State() == Forward(old(State()), latestStatus)
    {
      ForwardMatchesLog(State(), latestStatus);
      currentStatus := latestStatus;
      log := log + [SentStatus(latestStatus)];
    }

    /** `pollOrderStatusTransition`: read the order until its status is not
      * `orderStatus`; `used` counts the reads made. When the answers run out
      * first, nothing was polled. */
    method PollOrderStatusTransition(answers: seq<RemoteRead>, orderStatus: OrderStatus)
      returns (polled: Option<OrderStatus>, used: nat)
      ensures used <= |answers|
      ensures polled.Some? ==> 0 < used && polled.value == answers[used - 1].status && polled.value != orderStatus
      ensures forall j :: 0 <= j < used - 1 ==> answers[j].status == orderStatus
      ensures polled.None? ==> used == |answers| && forall j :: 0 <= j < |answers| ==> answers[j].status == orderStatus
      ensures PollResult(polled, used) == PollTransition(answers, orderStatus)
    {
      polled := None;
      used := 0;
      while used < |answers|
        invariant used <= |answers|
        invariant forall j :: 0 <= j < used ==> answers[j].status == orderStatus
        decreases |answers| - used
      {
        var polledStatus := answers[used].status;
        used := used + 1;
        if polledStatus != orderStatus {
          polled := Some(polledStatus);
          PollTransitionUnique(answers, orderStatus, polled, used);
          return;
        }
      }
      PollTransitionUnique(answers, orderStatus, polled, used);
    }

    /** One closing poll: wait `from` out and forward what replaced it, or
      * stay suspended there when the answers run out. */
    method CloseOut(answers: seq<RemoteRead>, from: OrderStatus) returns (done: bool, rest: seq<RemoteRead>)
      requires Valid() && !phase.NotStarted?
      modifies this`currentStatus, this`log, this`phase
      ensures var r := PollTransition(answers, from);
        && done == r.polled.Some?
        && (done ==> State() == Forward(old(State()), r.polled.value) && rest == answers[r.used..])
        && (!done ==> State() == old(State()).(phase := Polling(from)))
      ensures Valid()
    {
      var polled, used := PollOrderStatusTransition(answers, from);
      done := polled.Some?;
      rest := answers[used..];
      if done {
        UpdateOrderStatus(polled.value);
      } else {
        phase := Polling(from);
      }
    }

    /** `orderFood`, given the id the backend assigns and its successive
      * answers to reads of that order. */
    method OrderFood(order: FoodOrder, orderId: int, answers: seq<RemoteRead>)
      requires Valid() && phase.NotStarted?
      modifies this
      ensures Valid() && State() == OrderFoodRun(order, orderId, answers)
    {
      log := log + [CreatedRemoteOrder(MapMegaBurgerFoodOrder(order))];
      phase := Polling(Pending);
      UpdateOrderStatus(Pending);
      var polled, used := PollOrderStatusTransition(answers, Pending);
      if polled.None? {
        return;
      }
      UpdateOrderStatus(polled.value);
      phase := AwaitingEtaRead;
      assert OrderFoodRun(order, orderId, answers) == AfterFirstTransition(State(), orderId, answers[used..]);
      AfterFirst(orderId, answers[used..]);
    }

    /** `orderFood` once the first status after PENDING has been forwarded:
      * fail on REJECTED, otherwise read the ETA, send it, and close out. */
    method AfterFirst(orderId: int, rest: seq<RemoteRead>)
      requires Valid() && phase == AwaitingEtaRead
      modifies this`currentStatus, this`log, this`phase
      ensures Valid() && State() == AfterFirstTransition(old(State()), orderId, rest)
    {
      ghost var st1 := State();
      if currentStatus == Rejected {
        AppendKeepsMatch(st1, WorkflowFailed(RestaurantRejected(orderId)));
        log := log + [WorkflowFailed(RestaurantRejected(orderId))];
        phase := Failed;
        return;
      }
      if rest == [] {
        return;
      }
      if rest[0].etaMinutes.None? {
        AppendKeepsMatch(st1, WorkflowFailed(MissingEta(orderId)));
        log := log + [WorkflowFailed(MissingEta(orderId))];
        phase := Failed;
        return;
      }
      AppendKeepsMatch(st1, SentEta(rest[0].etaMinutes.value));
      log := log + [SentEta(rest[0].etaMinutes.value)];
      CloseAll(rest[1..]);
    }

    /** The three closing polls of `orderFood`, away from ACCEPTED, COOKING
      * and READY in turn; the workflow completes after the last. */
    method CloseAll(answers: seq<RemoteRead>)
      requires Valid() && !phase.NotStarted?
      modifies this`currentStatus, this`log, this`phase
      ensures Valid() && State() == WaitOut(old(State()), answers, ClosingPolls)
    {
      ghost var goal := WaitOut(State(), answers, ClosingPolls);
      var done, rest := CloseOut(answers, Accepted);
      if !done {
        return;
      }
      assert goal == WaitOut(State(), rest, [Cooking, Ready]);
      done, rest := CloseOut(rest, Cooking);
      if !done {
        return;
      }
      assert goal == WaitOut(State(), rest, [Ready]);
      done, rest := CloseOut(rest, Ready);
      if !done {
        return;
      }
      assert goal == WaitOut(State(), rest, []);
      AppendKeepsMatch(State(), WorkflowCompleted);
      log := log + [WorkflowCompleted];
      phase := Completed;
    }
  }
}
