/** The top-level order workflow (OrderWorkflowImpl). Its state is the status
  * and ETA that signals overwrite, the point where `orderFood` is suspended,
  * and the log of what it has done. Signals, the runtime re-evaluating the
  * current await, and the courier timer are explicit events. */
module Dispatcher {
  import opened Domain

  /** The ETA value meaning "not yet supplied by the restaurant". */
  const NoEta: int := -1

  /** Where `orderFood` stands. An awaiting phase carries the order, which is
    * the local state that lives across the await. */
  datatype Phase =
    | NotStarted
    | AwaitingEtaOrRejection(order: FoodOrder)
    | AwaitingReadyOrTimer(order: FoodOrder, timeoutMinutes: int)
    | AwaitingCourierDelivered(order: FoodOrder)
    | AwaitingRestaurantDelivered(order: FoodOrder)
    | Failed
    | Completed

  datatype OrderState = OrderState(status: OrderStatus, eta: int, phase: Phase, log: seq<Effect>)

  /** What the environment can do to a running order workflow. */
  datatype Event =
    | Start(order: FoodOrder)            // the caller invokes orderFood
    | StatusSignal(status: OrderStatus)  // updateStatus
    | EtaSignal(minutes: int)            // updateEta
    | Resume                             // the runtime re-evaluates the pending await
    | TimerFired                         // the courier-dispatch timer expires

  function Init(): OrderState {
    OrderState(Created, NoEta, NotStarted, [])
  }

  /** The courier job built from an order: its restaurant, then its
    * address, then its telephone. */
  function JobFor(o: FoodOrder): (j: CourierDeliveryJob)
    ensures j.restaurant == o.restaurant && j.address == o.address && j.telephone == o.telephone
  {
    CourierDeliveryJob(o.restaurant, o.address, o.telephone)
  }

  /** The courier learns nothing of the order but where to collect it, where
    * to take it and whom to call: two orders give the same job exactly when
    * they agree on those three. */
  lemma JobForKeepsOnlyRoute(a: FoodOrder, b: FoodOrder)
    ensures JobFor(a) == JobFor(b) <==>
      a.restaurant == b.restaurant && a.address == b.address && a.telephone == b.telephone
  {
    if JobFor(a) == JobFor(b) {
      assert JobFor(a).address == JobFor(b).address;
    }
  }

  function SignalStatus(st: OrderState, s: OrderStatus): OrderState {
    st.(status := s)
  }

  function SignalEta(st: OrderState, minutes: int): OrderState {
    st.(eta := minutes)
  }

  /** `orderFood` up to its first await: start the restaurant child or fail
    * for an unsupported restaurant. */
  function StartOrder(st: OrderState, order: FoodOrder): OrderState
    requires st.phase.NotStarted?
  {
    if order.restaurant == MegaBurger then
      st.(phase := AwaitingEtaOrRejection(order), log := st.log + [StartedRestaurantChild(order)])
    else
      st.(phase := Failed, log := st.log + [WorkflowFailed(UnsupportedRestaurant(order.restaurant))])
  }

  /** The condition of the first await. */
  predicate EtaOrRejection(st: OrderState) {
    st.eta != NoEta || st.status == Rejected
  }

  /** The first await and the branch after it; the ETA at resumption becomes
    * the courier timer's duration. */
  function ResumeEtaOrRejection(st: OrderState): OrderState
    requires st.phase.AwaitingEtaOrRejection?
  {
    var o := st.phase.order;
    if !EtaOrRejection(st) then st
    else if st.status == Rejected then
      st.(phase := Failed, log := st.log + [WorkflowFailed(OrderRejected)])
    else if !o.pickup then st.(phase := AwaitingReadyOrTimer(o, st.eta))
    else st.(phase := AwaitingRestaurantDelivered(o))
  }

  /** The timer-bounded await for READY, then the courier child's start. */
  function ResumeReadyOrTimer(st: OrderState, timerFired: bool): OrderState
    requires st.phase.AwaitingReadyOrTimer?
  {
    var o := st.phase.order;
    if !(timerFired || st.status == Ready) then st
    else st.(phase := AwaitingCourierDelivered(o), log := st.log + [StartedCourierChild(JobFor(o))])
  }

  function ResumeCourierDelivered(st: OrderState): OrderState
    requires st.phase.AwaitingCourierDelivered?
  {
    if st.status != CourierDelivered then st
    else st.(phase := Completed, log := st.log + [WorkflowCompleted])
  }

  function ResumeRestaurantDelivered(st: OrderState): OrderState
    requires st.phase.AwaitingRestaurantDelivered?
  {
    if st.status != RestaurantDelivered then st
    else st.(phase := Completed, log := st.log + [WorkflowCompleted])
  }

  function Step(st: OrderState, ev: Event): OrderState {
    match ev
    case Start(o) => if st.phase.NotStarted? then StartOrder(st, o) else st
    case StatusSignal(s) => SignalStatus(st, s)
    case EtaSignal(m) => SignalEta(st, m)
    case Resume =>
      (match st.phase
       case AwaitingEtaOrRejection(_) => ResumeEtaOrRejection(st)
       case AwaitingReadyOrTimer(_, _) => ResumeReadyOrTimer(st, false)
       case AwaitingCourierDelivered(_) => ResumeCourierDelivered(st)
       case AwaitingRestaurantDelivered(_) => ResumeRestaurantDelivered(st)
       case _ => st)
    case TimerFired => if st.phase.AwaitingReadyOrTimer? then ResumeReadyOrTimer(st, true) else st
  }

  function Run(st: OrderState, evs: seq<Event>): OrderState
    decreases |evs|
  {
    if evs == [] then st else Run(Step(st, evs[0]), evs[1..])
  }

  predicate Supported(o: FoodOrder) {
    o.restaurant == MegaBurger
  }

  /** Every log `orderFood` can produce, tied to the phase it leaves the
    * workflow in. */
  ghost predicate WellFormed(st: OrderState) {
    match st.phase
    case NotStarted => st.log == []
    case AwaitingEtaOrRejection(o) =>
      Supported(o) && st.log == [StartedRestaurantChild(o)]
    case AwaitingReadyOrTimer(o, _) =>
      Supported(o) && !o.pickup && st.log == [StartedRestaurantChild(o)]
    case AwaitingCourierDelivered(o) =>
      Supported(o) && !o.pickup && st.log == [StartedRestaurantChild(o), StartedCourierChild(JobFor(o))]
    case AwaitingRestaurantDelivered(o) =>
      Supported(o) && o.pickup && st.log == [StartedRestaurantChild(o)]
    case Failed =>
      || (&& |st.log| == 1 && st.log[0].WorkflowFailed? && st.log[0].reason.UnsupportedRestaurant?
          && st.log[0].reason.restaurant != MegaBurger)
      || (&& |st.log| == 2 && st.log[0].StartedRestaurantChild? && Supported(st.log[0].order)
          && st.log[1] == WorkflowFailed(OrderRejected))
    case Completed =>
      && |st.log| >= 2 && st.log[0].StartedRestaurantChild?
      && var o := st.log[0].order;
      && Supported(o)
      && (o.pickup ==> st.log == [StartedRestaurantChild(o), WorkflowCompleted])
      && (!o.pickup ==> st.log == [StartedRestaurantChild(o), StartedCourierChild(JobFor(o)), WorkflowCompleted])
  }

  /** How many courier children the log records. */
  function CourierStarts(log: seq<Effect>): nat
    decreases |log|
  {
    if log == [] then 0
    else (if log[0].StartedCourierChild? then 1 else 0) + CourierStarts(log[1..])
  }

  function RestaurantStarts(log: seq<Effect>): nat
    decreases |log|
  {
    if log == [] then 0
    else (if log[0].StartedRestaurantChild? then 1 else 0) + RestaurantStarts(log[1..])
  }

  predicate Terminal(st: OrderState) {
    st.phase.Failed? || st.phase.Completed?
  }

  // ---------------------------------------------------------------------
  // Invariant of every reachable state

  lemma StepPreservesWellFormed(st: OrderState, ev: Event)
    requires WellFormed(st)
    ensures WellFormed(Step(st, ev))
  {
  }

  /** The invariant holds after any sequence of events; the courier workflow
    * proves its own invariant the same way (`Delivery.RunPreservesWellFormed`). */
  lemma {:induction false} RunPreservesWellFormed(st: OrderState, evs: seq<Event>)
    requires WellFormed(st)
    ensures WellFormed(Run(st, evs))
    decreases |evs|
  {
    if evs != [] {
      StepPreservesWellFormed(st, evs[0]);
      RunPreservesWellFormed(Step(st, evs[0]), evs[1..]);
    }
  }

  /** The child counts of logs of one, two and three effects. */
  lemma ChildCounts1(a: Effect)
    ensures CourierStarts([a]) == (if a.StartedCourierChild? then 1 else 0)
    ensures RestaurantStarts([a]) == (if a.StartedRestaurantChild? then 1 else 0)
  {
    assert [a][1..] == [];
  }

  lemma ChildCounts2(a: Effect, b: Effect)
    ensures CourierStarts([a, b]) == CourierStarts([a]) + CourierStarts([b])
    ensures RestaurantStarts([a, b]) == RestaurantStarts([a]) + RestaurantStarts([b])
  {
    ChildCounts1(a);
    ChildCounts1(b);
    assert [a, b][1..] == [b];
  }

  lemma ChildCounts3(a: Effect, b: Effect, c: Effect)
    ensures CourierStarts([a, b, c]) == CourierStarts([a]) + CourierStarts([b]) + CourierStarts([c])
    ensures RestaurantStarts([a, b, c]) == RestaurantStarts([a]) + RestaurantStarts([b]) + RestaurantStarts([c])
  {
    ChildCounts1(a);
    ChildCounts2(b, c);
    assert [a, b, c][1..] == [b, c];
  }

  /** What the invariant says about children: at most one of each, none for
    * a pickup order, and a courier job that copies the order's restaurant,
    * address and telephone. */
  lemma WellFormedChildren(st: OrderState)
    requires WellFormed(st)
    ensures RestaurantStarts(st.log) <= 1 && CourierStarts(st.log) <= 1
    ensures CourierStarts(st.log) == 1 ==>
      && |st.log| >= 2 && st.log[0].StartedRestaurantChild? && !st.log[0].order.pickup
      && st.log[1] == StartedCourierChild(JobFor(st.log[0].order))
    ensures |st.log| > 0 && st.log[0].StartedRestaurantChild? && st.log[0].order.pickup ==>
      CourierStarts(st.log) == 0
    ensures st.phase.Completed? ==> |st.log| > 0 && st.log[0].StartedRestaurantChild?
    ensures st.phase.Completed? && !st.log[0].order.pickup ==> CourierStarts(st.log) == 1
    ensures RestaurantStarts(st.log) == 0 ==> CourierStarts(st.log) == 0
  {
    var log := st.log;
    if |log| == 1 {
      ChildCounts1(log[0]);
      assert log == [log[0]];
    } else if |log| == 2 {
      ChildCounts1(log[0]);
      ChildCounts1(log[1]);
      ChildCounts2(log[0], log[1]);
      assert log == [log[0], log[1]];
    } else if |log| == 3 {
      ChildCounts1(log[0]);
      ChildCounts1(log[1]);
      ChildCounts1(log[2]);
      ChildCounts3(log[0], log[1], log[2]);
      assert log == [log[0], log[1], log[2]];
    }
  }

  /** Over any history of events, a started order workflow has started at
    * most one courier, never one for a pickup order or an unsupported
    * restaurant, and exactly one once a delivery order has completed. */
  lemma ReachableChildren(evs: seq<Event>)
    ensures var st := Run(Init(), evs);
      && WellFormed(st)
      && RestaurantStarts(st.log) <= 1 && CourierStarts(st.log) <= 1
      && (|st.log| > 0 && st.log[0].StartedRestaurantChild? && st.log[0].order.pickup ==>
            CourierStarts(st.log) == 0)
      && (st.phase.Completed? ==> |st.log| > 0 && st.log[0].StartedRestaurantChild?)
      && (st.phase.Completed? && !st.log[0].order.pickup ==> CourierStarts(st.log) == 1)
      && (CourierStarts(st.log) == 1 ==>
            |st.log| >= 2 && st.log[1] == StartedCourierChild(JobFor(st.log[0].order)))
  {
    RunPreservesWellFormed(Init(), evs);
    WellFormedChildren(Run(Init(), evs));
  }

  // ---------------------------------------------------------------------
  // Signals and queries

  /** The status carried by the last status signal among `evs`, or `s`
    * when there is none. */
  function LastStatusSignal(evs: seq<Event>, s: OrderStatus): OrderStatus
    decreases |evs|
  {
    if evs == [] then s
    else if evs[|evs| - 1].StatusSignal? then evs[|evs| - 1].status
    else LastStatusSignal(evs[..|evs| - 1], s)
  }

  /** The minutes carried by the last ETA signal among `evs`, or `m` when
    * there is none. */
  function LastEtaSignal(evs: seq<Event>, m: int): int
    decreases |evs|
  {
    if evs == [] then m
    else if evs[|evs| - 1].EtaSignal? then evs[|evs| - 1].minutes
    else LastEtaSignal(evs[..|evs| - 1], m)
  }

  lemma {:induction false} RunSnoc(st: OrderState, evs: seq<Event>, ev: Event)
    ensures Run(st, evs + [ev]) == Step(Run(st, evs), ev)
    decreases |evs|
  {
    if evs != [] {
      assert (evs + [ev])[1..] == evs[1..] + [ev];
      RunSnoc(Step(st, evs[0]), evs[1..], ev);
    }
  }

  /** Only the signals change what the queries answer: after any history,
    * `getStatus` answers the last status signalled and `getEtaInMinutes`
    * the last ETA signalled, CREATED and `NoEta` if there was none. */
  lemma {:induction false} QueriesAnswerLastSignals(evs: seq<Event>)
    ensures Run(Init(), evs).status == LastStatusSignal(evs, Created)
    ensures Run(Init(), evs).eta == LastEtaSignal(evs, NoEta)
    decreases |evs|
  {
    if evs != [] {
      var front := evs[..|evs| - 1];
      QueriesAnswerLastSignals(front);
      assert evs == front + [evs[|evs| - 1]];
      RunSnoc(Init(), front, evs[|evs| - 1]);
    }
  }

  /** Repeating a signal is the same as sending it once, and a signal touches
    * nothing but its own field. */
  lemma SignalsIdempotent(st: OrderState, s: OrderStatus, m: int)
    ensures Step(Step(st, StatusSignal(s)), StatusSignal(s)) == Step(st, StatusSignal(s))
    ensures Step(Step(st, EtaSignal(m)), EtaSignal(m)) == Step(st, EtaSignal(m))
    ensures Step(st, StatusSignal(s)) == st.(status := s)
    ensures Step(st, EtaSignal(m)) == st.(eta := m)
  {
  }

  // ---------------------------------------------------------------------
  // The steps of orderFood

  /** Failing and completing are final, as they are for the courier workflow
    * (`Delivery.TerminalIsFinal`). */
  lemma {:induction false} TerminalIsFinal(st: OrderState, evs: seq<Event>)
    requires Terminal(st)
    ensures Run(st, evs).phase == st.phase && Run(st, evs).log == st.log
    decreases |evs|
  {
    if evs != [] {
      TerminalIsFinal(Step(st, evs[0]), evs[1..]);
    }
  }

  /** An unsupported restaurant fails the workflow before any child starts,
    * and nothing that happens afterwards starts one. */
  lemma UnsupportedRestaurantFails(o: FoodOrder, evs: seq<Event>)
    requires o.restaurant != MegaBurger
    ensures Run(Init(), [Start(o)] + evs).phase == Failed
    ensures Run(Init(), [Start(o)] + evs).log == [WorkflowFailed(UnsupportedRestaurant(o.restaurant))]
  {
    var st := Step(Init(), Start(o));
    assert ([Start(o)] + evs)[1..] == evs;
    TerminalIsFinal(st, evs);
  }

  /** The first await ends exactly when an ETA is set or the order is
    * rejected; rejection fails the workflow even if an ETA is also set. */
  lemma FirstAwait(st: OrderState)
    requires st.phase.AwaitingEtaOrRejection?
    ensures Step(st, Resume) != st <==> (st.eta != NoEta || st.status == Rejected)
    ensures st.status == Rejected ==>
      Step(st, Resume) == st.(phase := Failed, log := st.log + [WorkflowFailed(OrderRejected)])
    ensures st.eta != NoEta && st.status != Rejected && !st.phase.order.pickup ==>
      Step(st, Resume).phase == AwaitingReadyOrTimer(st.phase.order, st.eta)
    ensures st.eta != NoEta && st.status != Rejected && st.phase.order.pickup ==>
      Step(st, Resume).phase == AwaitingRestaurantDelivered(st.phase.order)
    ensures Step(st, Resume).log == st.log || st.status == Rejected
  {
  }

  /** A courier child is started by exactly the steps that end the
    * timer-bounded await: the timer firing, or a re-evaluation that finds
    * status READY. */
  lemma CourierStartTrigger(st: OrderState, ev: Event)
    requires WellFormed(st)
    ensures CourierStarts(Step(st, ev).log) > CourierStarts(st.log) <==>
      st.phase.AwaitingReadyOrTimer? && (ev == TimerFired || (ev == Resume && st.status == Ready))
  {
    WellFormedChildren(st);
    StepPreservesWellFormed(st, ev);
    WellFormedChildren(Step(st, ev));
    var st' := Step(st, ev);
    if st.phase.AwaitingReadyOrTimer? && (ev == TimerFired || (ev == Resume && st.status == Ready)) {
      assert st'.log == st.log + [StartedCourierChild(JobFor(st.phase.order))];
      assert st'.log[1..][1..] == [];
    }
  }

  /** The workflow completes only from the await matching its kind of order:
    * a pickup order on RESTAURANT_DELIVERED, a delivery order on
    * COURIER_DELIVERED. */
  lemma CompletionNeedsDeliveredStatus(st: OrderState, ev: Event)
    requires WellFormed(st)
    requires !st.phase.Completed? && Step(st, ev).phase.Completed?
    ensures ev == Resume
    ensures st.phase.AwaitingRestaurantDelivered? || st.phase.AwaitingCourierDelivered?
    ensures st.phase.order.pickup ==> st.status == RestaurantDelivered
    ensures !st.phase.order.pickup ==> st.status == CourierDelivered
  {
  }

  /** COURIER_REJECTED, like every status other than COURIER_DELIVERED, leaves
    * the last await of a delivery order blocked. */
  lemma CourierRejectedKeepsWaiting(st: OrderState, ev: Event)
    requires st.phase.AwaitingCourierDelivered? && st.status != CourierDelivered
    requires ev == Resume || ev == TimerFired || ev.Start?
    ensures Step(st, ev) == st
  {
  }

  // ---------------------------------------------------------------------
  // The workflow object

  /** OrderWorkflowImpl: the two fields its signals overwrite, the point where
    * `orderFood` is suspended, and the log of what it has done. Each method
    * is one signal, query or await, specified by the transition above. */
  class OrderWorkflow {
    var currentStatus: OrderStatus
    var etaInMinutes: int
    var phase: Phase
    var log: seq<Effect>

    function State(): OrderState
      reads this
    {
      OrderState(currentStatus, etaInMinutes, phase, log)
    }

    ghost predicate Valid()
      reads this
    {
      WellFormed(State())
    }

    constructor ()
      ensures Valid() && State() == Init()
      ensures GetStatus() == Created && GetEtaInMinutes() == NoEta
    {
      currentStatus := Created;
      etaInMinutes := NoEta;
      phase := NotStarted;
      log := [];
    }

    function GetStatus(): (s: OrderStatus)
      reads this
      ensures s == State().status
    {
      currentStatus
    }

    function GetEtaInMinutes(): (m: int)
      reads this
      ensures m == State().eta
    {
      etaInMinutes
    }

    /** The courier-dispatch timeout: for now simply the current ETA. */
    function GetTimeToSendCourier(): (t: int)
      reads this
      ensures t == GetEtaInMinutes()
    {
      etaInMinutes
    }

    method UpdateStatus(orderStatus: OrderStatus)
      requires Valid()
      modifies this`currentStatus
      ensures Valid() && State() == SignalStatus(old(State()), orderStatus)
    {
      currentStatus := orderStatus;
    }

    method UpdateEta(minutes: int)
      requires Valid()
      modifies this`etaInMinutes
      ensures Valid() && State() == SignalEta(old(State()), minutes)
    {
      etaInMinutes := minutes;
    }

    /** `orderFood` up to its first await. */
    method OrderFood(order: FoodOrder)
      requires Valid() && phase.NotStarted?
      modifies this`phase, this`log
      ensures Valid() && State() == StartOrder(old(State()), order)
      ensures currentStatus == old(currentStatus) && etaInMinutes == old(etaInMinutes)
    {
      if order.restaurant == MegaBurger {
        log := log + [StartedRestaurantChild(order)];
        phase := AwaitingEtaOrRejection(order);
      } else {
        log := log + [WorkflowFailed(UnsupportedRestaurant(order.restaurant))];
        phase := Failed;
      }
    }

    /** The await for an ETA or a rejection, and the branch that follows it. */
    method AwaitEtaOrRejection() returns (resumed: bool)
      requires Valid() && phase.AwaitingEtaOrRejection?
      modifies this`phase, this`log
      ensures resumed == EtaOrRejection(old(State()))
      ensures Valid() && State() == ResumeEtaOrRejection(old(State()))
    {
      resumed := etaInMinutes != NoEta || currentStatus == Rejected;
      if !resumed {
        return;
      }
      var order := phase.order;
      if currentStatus == Rejected {
        log := log + [WorkflowFailed(OrderRejected)];
        phase := Failed;
      } else if !order.pickup {
        phase := AwaitingReadyOrTimer(order, GetTimeToSendCourier());
      } else {
        phase := AwaitingRestaurantDelivered(order);
      }
    }

    /** The await for READY bounded by the courier timer, then the courier
      * child's start. `timerFired` says whether the timer has expired. */
    method AwaitReadyOrTimer(timerFired: bool) returns (resumed: bool)
      requires Valid() && phase.AwaitingReadyOrTimer?
      modifies this`phase, this`log
      ensures resumed == (timerFired || old(currentStatus) == Ready)
      ensures Valid() && State() == ResumeReadyOrTimer(old(State()), timerFired)
    {
      resumed := timerFired || currentStatus == Ready;
      if resumed {
        var order := phase.order;
        log := log + [StartedCourierChild(JobFor(order))];
        phase := AwaitingCourierDelivered(order);
      }
    }

    method AwaitCourierDelivered() returns (resumed: bool)
      requires Valid() && phase.AwaitingCourierDelivered?
      modifies this`phase, this`log
      ensures resumed == (old(currentStatus) == CourierDelivered)
      ensures Valid() && State() == ResumeCourierDelivered(old(State()))
    {
      resumed := currentStatus == CourierDelivered;
      if resumed {
        log := log + [WorkflowCompleted];
        phase := Completed;
      }
    }

    method AwaitRestaurantDelivered() returns (resumed: bool)
      requires Valid() && phase.AwaitingRestaurantDelivered?
      modifies this`phase, this`log
      ensures resumed == (old(currentStatus) == RestaurantDelivered)
      ensures Valid() && State() == ResumeRestaurantDelivered(old(State()))
    {
      resumed := currentStatus == RestaurantDelivered;
      if resumed {
        log := log + [WorkflowCompleted];
        phase := Completed;
      }
    }
  }
}
