/** The courier child workflow (CourierDeliveryWorkflowImpl). It waits on its
  * own signal-driven courier status and tells the parent order workflow how
  * the delivery goes. The courier's statuses share names with the order's,
  * so the order side is written qualified. */
module Delivery {
  import Domain

  /** A courier's view of the job. */
  datatype CourierDeliveryStatus = Created | Accepted | Rejected | PickedUp | Delivered

  /** Where `deliverOrder` stands. */
  datatype Phase =
    | NotStarted
    | AwaitingAssignment   // until the status leaves CREATED
    | AwaitingPickedUp
    | AwaitingDelivered
    | Failed
    | Completed

  datatype CourierState = CourierState(status: CourierDeliveryStatus, phase: Phase, log: seq<Domain.Effect>)

  datatype Event =
    | Start(job: Domain.CourierDeliveryJob)   // the parent starts deliverOrder
    | StatusSignal(status: CourierDeliveryStatus)
    | Resume                                  // the runtime re-evaluates the pending await

  function Init(): CourierState {
    CourierState(Created, NotStarted, [])
  }

  function SignalStatus(st: CourierState, s: CourierDeliveryStatus): CourierState {
    st.(status := s)
  }

  /** `deliverOrder` up to its first await; the job itself is not consulted. */
  function StartDelivery(st: CourierState, job: Domain.CourierDeliveryJob): CourierState
    requires st.phase.NotStarted?
  {
    st.(phase := AwaitingAssignment)
  }

  /** The first await and the accept/reject branch after it. */
  function ResumeAssignment(st: CourierState): CourierState
    requires st.phase.AwaitingAssignment?
  {
    if st.status == Created then st
    else if st.status == Rejected then
      st.(phase := Failed,
          log := st.log + [Domain.SentStatus(Domain.CourierRejected), Domain.WorkflowFailed(Domain.CourierRejectedJob)])
    else st.(phase := AwaitingPickedUp, log := st.log + [Domain.SentStatus(Domain.CourierAccepted)])
  }

  function ResumePickedUp(st: CourierState): CourierState
    requires st.phase.AwaitingPickedUp?
  {
    if st.status != PickedUp then st
    else st.(phase := AwaitingDelivered, log := st.log + [Domain.SentStatus(Domain.PickedUp)])
  }

  function ResumeDelivered(st: CourierState): CourierState
    requires st.phase.AwaitingDelivered?
  {
    if st.status != Delivered then st
    else st.(phase := Completed,
             log := st.log + [Domain.SentStatus(Domain.CourierDelivered), Domain.WorkflowCompleted])
  }

  function Step(st: CourierState, ev: Event): CourierState {
    match ev
    case Start(job) => if st.phase.NotStarted? then StartDelivery(st, job) else st
    case StatusSignal(s) => SignalStatus(st, s)
    case Resume =>
      (match st.phase
       case AwaitingAssignment => ResumeAssignment(st)
       case AwaitingPickedUp => ResumePickedUp(st)
       case AwaitingDelivered => ResumeDelivered(st)
       case _ => st)
  }

  function Run(st: CourierState, evs: seq<Event>): CourierState
    decreases |evs|
  {
    if evs == [] then st else Run(Step(st, evs[0]), evs[1..])
  }

  const Accept: Domain.Effect := Domain.SentStatus(Domain.CourierAccepted)
  const PickUp: Domain.Effect := Domain.SentStatus(Domain.PickedUp)
  const Deliver: Domain.Effect := Domain.SentStatus(Domain.CourierDelivered)

  /** Every log `deliverOrder` can produce, tied to its phase. */
  ghost predicate WellFormed(st: CourierState) {
    match st.phase
    case NotStarted => st.log == []
    case AwaitingAssignment => st.log == []
    case AwaitingPickedUp => st.log == [Accept]
    case AwaitingDelivered => st.log == [Accept, PickUp]
    case Failed =>
      st.log == [Domain.SentStatus(Domain.CourierRejected), Domain.WorkflowFailed(Domain.CourierRejectedJob)]
    case Completed => st.log == [Accept, PickUp, Deliver, Domain.WorkflowCompleted]
  }

  predicate Terminal(st: CourierState) {
    st.phase.Failed? || st.phase.Completed?
  }

  lemma StepPreservesWellFormed(st: CourierState, ev: Event)
    requires WellFormed(st)
    ensures WellFormed(Step(st, ev))
  {
  }

  /** The invariant holds after any sequence of events; the order workflow
    * proves its own invariant the same way (`Dispatcher.RunPreservesWellFormed`). */
  lemma {:induction false} RunPreservesWellFormed(st: CourierState, evs: seq<Event>)
    requires WellFormed(st)
    ensures WellFormed(Run(st, evs))
    decreases |evs|
  {
    if evs != [] {
      StepPreservesWellFormed(st, evs[0]);
      RunPreservesWellFormed(Step(st, evs[0]), evs[1..]);
    }
  }

  /** Whatever the courier signals, in any order, the parent is told either
    * COURIER_REJECTED and the workflow fails, or a prefix of COURIER_ACCEPTED,
    * PICKED_UP, COURIER_DELIVERED, the whole of it exactly when the workflow
    * has completed. */
  lemma ReachableLogs(evs: seq<Event>)
    ensures var st := Run(Init(), evs);
      || (st.phase.Failed? &&
          st.log == [Domain.SentStatus(Domain.CourierRejected), Domain.WorkflowFailed(Domain.CourierRejectedJob)])
      || (!st.phase.Failed? && st.log <= [Accept, PickUp, Deliver, Domain.WorkflowCompleted]
          && (st.phase.Completed? <==> |st.log| == 4))
  {
    RunPreservesWellFormed(Init(), evs);
  }

  /** Failing and completing are final, as they are for the order workflow
    * (`Dispatcher.TerminalIsFinal`). */
  lemma {:induction false} TerminalIsFinal(st: CourierState, evs: seq<Event>)
    requires Terminal(st)
    ensures Run(st, evs).phase == st.phase && Run(st, evs).log == st.log
    decreases |evs|
  {
    if evs != [] {
      TerminalIsFinal(Step(st, evs[0]), evs[1..]);
    }
  }

  /** A fresh courier workflow is CREATED, and a status signal overwrites the
    * status whatever it was, so a repeated signal changes nothing. */
  lemma SignalOverwrites(st: CourierState, s: CourierDeliveryStatus)
    ensures Init().status == Created
    ensures Step(st, StatusSignal(s)) == st.(status := s)
    ensures Step(Step(st, StatusSignal(s)), StatusSignal(s)) == Step(st, StatusSignal(s))
  {
  }

  /** The first await ends as soon as the status is anything but CREATED. A
    * rejection reports COURIER_REJECTED and fails with nothing else sent; any
    * other status, PICKED_UP and DELIVERED included, reports COURIER_ACCEPTED. */
  lemma AssignmentAwait(st: CourierState)
    requires st.phase.AwaitingAssignment?
    ensures Step(st, Resume) == st <==> st.status == Created
    ensures st.status == Rejected ==>
      && Step(st, Resume).phase == Failed
      && Step(st, Resume).log ==
         st.log + [Domain.SentStatus(Domain.CourierRejected), Domain.WorkflowFailed(Domain.CourierRejectedJob)]
    ensures st.status != Created && st.status != Rejected ==>
      Step(st, Resume) == st.(phase := AwaitingPickedUp, log := st.log + [Accept])
  {
  }

  /** PICKED_UP is reported only on a step that observes the local status
    * PICKED_UP, and COURIER_DELIVERED only on one that observes DELIVERED. */
  lemma ReportsFollowObservedStatus(st: CourierState, ev: Event)
    requires WellFormed(st)
    ensures var st' := Step(st, ev);
      && (PickUp !in st.log && PickUp in st'.log ==>
            ev == Resume && st.phase == AwaitingPickedUp && st.status == PickedUp)
      && (Deliver !in st.log && Deliver in st'.log ==>
            ev == Resume && st.phase == AwaitingDelivered && st.status == Delivered)
  {
  }

  /** A courier that signals DELIVERED without PICKED_UP is reported accepted,
    * and then the workflow waits for PICKED_UP however often it re-evaluates. */
  lemma {:induction false} DeliveredFirstWaitsForPickUp(st: CourierState, n: nat)
    requires st.phase.AwaitingAssignment? && st.status == Delivered
    ensures Run(st, seq(n + 1, _ => Resume)) == st.(phase := AwaitingPickedUp, log := st.log + [Accept])
    decreases n
  {
    var evs := seq(n + 1, _ => Resume);
    var st1 := Step(st, Resume);
    if n == 0 {
      assert evs[1..] == [];
    } else {
      assert evs[1..] == seq(n, _ => Resume);
      StuckAwaitingPickedUp(st1, n);
    }
  }

  lemma {:induction false} StuckAwaitingPickedUp(st: CourierState, n: nat)
    requires st.phase.AwaitingPickedUp? && st.status != PickedUp
    ensures Run(st, seq(n, _ => Resume)) == st
    decreases n
  {
    if n > 0 {
      assert seq(n, _ => Resume)[1..] == seq(n - 1, _ => Resume);
      StuckAwaitingPickedUp(Step(st, Resume), n - 1);
    }
  }

  // ---------------------------------------------------------------------
  // The workflow object

  /** CourierDeliveryWorkflowImpl: the status its signal overwrites, the
    * point where `deliverOrder` is suspended, and what it has sent. */
  class CourierDeliveryWorkflow {
    var currentStatus: CourierDeliveryStatus
    var phase: Phase
    var log: seq<Domain.Effect>

    function State(): CourierState
      reads this
    {
      CourierState(currentStatus, phase, log)
    }

    ghost predicate Valid()
      reads this
    {
      WellFormed(State())
    }

    constructor ()
      ensures Valid() && State() == Init()
    {
      currentStatus := Created;
      phase := NotStarted;
      log := [];
    }

    method UpdateStatus(status: CourierDeliveryStatus)
      requires Valid()
      modifies this`currentStatus
      ensures Valid() && State() == SignalStatus(old(State()), status)
    {
      currentStatus := status;
    }

    /** `deliverOrder` up to its first await. */
    method DeliverOrder(job: Domain.CourierDeliveryJob)
      requires Valid() && phase.NotStarted?
      modifies this`phase
      ensures Valid() && State() == StartDelivery(old(State()), job)
    {
      phase := AwaitingAssignment;
    }

    method AwaitAssignment() returns (resumed: bool)
      requires Valid() && phase.AwaitingAssignment?
      modifies this`phase, this`log
      ensures resumed == (old(currentStatus) != Created)
      ensures Valid() && State() == ResumeAssignment(old(State()))
    {
      resumed := currentStatus != Created;
      if !resumed {
        return;
      }
      if currentStatus == Rejected {
        log := log + [Domain.SentStatus(Domain.CourierRejected)];
        log := log + [Domain.WorkflowFailed(Domain.CourierRejectedJob)];
        phase := Failed;
      } else {
        log := log + [Domain.SentStatus(Domain.CourierAccepted)];
        phase := AwaitingPickedUp;
      }
    }

    method AwaitPickedUp() returns (resumed: bool)
      requires Valid() && phase.AwaitingPickedUp?
      modifies this`phase, this`log
      ensures resumed == (old(currentStatus) == PickedUp)
      ensures Valid() && State() == ResumePickedUp(old(State()))
    {
      resumed := currentStatus == PickedUp;
      if resumed {
        log := log + [Domain.SentStatus(Domain.PickedUp)];
        phase := AwaitingDelivered;
      }
    }

    method AwaitDelivered() returns (resumed: bool)
      requires Valid() && phase.AwaitingDelivered?
      modifies this`phase, this`log
      ensures resumed == (old(currentStatus) == Delivered)
      ensures Valid() && State() == ResumeDelivered(old(State()))
    {
      resumed := currentStatus == Delivered;
      if resumed {
        log := log + [Domain.SentStatus(Domain.CourierDelivered)];
        log := log + [Domain.WorkflowCompleted];
        phase := Completed;
      }
    }
  }
}
