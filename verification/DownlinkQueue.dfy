/** The bounded downlink queue between the event callback and the workers. */
module DownlinkQueue {
  import opened TransportMessages

  /** Besides the queue itself: what was admitted and taken, counted or discarded. */
  datatype State = State(
    capacity: nat, workers: nat,
    stopping: bool, queueStopping: bool,
    checked: seq<Message>,    // passed the check, waiting for the lock
    queue: seq<Message>,
    admitted: seq<Message>, taken: seq<Message>,
    dropped: seq<Message>,    // the program keeps only their number
    offered: seq<Message>,    // came to the queue before its stop flag
    late: seq<Message>,       // came to it afterwards
    arrived: seq<Message>,    // passed the check
    exited: nat)

  function Started(capacity: nat, workers: nat): State {
    State(capacity, workers, false, false, [], [], [], [], [], [], [], [], 0)
  }

  datatype Step =
    | Arrive(m: Message, maxPayload: nat, now: int)   // the check, without the queue's lock
    | Enqueue(i: nat)                                  // one checked message gets the lock
    | Take                                             // a worker pops
    | Exit                                             // a worker finds the queue empty and stopping
    | RefuseCalls                                      // stop, first flag
    | StopQueue                                        // stop, second flag

  predicate Valid(m: Message, maxPayload: nat, now: int) {
    m.kind == Event && ValidateInbound(m, maxPayload, now) == Accepted
  }

  function Perform(s: State, step: Step): State {
    match step
    case Arrive(m, maxPayload, now) =>
      if s.stopping || !Valid(m, maxPayload, now) then s
      else s.(checked := s.checked + [m], arrived := s.arrived + [m])
    case Enqueue(i) =>
      if i >= |s.checked| then s else
      Offer(s.(checked := s.checked[..i] + s.checked[i + 1..]), s.checked[i])
    case Take =>
      if s.queue == [] || s.exited >= s.workers then s
      else s.(taken := s.taken + [s.queue[0]], queue := s.queue[1..])
    case Exit =>
      if s.queue != [] || !s.queueStopping || s.exited >= s.workers then s else s.(exited := s.exited + 1)
    case RefuseCalls => s.(stopping := true)
    case StopQueue => if s.stopping then s.(queueStopping := true) else s
  }

  /** The locked section of the callback. */
  function Offer(s: State, m: Message): State {
    if s.queueStopping then s.(late := s.late + [m])
    else if |s.queue| >= s.capacity then s.(dropped := s.dropped + [m], offered := s.offered + [m])
    else s.(queue := s.queue + [m], admitted := s.admitted + [m], offered := s.offered + [m])
  }

  function Run(s: State, steps: seq<Step>): State
    decreases |steps|
  {
    if steps == [] then s else Run(Perform(s, steps[0]), steps[1..])
  }

  ghost predicate Inv(s: State) {
    && |s.queue| <= s.capacity
    && s.taken + s.queue == s.admitted
    && multiset(s.admitted) + multiset(s.dropped) == multiset(s.offered)
    && multiset(s.offered) + multiset(s.late) + multiset(s.checked) == multiset(s.arrived)
    && (s.late != [] ==> s.queueStopping)
    && (s.queueStopping ==> s.stopping)
    && s.exited <= s.workers
    && (s.exited > 0 ==> s.queueStopping && s.queue == [])
  }

  lemma TakenOut(ms: seq<Message>, i: nat)
    requires i < |ms|
    ensures multiset(ms) == multiset(ms[..i] + ms[i + 1..]) + multiset{ms[i]}
  {
    assert ms == ms[..i] + [ms[i]] + ms[i + 1..];
  }

  lemma Pushed(ms: seq<Message>, m: Message)
    ensures multiset(ms + [m]) == multiset(ms) + multiset{m}
  {
  }

  /** The conservation laws, on the multisets alone. */
  lemma OneMoved(
    admitted: multiset<Message>, dropped: multiset<Message>, offered: multiset<Message>, late: multiset<Message>,
    checked: multiset<Message>, arrived: multiset<Message>, m: Message)
    requires admitted + dropped == offered && offered + late + (checked + multiset{m}) == arrived
    ensures offered + (late + multiset{m}) + checked == arrived
    ensures (offered + multiset{m}) + late + checked == arrived
    ensures admitted + (dropped + multiset{m}) == offered + multiset{m}
    ensures (admitted + multiset{m}) + dropped == offered + multiset{m}
  {
  }

  lemma OfferKeepsInv(s: State, m: Message, before: State)
    requires Inv(before) && s == before.(checked := s.checked)
    requires multiset(before.checked) == multiset(s.checked) + multiset{m}
    ensures Inv(Offer(s, m))
  {
    OneMoved(multiset(s.admitted), multiset(s.dropped), multiset(s.offered), multiset(s.late), multiset(s.checked),
             multiset(s.arrived), m);
    if s.queueStopping {
      Pushed(s.late, m);
    } else if |s.queue| >= s.capacity {
      Pushed(s.dropped, m);
      Pushed(s.offered, m);
    } else {
      Pushed(s.admitted, m);
      Pushed(s.offered, m);
      assert s.taken + (s.queue + [m]) == s.taken + s.queue + [m];
    }
  }

  lemma ArriveKeepsInv(s: State, m: Message)
    requires Inv(s)
    ensures Inv(s.(checked := s.checked + [m], arrived := s.arrived + [m]))
  {
    Pushed(s.checked, m);
    Pushed(s.arrived, m);
  }

  lemma TakeKeepsInv(s: State)
    requires Inv(s) && s.queue != [] && s.exited < s.workers
    ensures Inv(s.(taken := s.taken + [s.queue[0]], queue := s.queue[1..]))
  {
    assert s.taken + [s.queue[0]] + s.queue[1..] == s.taken + s.queue;
  }

  lemma EnqueueKeepsInv(s: State, i: nat)
    requires Inv(s) && i < |s.checked|
    ensures Inv(Offer(s.(checked := s.checked[..i] + s.checked[i + 1..]), s.checked[i]))
  {
    TakenOut(s.checked, i);
    OfferKeepsInv(s.(checked := s.checked[..i] + s.checked[i + 1..]), s.checked[i], s);
  }

  lemma FlagsKeepInv(s: State, step: Step)
    requires Inv(s) && (step.Exit? || step.RefuseCalls? || step.StopQueue?)
    ensures Inv(Perform(s, step))
  {
  }

  lemma StepKeepsInv(s: State, step: Step)
    requires Inv(s)
    ensures Inv(Perform(s, step))
  {
    match step
    case Arrive(m, maxPayload, now) => ArriveKeepsInv(s, m);
    case Enqueue(i) =>
      if i < |s.checked| {
        EnqueueKeepsInv(s, i);
      }
    case Take =>
      if s.queue != [] && s.exited < s.workers {
        TakeKeepsInv(s);
      }
    case _ => FlagsKeepInv(s, step);
  }

  lemma StepKeepsSizes(s: State, step: Step)
    ensures Perform(s, step).capacity == s.capacity && Perform(s, step).workers == s.workers
  {
  }

  lemma {:induction false} RunKeepsInv(s: State, steps: seq<Step>)
    requires Inv(s)
    ensures Inv(Run(s, steps))
    ensures Run(s, steps).capacity == s.capacity && Run(s, steps).workers == s.workers
    decreases |steps|
  {
    if steps != [] {
      StepKeepsInv(s, steps[0]);
      StepKeepsSizes(s, steps[0]);
      RunKeepsInv(Perform(s, steps[0]), steps[1..]);
    }
  }

  /** Under any interleaving: the bound holds, messages leave in the order they were admitted,
      and the valid events that came to the queue before its stop flag are exactly those
      admitted and those dropped. */
  lemma QueueIsFaithful(capacity: nat, workers: nat, steps: seq<Step>)
    ensures var s := Run(Started(capacity, workers), steps);
            && |s.queue| <= capacity
            && s.taken + s.queue == s.admitted
            && multiset(s.admitted) + multiset(s.dropped) == multiset(s.offered)
            && multiset(s.offered) + multiset(s.late) + multiset(s.checked) == multiset(s.arrived)
            && (!s.queueStopping ==> s.late == [])
  {
    RunKeepsInv(Started(capacity, workers), steps);
  }

  /** Whenever all workers, at least one, have exited, the queue is empty: everything admitted
      has been taken. */
  lemma StopDrains(capacity: nat, workers: nat, steps: seq<Step>)
    requires workers >= 1 && Run(Started(capacity, workers), steps).exited == workers
    ensures var s := Run(Started(capacity, workers), steps); s.queue == [] && s.taken == s.admitted
  {
    RunKeepsInv(Started(capacity, workers), steps);
  }

  lemma {:induction false} NoWorkerNoTake(s: State, steps: seq<Step>)
    requires s.workers == 0
    ensures Run(s, steps).taken == s.taken && s.queue <= Run(s, steps).queue
    decreases |steps|
  {
    if steps != [] {
      NoWorkerNoTake(Perform(s, steps[0]), steps[1..]);
    }
  }

  /** With no worker at all, which the number of workers allows, nothing is ever taken. */
  lemma WithoutWorkersNothingDrains(capacity: nat, steps: seq<Step>)
    ensures Run(Started(capacity, 0), steps).taken == []
    ensures Run(Started(capacity, 0), steps).queue == Run(Started(capacity, 0), steps).admitted
  {
    NoWorkerNoTake(Started(capacity, 0), steps);
    RunKeepsInv(Started(capacity, 0), steps);
  }
}
