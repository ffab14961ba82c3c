// Dispatch, the courier actors and the network between them, as steps. A task has a program counter
// because it can be overtaken at every await; a message once sent can arrive any number of times or never.
module DispatchProtocol {
  import opened Wrappers
  import opened Dispatch

  type Couriers = c: seq<string> | |c| > 0 witness [""]

  datatype Status = Assigned | Reassigned | Accepted | PickedUp | Delivered | Failed

  datatype Entry = Entry(status: Status, courierId: string)

  /** What a running task does next. */
  datatype Task =
    | Publish(deliveryId: string, status: Status, index: nat)
    | MakeOffer(deliveryId: string, index: nat)
    | Send(deliveryId: string, index: nat, attempt: nat)
    | Closing(deliveryId: string)

  datatype OfferMsg = OfferMsg(courierId: string, deliveryId: string, attempt: nat)

  datatype State = State(
    admitted: set<string>,               // deliveries whose one assignment has arrived
    pending: seq<string>,
    decisions: seq<Decision>,            // results received and not yet looked at
    offers: Offers,
    tasks: map<nat, Task>,
    nextTask: nat,
    sent: set<OfferMsg>,                 // offers ever sent
    answers: set<Decision>,              // results ever sent
    offered: map<(string, string), nat>, // per courier and delivery, the attempt the actor keeps
    accepts: set<OfferMsg>,              // acceptances actors ever made, with the attempt they kept
    log: map<string, seq<Entry>>,        // statuses published, per delivery
    now: int)

  /** A call to another service: it works, it works and the reply is lost, or it does not work. */
  datatype Outcome = Done | Unanswered | Refused

  datatype Label =
    | Assign(deliveryId: string)
    | Begin(k: nat)
    | Decide(k: nat)
    | Expire(deliveryId: string)
    | Run(task: nat, outcome: Outcome)
    | DeliverOffer(offer: OfferMsg)
    | Choose(courierId: string, deliveryId: string, claimedId: string, accepted: bool)
    | DeliverAnswer(answer: Decision)
    | Tick(ms: nat)

  function CourierAt(c: Couriers, index: nat): string {
    if index < |c| then c[index] else c[|c| - 1]
  }

  function LogOf(s: State, deliveryId: string): seq<Entry> {
    if deliveryId in s.log then s.log[deliveryId] else []
  }

  function Without<T>(q: seq<T>, k: nat): (r: seq<T>)
    requires k < |q|
    ensures |r| == |q| - 1
    ensures forall x | x in r :: x in q
  {
    q[..k] + q[k + 1..]
  }

  function Spawn(s: State, task: Task): State {
    s.(tasks := s.tasks[s.nextTask := task], nextTask := s.nextTask + 1)
  }

  /** The next candidate, or failure after the last one. */
  function Reassign(c: Couriers, offer: Offer): Task {
    if offer.candidateIndex + 1 >= |c| then Publish(offer.deliveryId, Failed, |c| - 1)
    else Publish(offer.deliveryId, Reassigned, offer.candidateIndex + 1)
  }

  function AfterPublish(deliveryId: string, status: Status, index: nat): Task {
    match status
    case Assigned => MakeOffer(deliveryId, index)
    case Reassigned => MakeOffer(deliveryId, index)
    case Accepted => Publish(deliveryId, if index == 0 then PickedUp else Delivered, index)
    case PickedUp => Publish(deliveryId, Delivered, index)
    case Delivered => Closing(deliveryId)
    case Failed => Closing(deliveryId)
  }

  function Ended(s: State, t: nat): State {
    s.(tasks := s.tasks - {t})
  }

  /** One await of a task; a failed one ends the task, whose error is swallowed. */
  function RunTask(c: Couriers, s: State, t: nat, outcome: Outcome): Option<State>
    requires t in s.tasks
  {
    match s.tasks[t]
    case Publish(d, status, index) =>
      if outcome.Refused? then Some(Ended(s, t)) else
      var told := s.(log := s.log[d := LogOf(s, d) + [Entry(status, CourierAt(c, index))]]);
      Some(if outcome.Unanswered? then Ended(told, t)
           else told.(tasks := s.tasks[t := AfterPublish(d, status, index)]))
    case MakeOffer(d, index) =>
      if !outcome.Done? then None else
      var attempt := LastAttempt(s.offers, d) + 1;
      Some(s.(offers := Record(s.offers, d, index, s.now + DECISION_TIMEOUT_MS),
              tasks := s.tasks[t := Send(d, index, attempt)]))
    case Send(d, index, attempt) =>
      if outcome.Refused? then Some(Ended(s, t))
      else Some(Ended(s, t).(sent := s.sent + {OfferMsg(CourierAt(c, index), d, attempt)}))
    case Closing(d) =>
      if outcome.Done? then Some(Ended(s, t).(offers := s.offers - {d})) else None
  }

  /** The step a label takes; None when it is not enabled. */
  function Next(c: Couriers, s: State, step: Label): Option<State> {
    match step
    case Assign(d) =>
      if d in s.admitted then None else Some(s.(admitted := s.admitted + {d}, pending := s.pending + [d]))
    case Begin(k) =>
      if k >= |s.pending| then None
      else Some(Spawn(s.(pending := Without(s.pending, k)), Publish(s.pending[k], Assigned, 0)))
    case Decide(k) =>
      if k >= |s.decisions| then None else
      var decision := s.decisions[k];
      var rest := s.(decisions := Without(s.decisions, k));
      var offer := Answered(s.offers, decision.deliveryId, decision.attempt);
      if offer.None? then Some(rest) else
      Some(Spawn(rest.(offers := Settled(s.offers, decision.deliveryId)),
                 if decision.accepted then Publish(decision.deliveryId, Accepted, offer.value.candidateIndex)
                 else Reassign(c, offer.value)))
    case Expire(d) =>
      if d !in s.offers || !Overdue(s.offers[d], s.now) then None
      else Some(Spawn(s.(offers := Settled(s.offers, d)), Reassign(c, s.offers[d])))
    case Run(t, outcome) =>
      if t in s.tasks then RunTask(c, s, t, outcome) else None
    case DeliverOffer(m) =>
      if m in s.sent then Some(s.(offered := s.offered[(m.courierId, m.deliveryId) := m.attempt])) else None
    case Choose(courier, d, claimed, accepted) =>
      if (courier, d) !in s.offered then None else
      var attempt := s.offered[(courier, d)];
      Some(s.(offered := s.offered - {(courier, d)},
              answers := s.answers + {Decision(d, claimed, attempt, accepted)},
              accepts := if accepted then s.accepts + {OfferMsg(courier, d, attempt)} else s.accepts))
    case DeliverAnswer(a) =>
      if a in s.answers then Some(s.(decisions := s.decisions + [a])) else None
    case Tick(ms) => Some(s.(now := s.now + ms))
  }

  function Initial(): State {
    State({}, [], [], map[], map[], 0, {}, {}, map[], {}, map[], 0)
  }

  function Execute(c: Couriers, steps: seq<Label>): Option<State> {
    if steps == [] then Some(Initial())
    else
      var before := Execute(c, steps[..|steps| - 1]);
      if before == None then None else Next(c, before.value, steps[|steps| - 1])
  }

  // ---- What may be published about a delivery -----------------------------------------------------

  /** Assigned to the first courier, then reassigned up to candidate k. */
  function Offered(c: Couriers, k: nat): (log: seq<Entry>)
    ensures |log| == k + 1
  {
    if k == 0 then [Entry(Assigned, CourierAt(c, 0))] else Offered(c, k - 1) + [Entry(Reassigned, CourierAt(c, k))]
  }

  /** Candidate k accepts; only the first candidate's pick-up is reported. */
  function Success(c: Couriers, k: nat): seq<Entry> {
    Offered(c, k) + [Entry(Accepted, CourierAt(c, k))]
    + (if k == 0 then [Entry(PickedUp, CourierAt(c, k))] else [])
    + [Entry(Delivered, CourierAt(c, k))]
  }

  function Failure(c: Couriers): seq<Entry> {
    Offered(c, |c| - 1) + [Entry(Failed, CourierAt(c, |c| - 1))]
  }

  ghost predicate LegalLog(c: Couriers, log: seq<Entry>) {
    (exists k: nat | k < |c| :: log <= Success(c, k)) || log <= Failure(c)
  }

  /** Every published acceptance stands at the place of an attempt its courier accepted. */
  ghost predicate Justified(c: Couriers, s: State, d: string) {
    var log := LogOf(s, d);
    forall j | 0 <= j < |log| && log[j].status == Accepted ::
      1 <= j <= |c| && log[j].courierId == c[j - 1] && OfferMsg(c[j - 1], d, j) in s.accepts
  }
}
