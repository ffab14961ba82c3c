// In every run each delivery has at most one of: a waiting assignment, a running continuation, an open
// offer. From that its published statuses, its attempts and who accepted them follow.
module DispatchProofs {
  import opened Wrappers
  import opened Dispatch
  import opened DispatchProtocol

  /** What can make a delivery go on. A task that only sends its offer cannot. */
  datatype Holder = Waiting | Running(task: nat) | Open

  ghost predicate Holds(s: State, d: string, h: Holder) {
    match h
    case Waiting => d in s.pending
    case Running(t) => t in s.tasks && !s.tasks[t].Send? && s.tasks[t].deliveryId == d
    case Open => d in s.offers && !s.offers[d].settled
  }

  /** The log a publish finds. */
  ghost predicate PublishReady(c: Couriers, s: State, d: string, status: Status, i: nat) {
    var log := LogOf(s, d);
    && i < |c|
    && match status
       case Assigned => i == 0 && log == [] && d !in s.offers
       case Reassigned => i > 0 && log == Offered(c, i - 1) && d in s.offers && s.offers[d].candidateIndex == i - 1
       case Accepted => log == Offered(c, i) && OfferMsg(c[i], d, i + 1) in s.accepts
       case PickedUp => i == 0 && log == Offered(c, i) + [Entry(Accepted, c[i])]
       case Delivered =>
         log == Offered(c, i) + [Entry(Accepted, c[i])] + (if i == 0 then [Entry(PickedUp, c[i])] else [])
       case Failed => i == |c| - 1 && log == Offered(c, i)
  }

  ghost predicate TaskReady(c: Couriers, s: State, task: Task) {
    match task
    case Publish(d, status, i) => PublishReady(c, s, d, status, i)
    case MakeOffer(d, i) =>
      i < |c| && LogOf(s, d) == Offered(c, i)
      && if i == 0 then d !in s.offers else d in s.offers && s.offers[d].candidateIndex == i - 1
    case Send(_, _, _) => true
    case Closing(_) => true
  }

  ghost predicate Ready(c: Couriers, s: State, d: string, h: Holder)
    requires Holds(s, d, h)
  {
    match h
    case Waiting => LogOf(s, d) == [] && d !in s.offers
    case Running(t) => TaskReady(c, s, s.tasks[t])
    case Open => LogOf(s, d) == Offered(c, s.offers[d].candidateIndex)
  }

  ghost predicate OfferOk(c: Couriers, s: State, d: string) {
    d in s.offers ==>
      s.offers[d].deliveryId == d && s.offers[d].candidateIndex < |c|
      && s.offers[d].attempt == s.offers[d].candidateIndex + 1
  }

  ghost predicate OneHolder(s: State, d: string) {
    forall h, g | Holds(s, d, h) && Holds(s, d, g) :: h == g
  }

  ghost predicate DeliveryOk(c: Couriers, s: State, d: string) {
    && OneHolder(s, d)
    && (forall h | Holds(s, d, h) :: Ready(c, s, d, h))
    && OfferOk(c, s, d)
    && LegalLog(c, LogOf(s, d))
    && Justified(c, s, d)
    && (d !in s.admitted ==> (forall h :: !Holds(s, d, h)) && LogOf(s, d) == [] && d !in s.offers)
  }

  ghost predicate MsgOk(c: Couriers, m: OfferMsg) {
    1 <= m.attempt <= |c| && m.courierId == c[m.attempt - 1]
  }

  ghost predicate AnswerOk(c: Couriers, accepts: set<OfferMsg>, a: Decision) {
    a.accepted ==> 1 <= a.attempt <= |c| && OfferMsg(c[a.attempt - 1], a.deliveryId, a.attempt) in accepts
  }

  ghost predicate NetworkOk(c: Couriers, s: State) {
    && (forall t | t in s.tasks && s.tasks[t].Send? :: s.tasks[t].index < |c|
         && s.tasks[t].attempt == s.tasks[t].index + 1)
    && (forall m | m in s.sent :: MsgOk(c, m))
    && (forall k | k in s.offered :: MsgOk(c, OfferMsg(k.0, k.1, s.offered[k])))
    && (forall a | a in s.answers :: AnswerOk(c, s.accepts, a))
    && (forall a | a in s.decisions :: AnswerOk(c, s.accepts, a))
  }

  ghost predicate QueueOk(s: State) {
    && (forall i, j | 0 <= i < j < |s.pending| :: s.pending[i] != s.pending[j])
    && (forall t | t in s.tasks :: t < s.nextTask)
  }

  ghost predicate Inv(c: Couriers, s: State) {
    QueueOk(s) && NetworkOk(c, s) && forall d :: DeliveryOk(c, s, d)
  }

  // ---- One delivery across a step -------------------------------------------------------------------

  /** Nothing of d changed, except that a holder may have gone. */
  lemma Untouched(c: Couriers, s: State, t: State, d: string)
    requires DeliveryOk(c, s, d)
    requires forall h | Holds(t, d, h) :: Holds(s, d, h) && (h.Running? ==> t.tasks[h.task] == s.tasks[h.task])
    requires LogOf(t, d) == LogOf(s, d) && s.accepts <= t.accepts && (d in t.admitted <==> d in s.admitted)
    requires (d in t.offers <==> d in s.offers) && (d in t.offers ==> t.offers[d] == s.offers[d])
    ensures DeliveryOk(c, t, d)
  {
    hide LegalLog, Offered;
    forall h | Holds(t, d, h) ensures Ready(c, t, d, h) {
      assert Holds(s, d, h) && Ready(c, s, d, h);
    }
  }

  /** d is now held by h alone. */
  lemma Handed(c: Couriers, t: State, d: string, h: Holder)
    requires forall g | Holds(t, d, g) :: g == h
    requires Holds(t, d, h) ==> Ready(c, t, d, h)
    requires OfferOk(c, t, d) && LegalLog(c, LogOf(t, d)) && Justified(c, t, d) && d in t.admitted
    ensures DeliveryOk(c, t, d)
  {
  }

  // ---- Logs ---------------------------------------------------------------------------------------------

  lemma OfferedIsLegal(c: Couriers, k: nat)
    requires k < |c|
    ensures LegalLog(c, Offered(c, k))
  {
    hide Offered;
    assert Offered(c, k) <= Success(c, k);
  }

  /** A publish extends a legal log to a legal log. */
  lemma PublishIsLegal(c: Couriers, s: State, d: string, status: Status, i: nat)
    requires PublishReady(c, s, d, status, i)
    ensures LegalLog(c, LogOf(s, d) + [Entry(status, CourierAt(c, i))])
  {
    var log := LogOf(s, d) + [Entry(status, c[i])];
    match status
    case Assigned =>
      assert log == Offered(c, 0);
      OfferedIsLegal(c, 0);
    case Reassigned =>
      assert log == Offered(c, i);
      OfferedIsLegal(c, i);
    case Accepted =>
      assert log <= Success(c, i);
    case PickedUp =>
      assert log <= Success(c, i);
    case Delivered =>
      assert log == Success(c, i);
    case Failed =>
      assert log == Failure(c);
  }

  /** What the next part of the task finds. */
  lemma PublishLeadsOn(c: Couriers, s: State, t: State, d: string, status: Status, i: nat)
    requires PublishReady(c, s, d, status, i)
    requires LogOf(t, d) == LogOf(s, d) + [Entry(status, CourierAt(c, i))]
    requires t.offers == s.offers && t.accepts == s.accepts
    ensures TaskReady(c, t, AfterPublish(d, status, i))
  {
    match status
    case Assigned => assert LogOf(t, d) == Offered(c, 0);
    case _ =>
  }

  lemma PublishIsJustified(c: Couriers, s: State, t: State, d: string, status: Status, i: nat)
    requires PublishReady(c, s, d, status, i) && Justified(c, s, d)
    requires LogOf(t, d) == LogOf(s, d) + [Entry(status, CourierAt(c, i))] && t.accepts == s.accepts
    ensures Justified(c, t, d)
  {
    hide Offered;
    assert status == Accepted ==> |LogOf(s, d)| == i + 1;
    assert forall j | 0 <= j < |LogOf(s, d)| :: LogOf(t, d)[j] == LogOf(s, d)[j];
  }

  // ---- Steps of tasks --------------------------------------------------------------------------------------

  /** No delivery but d gains a holder or loses anything. */
  ghost predicate Only(s: State, t: State, d: string) {
    && s.accepts <= t.accepts
    && forall e | e != d :: SameFor(s, t, e)
  }

  ghost predicate SameFor(s: State, t: State, e: string) {
    && (forall h | Holds(t, e, h) :: Holds(s, e, h) && (h.Running? ==> t.tasks[h.task] == s.tasks[h.task]))
    && LogOf(t, e) == LogOf(s, e) && (e in t.admitted <==> e in s.admitted)
    && (e in t.offers <==> e in s.offers) && (e in t.offers ==> t.offers[e] == s.offers[e])
  }

  lemma OnlyKeeps(c: Couriers, s: State, t: State, d: string)
    requires Inv(c, s) && Only(s, t, d) && QueueOk(t) && NetworkOk(c, t) && DeliveryOk(c, t, d)
    ensures Inv(c, t)
  {
    hide DeliveryOk, QueueOk, NetworkOk;
    forall e ensures DeliveryOk(c, t, e) {
      if e != d {
        assert DeliveryOk(c, s, e) && SameFor(s, t, e);
        Untouched(c, s, t, e);
      }
    }
  }

  lemma PublishElsewhere(c: Couriers, s: State, n: nat, outcome: Outcome)
    requires n in s.tasks && s.tasks[n].Publish?
    ensures Only(s, RunTask(c, s, n, outcome).value, s.tasks[n].deliveryId)
  {
    var Publish(d, status, i) := s.tasks[n];
    hide CourierAt, AfterPublish;
    AfterPublishSame(d, status, i);
  }

  lemma AfterPublishSame(d: string, status: Status, i: nat)
    ensures var task := AfterPublish(d, status, i); task.deliveryId == d && !task.Send?
  {
  }

  lemma HeldAlone(c: Couriers, s: State, t: State, d: string, h: Holder)
    requires DeliveryOk(c, s, d) && Holds(s, d, h)
    requires forall g | Holds(t, d, g) :: Holds(s, d, g)
    ensures forall g | Holds(t, d, g) :: g == h
  {
    hide Holds, Ready, LegalLog, Justified, OfferOk;
  }

  lemma PublishHere(c: Couriers, s: State, n: nat, outcome: Outcome)
    requires n in s.tasks && s.tasks[n].Publish? && DeliveryOk(c, s, s.tasks[n].deliveryId)
    ensures DeliveryOk(c, RunTask(c, s, n, outcome).value, s.tasks[n].deliveryId)
  {
    var Publish(d, status, i) := s.tasks[n];
    var t := RunTask(c, s, n, outcome).value;
    hide Offered, LegalLog, Justified, PublishReady, AfterPublish, DeliveryOk;
    AfterPublishSame(d, status, i);
    assert Holds(s, d, Running(n));
    HolderReady(c, s, d, Running(n));
    if outcome.Refused? {
      Untouched(c, s, t, d);
    } else {
      PublishIsLegal(c, s, d, status, i);
      PublishLeadsOn(c, s, t, d, status, i);
      PublishIsJustified(c, s, t, d, status, i);
      HeldAlone(c, s, t, d, Running(n));
      Handed(c, t, d, Running(n));
    }
  }

  lemma HolderReady(c: Couriers, s: State, d: string, h: Holder)
    requires DeliveryOk(c, s, d) && Holds(s, d, h)
    ensures Ready(c, s, d, h) && OfferOk(c, s, d) && Justified(c, s, d) && LegalLog(c, LogOf(s, d)) && d in s.admitted
  {
    hide Ready, LegalLog, Justified, OfferOk;
  }

  lemma PublishKeeps(c: Couriers, s: State, n: nat, outcome: Outcome)
    requires Inv(c, s) && n in s.tasks && s.tasks[n].Publish?
    ensures Inv(c, RunTask(c, s, n, outcome).value)
  {
    hide DeliveryOk, Only, AfterPublish;
    var Publish(d, status, i) := s.tasks[n];
    AfterPublishSame(d, status, i);
    PublishElsewhere(c, s, n, outcome);
    PublishHere(c, s, n, outcome);
    OnlyKeeps(c, s, RunTask(c, s, n, outcome).value, d);
  }

  lemma QuietKeeps(c: Couriers, s: State, t: State)
    requires Inv(c, s) && s.accepts <= t.accepts && (forall e :: SameFor(s, t, e)) && QueueOk(t) && NetworkOk(c, t)
    ensures Inv(c, t)
  {
    hide DeliveryOk, QueueOk, NetworkOk;
    forall e ensures DeliveryOk(c, t, e) {
      assert DeliveryOk(c, s, e) && SameFor(s, t, e);
      Untouched(c, s, t, e);
    }
  }

  lemma MakeOfferHere(c: Couriers, s: State, n: nat)
    requires n in s.tasks && s.tasks[n].MakeOffer? && DeliveryOk(c, s, s.tasks[n].deliveryId)
    ensures var d, i, t := s.tasks[n].deliveryId, s.tasks[n].index, RunTask(c, s, n, Done).value;
            DeliveryOk(c, t, d) && i < |c| && t.tasks[n] == Send(d, i, i + 1)
  {
    var MakeOffer(d, i) := s.tasks[n];
    var t := RunTask(c, s, n, Done).value;
    hide Offered, LegalLog, Justified, DeliveryOk;
    assert Holds(s, d, Running(n));
    HolderReady(c, s, d, Running(n));
    forall g | Holds(t, d, g) ensures g == Open {
      if g != Open {
        assert Holds(s, d, g);
        OnlyHolder(c, s, d, g, Running(n));
      }
    }
    SameJustified(c, s, t, d);
    Handed(c, t, d, Open);
  }

  lemma OnlyHolder(c: Couriers, s: State, d: string, g: Holder, h: Holder)
    requires DeliveryOk(c, s, d) && Holds(s, d, g) && Holds(s, d, h)
    ensures g == h
  {
    hide Holds, Ready, LegalLog, Justified, OfferOk;
  }

  lemma SameJustified(c: Couriers, s: State, t: State, d: string)
    requires Justified(c, s, d) && LogOf(t, d) == LogOf(s, d) && s.accepts <= t.accepts
    ensures Justified(c, t, d)
  {
  }

  lemma MakeOfferKeeps(c: Couriers, s: State, n: nat)
    requires Inv(c, s) && n in s.tasks && s.tasks[n].MakeOffer?
    ensures Inv(c, RunTask(c, s, n, Done).value)
  {
    var MakeOffer(d, i) := s.tasks[n];
    var t := RunTask(c, s, n, Done).value;
    assert DeliveryOk(c, s, d);
    hide DeliveryOk;
    MakeOfferHere(c, s, n);
    assert forall e | e != d :: SameFor(s, t, e);
    OnlyKeeps(c, s, t, d);
  }

  lemma SendKeeps(c: Couriers, s: State, n: nat, outcome: Outcome)
    requires Inv(c, s) && n in s.tasks && s.tasks[n].Send?
    ensures Inv(c, RunTask(c, s, n, outcome).value)
  {
    hide DeliveryOk;
    QuietKeeps(c, s, RunTask(c, s, n, outcome).value);
  }

  lemma ClosingKeeps(c: Couriers, s: State, n: nat)
    requires Inv(c, s) && n in s.tasks && s.tasks[n].Closing?
    ensures Inv(c, RunTask(c, s, n, Done).value)
  {
    var Closing(d) := s.tasks[n];
    var t := RunTask(c, s, n, Done).value;
    hide LegalLog, Justified, DeliveryOk;
    assert DeliveryOk(c, s, d) && Holds(s, d, Running(n));
    HolderReady(c, s, d, Running(n));
    HeldAlone(c, s, t, d, Running(n));
    SameJustified(c, s, t, d);
    Handed(c, t, d, Running(n));
    assert forall e | e != d :: SameFor(s, t, e);
    OnlyKeeps(c, s, t, d);
  }

  // ---- Steps of the sweep -------------------------------------------------------------------------------------

  lemma AssignKeeps(c: Couriers, s: State, d: string)
    requires Inv(c, s) && d !in s.admitted
    ensures Inv(c, Next(c, s, Assign(d)).value)
  {
    var t := Next(c, s, Assign(d)).value;
    assert DeliveryOk(c, s, d) && !Holds(s, d, Waiting);
    forall g | Holds(t, d, g) ensures g == Waiting {
      assert g != Waiting ==> Holds(s, d, g);
    }
    hide LegalLog, Justified, DeliveryOk;
    SameJustified(c, s, t, d);
    Handed(c, t, d, Waiting);
    assert forall e | e != d :: SameFor(s, t, e);
    OnlyKeeps(c, s, t, d);
  }

  lemma WithoutOne<T>(q: seq<T>, k: nat)
    requires k < |q| && forall i, j | 0 <= i < j < |q| :: q[i] != q[j]
    ensures q[k] !in Without(q, k)
    ensures forall x | x != q[k] :: x in Without(q, k) <==> x in q
    ensures forall i, j | 0 <= i < j < |Without(q, k)| :: Without(q, k)[i] != Without(q, k)[j]
  {
    forall x | x in q && x != q[k] ensures x in Without(q, k) {
      var i :| 0 <= i < |q| && q[i] == x;
      assert x == Without(q, k)[if i < k then i else i - 1];
    }
  }

  lemma BeginKeeps(c: Couriers, s: State, k: nat)
    requires Inv(c, s) && k < |s.pending|
    ensures Inv(c, Next(c, s, Begin(k)).value)
  {
    var d, t := s.pending[k], Next(c, s, Begin(k)).value;
    hide LegalLog, Justified, DeliveryOk, Without;
    WithoutOne(s.pending, k);
    assert DeliveryOk(c, s, d) && Holds(s, d, Waiting);
    HolderReady(c, s, d, Waiting);
    var h := Running(s.nextTask);
    forall g | Holds(t, d, g) ensures g == h {
      if g != h {
        assert Holds(s, d, g);
        OnlyHolder(c, s, d, g, Waiting);
      }
    }
    SameJustified(c, s, t, d);
    Handed(c, t, d, h);
    assert forall e | e != d :: SameFor(s, t, e);
    OnlyKeeps(c, s, t, d);
  }

  /** An open offer of d is settled and a task goes on from it. */
  lemma SettlingKeeps(c: Couriers, s: State, t: State, d: string, task: Task)
    requires Inv(c, s) && Holds(s, d, Open)
    requires t == s.(offers := Settled(s.offers, d), tasks := s.tasks[s.nextTask := task], nextTask := s.nextTask + 1,
                     decisions := t.decisions)
    requires forall a | a in t.decisions :: a in s.decisions
    requires task.deliveryId == d && !task.Send? && TaskReady(c, t, task)
    ensures Inv(c, t)
  {
    hide LegalLog, Justified, DeliveryOk, TaskReady;
    assert DeliveryOk(c, s, d);
    HolderReady(c, s, d, Open);
    var h := Running(s.nextTask);
    forall g | Holds(t, d, g) ensures g == h {
      if g != h {
        assert Holds(s, d, g);
        OnlyHolder(c, s, d, g, Open);
      }
    }
    SameJustified(c, s, t, d);
    Handed(c, t, d, h);
    assert forall e | e != d :: SameFor(s, t, e);
    OnlyKeeps(c, s, t, d);
  }

  /** The continuation of a settled offer that was not taken. */
  lemma ReassignReady(c: Couriers, s: State, t: State, d: string)
    requires DeliveryOk(c, s, d) && Holds(s, d, Open)
    requires t.offers == Settled(s.offers, d) && LogOf(t, d) == LogOf(s, d)
    ensures var task := Reassign(c, s.offers[d]);
            task.deliveryId == d && !task.Send? && TaskReady(c, t, task)
  {
    hide LegalLog, Justified, Offered;
    assert Ready(c, s, d, Open);
  }

  lemma ExpireKeeps(c: Couriers, s: State, d: string)
    requires Inv(c, s) && Next(c, s, Expire(d)).Some?
    ensures Inv(c, Next(c, s, Expire(d)).value)
  {
    hide DeliveryOk, TaskReady, LegalLog, Justified, Reassign;
    var t := Next(c, s, Expire(d)).value;
    assert DeliveryOk(c, s, d);
    ReassignReady(c, s, t, d);
    SettlingKeeps(c, s, t, d, Reassign(c, s.offers[d]));
  }

  lemma DecideKeeps(c: Couriers, s: State, k: nat)
    requires Inv(c, s) && k < |s.decisions|
    ensures Inv(c, Next(c, s, Decide(k)).value)
  {
    var a, t := s.decisions[k], Next(c, s, Decide(k)).value;
    var d := a.deliveryId;
    hide LegalLog, Justified, Reassign, Offered, Without;
    assert DeliveryOk(c, s, d) && a in s.decisions && AnswerOk(c, s.accepts, a);
    hide DeliveryOk;
    if Answered(s.offers, d, a.attempt).None? {
      QuietKeeps(c, s, t);
    } else {
      assert Holds(s, d, Open);
      HolderReady(c, s, d, Open);
      if a.accepted {
        SettlingKeeps(c, s, t, d, Publish(d, Accepted, s.offers[d].candidateIndex));
      } else {
        ReassignReady(c, s, t, d);
        SettlingKeeps(c, s, t, d, Reassign(c, s.offers[d]));
      }
    }
  }

  // ---- Steps of the network and the actors ------------------------------------------------------------------------

  lemma ChooseKeeps(c: Couriers, s: State, courier: string, d: string, claimed: string, accepted: bool)
    requires Inv(c, s) && (courier, d) in s.offered
    ensures Inv(c, Next(c, s, Choose(courier, d, claimed, accepted)).value)
  {
    hide DeliveryOk;
    var t := Next(c, s, Choose(courier, d, claimed, accepted)).value;
    var attempt := s.offered[(courier, d)];
    assert MsgOk(c, OfferMsg((courier, d).0, (courier, d).1, attempt));
    assert AnswerOk(c, t.accepts, Decision(d, claimed, attempt, accepted));
    assert forall e :: SameFor(s, t, e);
    QuietKeeps(c, s, t);
  }

  lemma NothingMoved(s: State, t: State)
    requires t.pending == s.pending && t.tasks == s.tasks && t.offers == s.offers && t.log == s.log
    requires t.admitted == s.admitted && t.nextTask == s.nextTask && QueueOk(s)
    ensures QueueOk(t) && forall e :: SameFor(s, t, e)
  {
  }

  lemma NetworkStays(c: Couriers, s: State, l: Label)
    requires NetworkOk(c, s) && Next(c, s, l).Some?
    requires l.DeliverOffer? || l.DeliverAnswer? || l.Tick?
    ensures NetworkOk(c, Next(c, s, l).value)
  {
  }

  lemma NetworkKeeps(c: Couriers, s: State, l: Label)
    requires Inv(c, s) && Next(c, s, l).Some?
    requires l.DeliverOffer? || l.DeliverAnswer? || l.Tick?
    ensures Inv(c, Next(c, s, l).value)
  {
    hide DeliveryOk, NetworkOk, QueueOk, SameFor;
    var t := Next(c, s, l).value;
    NothingMoved(s, t);
    NetworkStays(c, s, l);
    QuietKeeps(c, s, t);
  }

  lemma StepKeeps(c: Couriers, s: State, l: Label)
    requires Inv(c, s) && Next(c, s, l).Some?
    ensures Inv(c, Next(c, s, l).value)
  {
    hide Inv;
    match l
    case Assign(d) => AssignKeeps(c, s, d);
    case Begin(k) => BeginKeeps(c, s, k);
    case Decide(k) => DecideKeeps(c, s, k);
    case Expire(d) => ExpireKeeps(c, s, d);
    case Run(n, outcome) =>
      if s.tasks[n].Publish? {
        PublishKeeps(c, s, n, outcome);
      } else if s.tasks[n].MakeOffer? {
        MakeOfferKeeps(c, s, n);
      } else if s.tasks[n].Send? {
        SendKeeps(c, s, n, outcome);
      } else {
        ClosingKeeps(c, s, n);
      }
    case Choose(courier, d, claimed, accepted) => ChooseKeeps(c, s, courier, d, claimed, accepted);
    case _ => NetworkKeeps(c, s, l);
  }

  lemma InitialOk(c: Couriers)
    ensures Inv(c, Initial())
  {
    forall d ensures DeliveryOk(c, Initial(), d) {
      assert [] <= Failure(c);
    }
  }

  lemma {:induction false} RunKeeps(c: Couriers, steps: seq<Label>)
    requires Execute(c, steps).Some?
    ensures Inv(c, Execute(c, steps).value)
  {
    hide Next, Inv, Initial;
    if steps == [] {
      InitialOk(c);
    } else {
      RunKeeps(c, steps[..|steps| - 1]);
      StepKeeps(c, Execute(c, steps[..|steps| - 1]).value, steps[|steps| - 1]);
    }
  }

  // ---- What every run guarantees ----------------------------------------------------------------------------------

  /** Whatever is lost, late, repeated or out of order, every delivery has at most one of a waiting
      assignment, a running continuation and an open offer; what is published about it is the
      beginning of one of its legal endings; and its offers go to the candidate of their attempt. */
  lemma DeliveriesStayInOrder(c: Couriers, steps: seq<Label>, d: string)
    requires Execute(c, steps).Some?
    ensures var s := Execute(c, steps).value;
            && OneHolder(s, d)
            && LegalLog(c, LogOf(s, d))
            && (d in s.offers ==> 1 <= s.offers[d].attempt == s.offers[d].candidateIndex + 1 <= |c|)
            && forall m | m in s.sent :: 1 <= m.attempt <= |c| && m.courierId == c[m.attempt - 1]
  {
    hide Execute, LegalLog, OneHolder, Justified, Ready;
    RunKeeps(c, steps);
    assert DeliveryOk(c, Execute(c, steps).value, d);
  }

  /** The courier is told to accept, and its actor keeps this attempt. */
  predicate Accepts(s: State, l: Label, m: OfferMsg) {
    && l.Choose? && l.accepted && l.courierId == m.courierId && l.deliveryId == m.deliveryId
    && (m.courierId, m.deliveryId) in s.offered && s.offered[(m.courierId, m.deliveryId)] == m.attempt
  }

  /** In the run the courier's actor was told to accept the attempt it kept. */
  ghost predicate Chose(c: Couriers, steps: seq<Label>, m: OfferMsg)
    requires Execute(c, steps).Some?
  {
    steps != [] &&
    var front, last := steps[..|steps| - 1], steps[|steps| - 1];
    Chose(c, front, m) || Accepts(Execute(c, front).value, last, m)
  }

  lemma ChoiceAccepts(c: Couriers, s: State, l: Label, m: OfferMsg)
    requires Next(c, s, l).Some?
    ensures m in Next(c, s, l).value.accepts
       <==> m in s.accepts || Accepts(s, l, m)
  {
    hide CourierAt, AfterPublish, Reassign, Without, Record, Settled, Answered, LogOf;
  }

  /** The acceptances recorded are those the actors made. */
  lemma {:induction false} AcceptsAreChoices(c: Couriers, steps: seq<Label>, m: OfferMsg)
    requires Execute(c, steps).Some?
    ensures m in Execute(c, steps).value.accepts <==> Chose(c, steps, m)
  {
    hide Next, Accepts;
    if steps != [] {
      AcceptsAreChoices(c, steps[..|steps| - 1], m);
      ChoiceAccepts(c, Execute(c, steps[..|steps| - 1]).value, steps[|steps| - 1], m);
    }
  }

  /** Accepted is published for a courier only at the place of an attempt that this courier's actor was told
      to accept in the run, although settling never looks at a courier id. */
  lemma AcceptedMeansAccepted(c: Couriers, steps: seq<Label>, d: string, j: nat)
    requires Execute(c, steps).Some?
    requires var log := LogOf(Execute(c, steps).value, d); j < |log| && log[j].status == Accepted
    ensures Chose(c, steps, OfferMsg(LogOf(Execute(c, steps).value, d)[j].courierId, d, j))
  {
    hide Execute, LegalLog, OneHolder, Ready, OfferOk, Chose;
    RunKeeps(c, steps);
    assert DeliveryOk(c, Execute(c, steps).value, d);
    AcceptsAreChoices(c, steps, OfferMsg(LogOf(Execute(c, steps).value, d)[j].courierId, d, j));
  }

  lemma {:induction false} OfferedEntries(c: Couriers, k: nat)
    ensures forall j | 0 <= j <= k ::
              Offered(c, k)[j] == Entry(if j == 0 then Assigned else Reassigned, CourierAt(c, j))
  {
    if k > 0 {
      OfferedEntries(c, k - 1);
    }
  }

  /** A decision for an attempt that is not the current one, or that comes when an acceptance or the
      failure was published or the offer was closed, is dropped and changes nothing else. */
  lemma StaleDecisionsChangeNothing(c: Couriers, steps: seq<Label>, k: nat)
    requires Execute(c, steps).Some? && k < |Execute(c, steps).value.decisions|
    requires var s := Execute(c, steps).value;
             var a := s.decisions[k];
             || a.attempt != LastAttempt(s.offers, a.deliveryId)
             || a.deliveryId !in s.offers
             || exists j | 0 <= j < |LogOf(s, a.deliveryId)| ::
                  LogOf(s, a.deliveryId)[j].status != Assigned && LogOf(s, a.deliveryId)[j].status != Reassigned
    ensures var s := Execute(c, steps).value;
            Next(c, s, Decide(k)) == Some(s.(decisions := Without(s.decisions, k)))
  {
    hide Execute, LegalLog, Justified, OneHolder, Without, Offered;
    RunKeeps(c, steps);
    var s := Execute(c, steps).value;
    var d := s.decisions[k].deliveryId;
    assert DeliveryOk(c, s, d);
    if Holds(s, d, Open) {
      assert Ready(c, s, d, Open);
      OfferedEntries(c, s.offers[d].candidateIndex);
    }
  }

  // ---- Endings are final --------------------------------------------------------------------------------------------

  ghost predicate Complete(c: Couriers, log: seq<Entry>) {
    (exists k: nat | k < |c| :: log == Success(c, k)) || log == Failure(c)
  }

  lemma SuccessEntries(c: Couriers, k: nat)
    ensures |Success(c, k)| == k + 3 + (if k == 0 then 1 else 0)
    ensures forall j | 0 <= j < |Success(c, k)| :: Success(c, k)[j].status != Failed
    ensures forall j | 0 <= j < |Success(c, k)| :: Success(c, k)[j].status == Accepted <==> j == k + 1
  {
    OfferedEntries(c, k);
    hide Offered, CourierAt;
  }

  /** A complete log is the beginning of no other legal log. */
  lemma NothingAfterTheEnd(c: Couriers, log: seq<Entry>, longer: seq<Entry>)
    requires Complete(c, log) && LegalLog(c, longer) && log <= longer
    ensures longer == log
  {
    hide Success;
    OfferedEntries(c, |c| - 1);
    assert Failure(c)[|c|].status == Failed && forall j | 0 <= j <= |c| :: Failure(c)[j].status != Accepted;
    hide Offered, Failure;
    forall i: nat | i < |c| && longer <= Success(c, i)
      ensures |longer| <= |Success(c, i)|
              && forall j | 0 <= j < |longer| :: longer[j].status != Failed
                  && (longer[j].status == Accepted <==> j == i + 1)
    {
      SuccessEntries(c, i);
      assert forall j | 0 <= j < |longer| :: longer[j] == Success(c, i)[j];
    }
    if k: nat :| k < |c| && log == Success(c, k) {
      SuccessEntries(c, k);
      assert longer[k + 1].status == Accepted;
    } else {
      assert longer[|c|].status == Failed;
    }
  }

  lemma LogsOnlyGrow(c: Couriers, s: State, l: Label, d: string)
    requires Next(c, s, l).Some?
    ensures LogOf(s, d) <= LogOf(Next(c, s, l).value, d)
  {
    hide Record, Settled, Without, Reassign, AfterPublish, Answered;
  }

  /** Once Delivered or Failed is published, nothing is ever published about the delivery again. */
  lemma EndingsAreFinal(c: Couriers, steps: seq<Label>, l: Label, d: string)
    requires Execute(c, steps).Some? && Next(c, Execute(c, steps).value, l).Some?
    requires Complete(c, LogOf(Execute(c, steps).value, d))
    ensures LogOf(Next(c, Execute(c, steps).value, l).value, d) == LogOf(Execute(c, steps).value, d)
  {
    hide Execute, LegalLog, Complete, Justified, OneHolder, Ready, OfferOk, Next;
    var s := Execute(c, steps).value;
    RunKeeps(c, steps);
    StepKeeps(c, s, l);
    LogsOnlyGrow(c, s, l, d);
    assert DeliveryOk(c, Next(c, s, l).value, d);
    NothingAfterTheEnd(c, LogOf(s, d), LogOf(Next(c, s, l).value, d));
  }
}
