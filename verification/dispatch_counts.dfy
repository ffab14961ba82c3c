// How often a delivery is offered, what an answer answers, and the sweep as the steps it is split into.
module DispatchCounts {
  import opened Wrappers
  import opened Dispatch
  import opened DispatchProtocol
  import opened DispatchProofs

  // ---- Counting offers ---------------------------------------------------------------------------

  /** The step records an offer of d. */
  predicate MakesOffer(s: State, l: Label, d: string) {
    l.Run? && l.outcome.Done? && l.task in s.tasks && s.tasks[l.task].MakeOffer? && s.tasks[l.task].deliveryId == d
  }

  /** The step sends an offer of d, whether the send is answered or not. */
  predicate SendsOffer(s: State, l: Label, d: string) {
    l.Run? && !l.outcome.Refused? && l.task in s.tasks && s.tasks[l.task].Send? && s.tasks[l.task].deliveryId == d
  }

  /** How many offers of d a run records. */
  ghost function OffersMade(c: Couriers, steps: seq<Label>, d: string): nat
    requires Execute(c, steps).Some?
  {
    if steps == [] then 0
    else
      var front, last := steps[..|steps| - 1], steps[|steps| - 1];
      OffersMade(c, front, d) + if MakesOffer(Execute(c, front).value, last, d) then 1 else 0
  }

  /** How many offers of d a run sends. */
  ghost function OffersSent(c: Couriers, steps: seq<Label>, d: string): nat
    requires Execute(c, steps).Some?
  {
    if steps == [] then 0
    else
      var front, last := steps[..|steps| - 1], steps[|steps| - 1];
      OffersSent(c, front, d) + if SendsOffer(Execute(c, front).value, last, d) then 1 else 0
  }

  /** Tasks that still have to send an offer of d. */
  ghost function Sending(s: State, d: string): set<nat> {
    set t | t in s.tasks && s.tasks[t].Send? && s.tasks[t].deliveryId == d
  }

  /** As long as d can go on, the attempt number counts the offers made. */
  ghost predicate Counted(c: Couriers, s: State, d: string, made: nat) {
    && made <= |c|
    && (d in s.offers ==> made == s.offers[d].attempt)
    && (d !in s.offers && (exists h :: Holds(s, d, h)) ==> made == 0)
    && (d !in s.admitted ==> made == 0)
  }

  lemma MakingCounts(c: Couriers, s: State, n: nat, d: string, made: nat)
    requires DeliveryOk(c, s, d) && Counted(c, s, d, made)
    requires n in s.tasks && s.tasks[n].MakeOffer? && s.tasks[n].deliveryId == d
    ensures Counted(c, RunTask(c, s, n, Done).value, d, made + 1)
  {
    hide LegalLog, Justified, Offered, OneHolder;
    assert Holds(s, d, Running(n)) && Ready(c, s, d, Running(n));
  }

  /** A step that makes no offer of d, and takes no record of it away, keeps the count. */
  lemma OtherwiseCounts(c: Couriers, s: State, t: State, d: string, made: nat)
    requires Counted(c, s, d, made)
    requires d in t.offers ==> d in s.offers && t.offers[d].attempt == s.offers[d].attempt
    requires d in s.offers && d !in t.offers ==> forall h :: !Holds(t, d, h)
    requires (exists h :: Holds(t, d, h)) ==> (exists h :: Holds(s, d, h)) || d !in s.admitted
    requires d in s.admitted ==> d in t.admitted
    ensures Counted(c, t, d, made)
  {
    hide Holds;
  }

  lemma ClosingEnds(c: Couriers, s: State, n: nat, d: string)
    requires DeliveryOk(c, s, d) && n in s.tasks && s.tasks[n] == Closing(d)
    ensures forall h :: !Holds(RunTask(c, s, n, Done).value, d, h)
  {
    hide LegalLog, Justified, Ready, OfferOk;
    var t := RunTask(c, s, n, Done).value;
    assert Holds(s, d, Running(n));
    forall h ensures !Holds(t, d, h) {
      assert Holds(t, d, h) ==> Holds(s, d, h);
    }
  }

  /** A step other than closing or making an offer leaves the attempt of d alone. */
  lemma AttemptStays(c: Couriers, s: State, l: Label, d: string)
    requires Next(c, s, l).Some? && !MakesOffer(s, l, d)
    requires !(l.Run? && l.task in s.tasks && s.tasks[l.task] == Closing(d))
    ensures var t := Next(c, s, l).value;
            && (d in t.offers <==> d in s.offers) && (d in t.offers ==> t.offers[d].attempt == s.offers[d].attempt)
            && s.admitted <= t.admitted
  {
    hide CourierAt, AfterPublish, Reassign, Without;
  }

  lemma TaskFromTask(c: Couriers, s: State, l: Label, d: string, h: Holder)
    requires l.Run? && Next(c, s, l).Some? && Holds(Next(c, s, l).value, d, h)
    ensures Holds(s, d, h) || Holds(s, d, Running(l.task))
  {
    hide CourierAt, AfterPublish;
    if s.tasks[l.task].Publish? {
      AfterPublishSame(s.tasks[l.task].deliveryId, s.tasks[l.task].status, s.tasks[l.task].index);
    }
  }

  lemma SpawnFromOffer(c: Couriers, s: State, l: Label, d: string, h: Holder)
    requires l.Decide? || l.Expire?
    requires Inv(c, s) && Next(c, s, l).Some? && Holds(Next(c, s, l).value, d, h)
    ensures Holds(s, d, h) || Holds(s, d, Open)
  {
    hide LegalLog, Justified, Ready, Without, NetworkOk, QueueOk, OneHolder;
    var e := if l.Expire? then l.deliveryId else s.decisions[l.k].deliveryId;
    assert DeliveryOk(c, s, e) && OfferOk(c, s, e);
    hide DeliveryOk;
    if h.Running? && h.task != s.nextTask {
      assert Holds(s, d, h);
    }
  }

  /** Only a delivery that something held, or that is newly assigned, is held after a step. */
  lemma HolderFromHolder(c: Couriers, s: State, l: Label, d: string, h: Holder) returns (g: Holder)
    requires Inv(c, s) && Next(c, s, l).Some? && Holds(Next(c, s, l).value, d, h)
    ensures Holds(s, d, g) || d !in s.admitted
  {
    hide Inv, RunTask, Reassign, Without, Record, Settled, Answered;
    g := h;
    match l
    case Assign(e) =>
    case Begin(k) => if !Holds(s, d, h) { g := Waiting; }
    case Decide(k) =>
      SpawnFromOffer(c, s, l, d, h);
      if !Holds(s, d, h) { g := Open; }
    case Expire(e) =>
      SpawnFromOffer(c, s, l, d, h);
      if !Holds(s, d, h) { g := Open; }
    case Run(n, outcome) =>
      TaskFromTask(c, s, l, d, h);
      if !Holds(s, d, h) { g := Running(n); }
    case _ =>
  }

  lemma StepCounts(c: Couriers, s: State, l: Label, d: string, made: nat)
    requires Inv(c, s) && Next(c, s, l).Some? && Counted(c, s, d, made)
    ensures Counted(c, Next(c, s, l).value, d, if MakesOffer(s, l, d) then made + 1 else made)
  {
    hide Next, Counted, DeliveryOk, Holds, QueueOk, NetworkOk;
    var t := Next(c, s, l).value;
    assert DeliveryOk(c, s, d);
    if MakesOffer(s, l, d) {
      RunIs(c, s, l);
      MakingCounts(c, s, l.task, d, made);
    } else {
      if h :| Holds(t, d, h) {
        var g := HolderFromHolder(c, s, l, d, h);
      }
      if l.Run? && l.task in s.tasks && s.tasks[l.task] == Closing(d) {
        RunIs(c, s, l);
        ClosingEnds(c, s, l.task, d);
        ClosingTakes(c, s, l.task, d);
      } else {
        AttemptStays(c, s, l, d);
      }
      OtherwiseCounts(c, s, t, d, made);
    }
  }

  lemma RunIs(c: Couriers, s: State, l: Label)
    requires l.Run? && l.task in s.tasks && Next(c, s, l).Some?
    ensures Next(c, s, l) == RunTask(c, s, l.task, l.outcome)
    ensures s.tasks[l.task].Closing? || s.tasks[l.task].MakeOffer? ==> l.outcome == Done
  {
  }

  lemma ClosingTakes(c: Couriers, s: State, n: nat, d: string)
    requires n in s.tasks && s.tasks[n] == Closing(d)
    ensures var t := RunTask(c, s, n, Done).value; d !in t.offers && t.admitted == s.admitted
  {
  }

  // ---- Counting sends -------------------------------------------------------------------------------

  /** Making an offer adds one task that has to send it; sending or failing to takes it away. */
  lemma SendingMoves(c: Couriers, s: State, l: Label, d: string)
    requires Inv(c, s) && Next(c, s, l).Some?
    ensures |Sending(Next(c, s, l).value, d)| + (if SendsOffer(s, l, d) then 1 else 0)
         <= |Sending(s, d)| + (if MakesOffer(s, l, d) then 1 else 0)
  {
    var t := Next(c, s, l).value;
    hide DeliveryOk, NetworkOk, CourierAt, LegalLog, Without;
    if MakesOffer(s, l, d) {
      assert Sending(t, d) == Sending(s, d) + {l.task};
    } else if l.Run? && s.tasks[l.task].Send? && s.tasks[l.task].deliveryId == d {
      assert Sending(t, d) == Sending(s, d) - {l.task};
    } else {
      SendingSame(c, s, l, d);
    }
  }

  lemma SendingSame(c: Couriers, s: State, l: Label, d: string)
    requires QueueOk(s) && Next(c, s, l).Some? && !MakesOffer(s, l, d)
    requires !(l.Run? && s.tasks[l.task].Send? && s.tasks[l.task].deliveryId == d)
    ensures Sending(Next(c, s, l).value, d) == Sending(s, d)
  {
    hide CourierAt, LegalLog, Without;
    var t := Next(c, s, l).value;
    if l.Run? && s.tasks[l.task].Publish? {
      AfterPublishSame(s.tasks[l.task].deliveryId, s.tasks[l.task].status, s.tasks[l.task].index);
      hide AfterPublish;
      assert forall n :: n in Sending(t, d) <==> n in Sending(s, d);
    } else {
      assert forall n :: n in Sending(t, d) <==> n in Sending(s, d);
    }
  }

  lemma {:induction false} RunCounts(c: Couriers, steps: seq<Label>, d: string)
    requires Execute(c, steps).Some?
    ensures var s := Execute(c, steps).value;
            && Counted(c, s, d, OffersMade(c, steps, d))
            && OffersSent(c, steps, d) + |Sending(s, d)| <= OffersMade(c, steps, d)
  {
    hide Next, Inv, Counted, Sending, MakesOffer, SendsOffer, Initial;
    if steps == [] {
      NothingCounted(c, d);
    } else {
      var front, last := steps[..|steps| - 1], steps[|steps| - 1];
      var s := Execute(c, front).value;
      RunCounts(c, front, d);
      RunKeeps(c, front);
      StepCounts(c, s, last, d, OffersMade(c, front, d));
      SendingMoves(c, s, last, d);
    }
  }

  lemma NothingCounted(c: Couriers, d: string)
    ensures Counted(c, Initial(), d, 0) && |Sending(Initial(), d)| == 0
  {
    assert Sending(Initial(), d) == {};
  }

  /** In every run a delivery is offered, and an offer of it sent, no more often than there are
      candidates; and no offer is sent that was not made. */
  lemma OffersAreBounded(c: Couriers, steps: seq<Label>, d: string)
    requires Execute(c, steps).Some?
    ensures OffersSent(c, steps, d) <= OffersMade(c, steps, d) <= |c|
  {
    hide Execute, OffersMade, OffersSent, Sending;
    RunCounts(c, steps, d);
  }

  // ---- Answers -----------------------------------------------------------------------------------------

  /** The step touches what an actor keeps about a delivery. */
  predicate TouchesOffer(l: Label, courier: string, d: string) {
    (l.DeliverOffer? && l.offer.courierId == courier && l.offer.deliveryId == d)
    || (l.Choose? && l.courierId == courier && l.deliveryId == d)
  }

  function ExecuteFrom(c: Couriers, s: State, steps: seq<Label>): Option<State> {
    if steps == [] then Some(s)
    else
      var before := ExecuteFrom(c, s, steps[..|steps| - 1]);
      if before == None then None else Next(c, before.value, steps[|steps| - 1])
  }

  lemma {:induction false} KeptOfferStays(c: Couriers, s: State, steps: seq<Label>, courier: string, d: string)
    requires ExecuteFrom(c, s, steps).Some?
    requires forall i | 0 <= i < |steps| :: !TouchesOffer(steps[i], courier, d)
    ensures var t := ExecuteFrom(c, s, steps).value;
            && ((courier, d) in t.offered <==> (courier, d) in s.offered)
            && ((courier, d) in t.offered ==> t.offered[(courier, d)] == s.offered[(courier, d)])
  {
    hide RunTask, Without, Reassign, Record, Settled, Answered;
    if steps != [] {
      var front, last := steps[..|steps| - 1], steps[|steps| - 1];
      KeptOfferStays(c, s, front, courier, d);
      assert !TouchesOffer(last, courier, d);
      OfferedStays(c, ExecuteFrom(c, s, front).value, last, courier, d);
    }
  }

  lemma OfferedStays(c: Couriers, s: State, l: Label, courier: string, d: string)
    requires Next(c, s, l).Some? && !TouchesOffer(l, courier, d)
    ensures var t := Next(c, s, l).value;
            && ((courier, d) in t.offered <==> (courier, d) in s.offered)
            && ((courier, d) in t.offered ==> t.offered[(courier, d)] == s.offered[(courier, d)])
  {
    hide CourierAt, Without, Reassign, Record, Settled, Answered, AfterPublish;
  }

  /** A courier's decision answers the offer that reached its actor last, whatever happens in between,
      with that offer's attempt and whatever id the client claims; and it cannot answer it twice. */
  lemma AnswersTheLastOffer(c: Couriers, s: State, m: OfferMsg, between: seq<Label>, claimed: string, accepted: bool)
    requires m in s.sent
    requires var kept := Next(c, s, DeliverOffer(m)).value; ExecuteFrom(c, kept, between).Some?
    requires forall i | 0 <= i < |between| :: !TouchesOffer(between[i], m.courierId, m.deliveryId)
    ensures var before := ExecuteFrom(c, Next(c, s, DeliverOffer(m)).value, between).value;
            var choice := Choose(m.courierId, m.deliveryId, claimed, accepted);
            var after := Next(c, before, choice);
            && after.Some?
                && after.value.answers == before.answers + {Decision(m.deliveryId, claimed, m.attempt, accepted)}
            && forall again: Label :: again.Choose? && TouchesOffer(again, m.courierId, m.deliveryId) ==>
                 Next(c, after.value, again) == None
  {
    hide ExecuteFrom;
    KeptOfferStays(c, Next(c, s, DeliverOffer(m)).value, between, m.courierId, m.deliveryId);
  }

  // ---- The sweep --------------------------------------------------------------------------------------------

  /** Expire steps for these deliveries, in this order. */
  function Expiries(ids: seq<string>): seq<Label> {
    seq(|ids|, i requires 0 <= i < |ids| => Expire(ids[i]))
  }

  /** The tasks a sweep starts for the offers it returns. */
  function Started(c: Couriers, tasks: map<nat, Task>, next: nat, expired: seq<Offer>): map<nat, Task> {
    if expired == [] then tasks
    else
      var last := |expired| - 1;
      Started(c, tasks, next, expired[..last])[next + last := Reassign(c, expired[last])]
  }

  /** The offers with the first n of these settled. */
  function SettledAll(offers: Offers, ids: seq<string>): Offers {
    if ids == [] then offers
    else
      var before, last := SettledAll(offers, ids[..|ids| - 1]), ids[|ids| - 1];
      if last in before then Settled(before, last) else before
  }

  lemma {:induction false} SettledAllIs(offers: Offers, ids: seq<string>)
    requires forall i | 0 <= i < |ids| :: ids[i] in offers
    ensures var settled := SettledAll(offers, ids);
            && settled.Keys == offers.Keys
            && forall d | d in offers :: settled[d] == if d in ids then offers[d].(settled := true) else offers[d]
  {
    if ids != [] {
      SettledAllIs(offers, ids[..|ids| - 1]);
      assert ids == ids[..|ids| - 1] + [ids[|ids| - 1]];
    }
  }

  lemma OverduePrefix(offers: Offers, now: int, expired: seq<Offer>, ids: seq<string>)
    requires AreOverdue(offers, now, expired, ids) && ids != []
    ensures var n := |ids| - 1;
            && |expired| == |ids| && AreOverdue(offers, now, expired[..n], ids[..n])
            && ids[n] in offers && Overdue(offers[ids[n]], now) && expired[n] == offers[ids[n]].(settled := true)
            && ids[n] !in ids[..n]
    ensures forall i | 0 <= i < |ids| :: ids[i] in offers
  {
    hide Overdue;
  }

  /** The state a sweep leaves: these offers settled, and a task started for each. */
  function SweptState(c: Couriers, s: State, expired: seq<Offer>, ids: seq<string>): State {
    s.(offers := SettledAll(s.offers, ids), tasks := Started(c, s.tasks, s.nextTask, expired), nextTask := s.nextTask
        + |ids|)
  }

  lemma SettledNext(offers: Offers, ids: seq<string>)
    requires ids != [] && (forall i | 0 <= i < |ids| :: ids[i] in offers) && ids[|ids| - 1] !in ids[..|ids| - 1]
    ensures var n := |ids| - 1;
            var before := SettledAll(offers, ids[..n]);
            ids[n] in before && before[ids[n]] == offers[ids[n]] && SettledAll(offers, ids) == Settled(before, ids[n])
  {
    assert forall i | 0 <= i < |ids| - 1 :: ids[i] == ids[..|ids| - 1][i];
    SettledAllIs(offers, ids[..|ids| - 1]);
    hide Settled;
  }

  lemma ExpireNext(c: Couriers, s: State, expired: seq<Offer>, ids: seq<string>)
    requires AreOverdue(s.offers, s.now, expired, ids) && ids != []
    ensures var n := |ids| - 1;
            n < |expired|
            && Next(c, SweptState(c, s, expired[..n], ids[..n]), Expire(ids[n])) == Some(SweptState(c, s, expired, ids))
  {
    hide AreOverdue, Settled, SettledAll, Started, Reassign, Overdue;
    var n := |ids| - 1;
    OverduePrefix(s.offers, s.now, expired, ids);
    SettledNext(s.offers, ids);
    ReassignIgnoresSettling(c, s.offers[ids[n]]);
    StartedStep(c, s.tasks, s.nextTask, expired);
  }

  /** Expiring the overdue offers one after another is what the sweep's loop does at once. */
  lemma {:induction false} ExpiriesSettle(c: Couriers, s: State, expired: seq<Offer>, ids: seq<string>)
    requires AreOverdue(s.offers, s.now, expired, ids)
    ensures ExecuteFrom(c, s, Expiries(ids)) == Some(SweptState(c, s, expired, ids))
  {
    if ids == [] {
      assert expired == [] && Expiries(ids) == [];
    } else {
      hide *;
      OverduePrefix(s.offers, s.now, expired, ids);
      ExpiriesSettle(c, s, expired[..|ids| - 1], ids[..|ids| - 1]);
      ExpiriesStep(c, s, ids);
      ExpireNext(c, s, expired, ids);
    }
  }

  lemma ReassignIgnoresSettling(c: Couriers, offer: Offer)
    ensures Reassign(c, offer.(settled := true)) == Reassign(c, offer)
  {
  }

  lemma ExpiriesStep(c: Couriers, s: State, ids: seq<string>)
    requires ids != []
    ensures var n := |ids| - 1;
            var before := ExecuteFrom(c, s, Expiries(ids[..n]));
            ExecuteFrom(c, s, Expiries(ids)) == if before == None then None else Next(c, before.value, Expire(ids[n]))
  {
    hide Next;
    assert Expiries(ids)[..|ids| - 1] == Expiries(ids[..|ids| - 1]);
  }

  lemma StartedStep(c: Couriers, tasks: map<nat, Task>, next: nat, expired: seq<Offer>)
    requires expired != []
    ensures var last := |expired| - 1;
            Started(c, tasks, next, expired)
            == Started(c, tasks, next, expired[..last])[next + last := Reassign(c, expired[last])]
  {
    hide Reassign;
  }

  /** Sweeping, as the class does it, is a run of expire steps: the same offers, and one task for each
      offer it returns. */
  lemma SweepIsExpiries(c: Couriers, s: State, expired: seq<Offer>, ids: seq<string>)
    requires AreOverdue(s.offers, s.now, expired, ids)
    requires forall d | d in s.offers && Overdue(s.offers[d], s.now) :: d in ids
    ensures ExecuteFrom(c, s, Expiries(ids))
         == Some(s.(offers := Swept(s.offers, s.now), tasks := Started(c, s.tasks, s.nextTask, expired),
                    nextTask := s.nextTask + |ids|))
  {
    hide ExecuteFrom, Started, SettledAll;
    ExpiriesSettle(c, s, expired, ids);
    SettledAllIs(s.offers, ids);
    assert SettledAll(s.offers, ids) == Swept(s.offers, s.now);
  }
}
