// What a decision, an expiry and an assignment bring about: the statuses published and the offers sent,
// in every run in which no await of the continuation they start is lost.
module DispatchEffects {
  import opened Wrappers
  import opened Dispatch
  import opened DispatchProtocol
  import opened DispatchProofs
  import opened DispatchCounts

  /** No await of the task is lost or refused in these steps. */
  predicate Undisturbed(steps: seq<Label>, n: nat) {
    forall i | 0 <= i < |steps| :: steps[i].Run? && steps[i].task == n ==> steps[i].outcome == Done
  }

  // ---- Steps of others ---------------------------------------------------------------------------

  lemma OtherTaskStays(c: Couriers, s: State, t: nat, outcome: Outcome, n: nat)
    requires t in s.tasks && t != n && RunTask(c, s, t, outcome).Some?
    ensures var u := RunTask(c, s, t, outcome).value;
            && u.nextTask == s.nextTask && (n in u.tasks <==> n in s.tasks)
            && (n in u.tasks ==> u.tasks[n] == s.tasks[n])
  {
    hide CourierAt, AfterPublish, Record, LogOf;
  }

  /** A step of another task leaves a task as it is. */
  lemma TaskStays(c: Couriers, s: State, l: Label, n: nat)
    requires QueueOk(s) && n < s.nextTask && Next(c, s, l).Some? && !(l.Run? && l.task == n)
    ensures var t := Next(c, s, l).value;
            && n < t.nextTask && (n in t.tasks <==> n in s.tasks) && (n in t.tasks ==> t.tasks[n] == s.tasks[n])
  {
    hide RunTask, Reassign, Without, Settled, Answered, Overdue;
    if l.Run? {
      OtherTaskStays(c, s, l.task, l.outcome, n);
    }
  }

  lemma SentStays(c: Couriers, s: State, l: Label)
    requires Next(c, s, l).Some?
    ensures s.sent <= Next(c, s, l).value.sent
  {
    hide CourierAt, AfterPublish, Reassign, Without, Record, Settled, Answered;
  }

  /** Offers alone are no ending. */
  lemma OfferedIsNotComplete(c: Couriers, k: nat)
    requires k < |c|
    ensures !Complete(c, Offered(c, k))
  {
    OfferedEntries(c, k);
    OfferedEntries(c, |c| - 1);
    hide Offered, CourierAt;
    forall i: nat | i < |c| ensures Offered(c, k) != Success(c, i) {
      SuccessEntries(c, i);
      hide Success;
      assert Success(c, i)[i + 1].status == Accepted;
    }
    assert Failure(c)[|c|].status == Failed;
  }

  /** Only making an offer of a delivery adds it to the offers. */
  lemma OffersComeFromMaking(c: Couriers, s: State, l: Label, d: string)
    requires Next(c, s, l).Some? && d !in s.offers && !MakesOffer(s, l, d)
    ensures d !in Next(c, s, l).value.offers
  {
    hide CourierAt, AfterPublish, Reassign, Without, LogOf;
  }

  /** The log of a delivery that has ended stays as it is, and no offer of it is made any more. */
  lemma EndedStays(c: Couriers, s: State, l: Label, d: string)
    requires Inv(c, s) && Next(c, s, l).Some? && Complete(c, LogOf(s, d))
    ensures LogOf(Next(c, s, l).value, d) == LogOf(s, d)
    ensures d !in s.offers ==> d !in Next(c, s, l).value.offers
  {
    hide LegalLog, Complete, Justified, OneHolder, OfferOk, NetworkOk, Offered, CourierAt, QueueOk, Next;
    var t := Next(c, s, l).value;
    StepKeeps(c, s, l);
    LogsOnlyGrow(c, s, l, d);
    assert DeliveryOk(c, t, d) && DeliveryOk(c, s, d);
    NothingAfterTheEnd(c, LogOf(s, d), LogOf(t, d));
    if MakesOffer(s, l, d) {
      assert Holds(s, d, Running(l.task)) && Ready(c, s, d, Running(l.task));
      OfferedIsNotComplete(c, s.tasks[l.task].index);
    } else if d !in s.offers {
      OffersComeFromMaking(c, s, l, d);
    }
  }

  // ---- Endings ---------------------------------------------------------------------------------------

  /** How far a task has come that publishes the rest of a delivery's statuses and closes it. */
  ghost predicate Concluding(c: Couriers, s: State, d: string, n: nat, log: seq<Entry>) {
    && n < s.nextTask && Complete(c, log)
    && if n !in s.tasks then LogOf(s, d) == log && d !in s.offers
       else
         match s.tasks[n]
         case Publish(e, Failed, _) => e == d && log == Failure(c)
         case Publish(e, status, k) =>
           e == d && k < |c| && log == Success(c, k)
           && (status == Accepted || status == PickedUp || status == Delivered)
         case Closing(e) => e == d && LogOf(s, d) == log
         case _ => false
  }

  lemma ConcludingRuns(c: Couriers, s: State, d: string, n: nat, log: seq<Entry>)
    requires Inv(c, s) && Concluding(c, s, d, n, log) && n in s.tasks
    ensures RunTask(c, s, n, Done).Some? && Concluding(c, RunTask(c, s, n, Done).value, d, n, log)
  {
    hide LegalLog, Justified, OneHolder, OfferOk, NetworkOk, Offered, QueueOk, Complete;
    assert DeliveryOk(c, s, d) && Holds(s, d, Running(n)) && Ready(c, s, d, Running(n));
  }

  lemma ConcludingStep(c: Couriers, s: State, l: Label, d: string, n: nat, log: seq<Entry>)
    requires Inv(c, s) && Concluding(c, s, d, n, log) && Next(c, s, l).Some? && Undisturbed([l], n)
    ensures Concluding(c, Next(c, s, l).value, d, n, log)
  {
    hide Inv, Complete, Success, Failure, RunTask, CourierAt;
    assert [l][0] == l;
    if l.Run? && l.task == n {
      ConcludingRuns(c, s, d, n, log);
    } else {
      assert QueueOk(s) by { InvParts(c, s); }
      TaskStays(c, s, l, n);
      if LogOf(s, d) == log {
        EndedStays(c, s, l, d);
      }
    }
  }

  lemma InvParts(c: Couriers, s: State)
    requires Inv(c, s)
    ensures QueueOk(s) && NetworkOk(c, s)
  {
    hide QueueOk, NetworkOk, DeliveryOk;
  }

  lemma {:induction false} ConcludingRun(c: Couriers, s: State, steps: seq<Label>, d: string, n: nat, log: seq<Entry>)
    requires Inv(c, s) && Concluding(c, s, d, n, log) && ExecuteFrom(c, s, steps).Some? && Undisturbed(steps, n)
    ensures Inv(c, ExecuteFrom(c, s, steps).value) && Concluding(c, ExecuteFrom(c, s, steps).value, d, n, log)
  {
    hide Inv, Concluding, Next;
    if steps != [] {
      var front, last := steps[..|steps| - 1], steps[|steps| - 1];
      ConcludingRun(c, s, front, d, n, log);
      assert Undisturbed([last], n);
      ConcludingStep(c, ExecuteFrom(c, s, front).value, last, d, n, log);
      StepKeeps(c, ExecuteFrom(c, s, front).value, last);
    }
  }

  // ---- Offers ------------------------------------------------------------------------------------------

  /** How far a task has come that offers a delivery to candidate i. */
  ghost predicate Offering(c: Couriers, s: State, d: string, n: nat, i: nat) {
    && n < s.nextTask && i < |c|
    && if n !in s.tasks then Offered(c, i) <= LogOf(s, d) && OfferMsg(c[i], d, i + 1) in s.sent
       else
         match s.tasks[n]
         case Publish(e, status, k) => e == d && k == i && status == if i == 0 then Assigned else Reassigned
         case MakeOffer(e, k) => e == d && k == i
         case Send(e, k, attempt) => e == d && k == i && attempt == i + 1 && Offered(c, i) <= LogOf(s, d)
         case Closing(_) => false
  }

  lemma OfferingRuns(c: Couriers, s: State, d: string, n: nat, i: nat)
    requires Inv(c, s) && Offering(c, s, d, n, i) && n in s.tasks
    ensures RunTask(c, s, n, Done).Some? && Offering(c, RunTask(c, s, n, Done).value, d, n, i)
  {
    hide LegalLog, Justified, OneHolder, NetworkOk, Offered, QueueOk;
    assert DeliveryOk(c, s, d);
    if !s.tasks[n].Send? {
      assert Holds(s, d, Running(n)) && Ready(c, s, d, Running(n));
    }
  }

  lemma OfferingStep(c: Couriers, s: State, l: Label, d: string, n: nat, i: nat)
    requires Inv(c, s) && Offering(c, s, d, n, i) && Next(c, s, l).Some? && Undisturbed([l], n)
    ensures Offering(c, Next(c, s, l).value, d, n, i)
  {
    hide Inv, Offered, RunTask, CourierAt;
    assert [l][0] == l;
    if l.Run? && l.task == n {
      OfferingRuns(c, s, d, n, i);
    } else {
      assert QueueOk(s) by { InvParts(c, s); }
      TaskStays(c, s, l, n);
      LogsOnlyGrow(c, s, l, d);
      SentStays(c, s, l);
    }
  }

  lemma {:induction false} OfferingRun(c: Couriers, s: State, steps: seq<Label>, d: string, n: nat, i: nat)
    requires Inv(c, s) && Offering(c, s, d, n, i) && ExecuteFrom(c, s, steps).Some? && Undisturbed(steps, n)
    ensures Inv(c, ExecuteFrom(c, s, steps).value) && Offering(c, ExecuteFrom(c, s, steps).value, d, n, i)
  {
    hide Inv, Offering, Next;
    if steps != [] {
      var front, last := steps[..|steps| - 1], steps[|steps| - 1];
      OfferingRun(c, s, front, d, n, i);
      assert Undisturbed([last], n);
      OfferingStep(c, ExecuteFrom(c, s, front).value, last, d, n, i);
      StepKeeps(c, ExecuteFrom(c, s, front).value, last);
    }
  }

  // ---- Every continuation comes to its end -----------------------------------------------------------------

  /** The awaits a task has before it when none fails. */
  function Left(task: Task): nat {
    match task
    case Publish(_, Assigned, _) => 3
    case Publish(_, Reassigned, _) => 3
    case Publish(_, Accepted, index) => if index == 0 then 4 else 3
    case Publish(_, PickedUp, _) => 3
    case Publish(_, Delivered, _) => 2
    case Publish(_, Failed, _) => 2
    case MakeOffer(_, _) => 2
    case Send(_, _, _) => 1
    case Closing(_) => 1
  }

  /** These many awaits of the task, one after another, none lost. */
  function Awaits(n: nat, count: nat): seq<Label> {
    seq(count, _ => Run(n, Done))
  }

  lemma {:induction false} StepFirst(c: Couriers, s: State, l: Label, rest: seq<Label>)
    requires Next(c, s, l).Some?
    ensures ExecuteFrom(c, s, [l] + rest) == ExecuteFrom(c, Next(c, s, l).value, rest)
    decreases |rest|
  {
    hide Next;
    if rest == [] {
      assert [l] + rest == [l] && [l][..0] == [];
      assert ExecuteFrom(c, s, [l][..0]) == Some(s);
    } else {
      var all := [l] + rest;
      assert all[..|all| - 1] == [l] + rest[..|rest| - 1];
      StepFirst(c, s, l, rest[..|rest| - 1]);
    }
  }

  lemma OneAwait(c: Couriers, s: State, n: nat)
    requires n in s.tasks
    ensures var t := Next(c, s, Run(n, Done));
            t.Some? && t.value.nextTask == s.nextTask
            && if Left(s.tasks[n]) == 1 then n !in t.value.tasks
               else n in t.value.tasks && Left(t.value.tasks[n]) == Left(s.tasks[n]) - 1
  {
    hide CourierAt, Record, LogOf;
  }

  lemma {:induction false} RunsToItsEnd(c: Couriers, s: State, n: nat)
    requires n in s.tasks
    ensures var end := ExecuteFrom(c, s, Awaits(n, Left(s.tasks[n])));
            end.Some? && n !in end.value.tasks
    decreases Left(s.tasks[n])
  {
    hide Next, Left;
    OneAwait(c, s, n);
    var t := Next(c, s, Run(n, Done)).value;
    var left := Left(s.tasks[n]);
    AtLeastOne(s.tasks[n]);
    assert Awaits(n, left) == [Run(n, Done)] + Awaits(n, left - 1);
    StepFirst(c, s, Run(n, Done), Awaits(n, left - 1));
    if left == 1 {
      assert Awaits(n, 0) == [];
    } else {
      RunsToItsEnd(c, t, n);
    }
  }

  lemma AtLeastOne(task: Task)
    ensures 1 <= Left(task) <= 4
  {
  }

  // ---- Decisions -----------------------------------------------------------------------------------------

  /** The decision answers the delivery's open offer. */
  ghost predicate AnswersOpen(s: State, a: Decision) {
    a.deliveryId in s.offers && !s.offers[a.deliveryId].settled && s.offers[a.deliveryId].attempt == a.attempt
  }

  lemma SuccessIsComplete(c: Couriers, k: nat)
    requires k < |c|
    ensures Complete(c, Success(c, k)) && Complete(c, Failure(c))
  {
    hide Success, Failure;
  }

  /** The state after a decision that answers the open offer, and the task it starts. */
  lemma DecideStarts(c: Couriers, s: State, k: nat)
    requires Inv(c, s) && k < |s.decisions| && AnswersOpen(s, s.decisions[k])
    ensures var a, t := s.decisions[k], Next(c, s, Decide(k));
            var i := s.offers[a.deliveryId].candidateIndex;
            && t.Some? && Inv(c, t.value) && i < |c| && t.value.now == s.now
            && s.nextTask in t.value.tasks && t.value.tasks[s.nextTask].Publish?
            && (a.accepted ==> Concluding(c, t.value, a.deliveryId, s.nextTask, Success(c, i)))
            && (!a.accepted && i + 1 < |c| ==> Offering(c, t.value, a.deliveryId, s.nextTask, i + 1))
            && (!a.accepted && i + 1 >= |c| ==> Concluding(c, t.value, a.deliveryId, s.nextTask, Failure(c)))
  {
    hide LegalLog, Justified, OneHolder, NetworkOk, Offered, QueueOk, Complete, Success, Failure, Ready, Without;
    var d := s.decisions[k].deliveryId;
    assert DeliveryOk(c, s, d);
    DecideKeeps(c, s, k);
    SuccessIsComplete(c, s.offers[d].candidateIndex);
  }

  lemma ExpireStarts(c: Couriers, s: State, d: string)
    requires Inv(c, s) && d in s.offers && !s.offers[d].settled && s.offers[d].deadline <= s.now
    ensures var t, i := Next(c, s, Expire(d)), s.offers[d].candidateIndex;
            && t.Some? && Inv(c, t.value) && i < |c| && t.value.now == s.now
            && s.nextTask in t.value.tasks && t.value.tasks[s.nextTask].Publish?
            && (i + 1 < |c| ==> Offering(c, t.value, d, s.nextTask, i + 1))
            && (i + 1 >= |c| ==> Concluding(c, t.value, d, s.nextTask, Failure(c)))
  {
    hide LegalLog, Justified, OneHolder, NetworkOk, Offered, QueueOk, Complete, Success, Failure, Ready;
    assert DeliveryOk(c, s, d);
    ExpireKeeps(c, s, d);
    SuccessIsComplete(c, 0);
  }

  // ---- What the continuations bring about --------------------------------------------------------------

  /** Whatever happens meanwhile, a task that has ended without a lost await leaves these statuses and no
      offer; and it ends within four awaits of its own. */
  ghost predicate Concludes(c: Couriers, s: State, n: nat, d: string, log: seq<Entry>) {
    && (forall more | ExecuteFrom(c, s, more).Some? && Undisturbed(more, n)
                      && n !in ExecuteFrom(c, s, more).value.tasks ::
          LogOf(ExecuteFrom(c, s, more).value, d) == log && d !in ExecuteFrom(c, s, more).value.offers)
    && Ends(c, s, n)
  }

  ghost predicate Ends(c: Couriers, s: State, n: nat) {
    exists count: nat | count <= 4 ::
      ExecuteFrom(c, s, Awaits(n, count)).Some? && n !in ExecuteFrom(c, s, Awaits(n, count)).value.tasks
  }

  /** Whatever happens meanwhile, a task that has ended without a lost await has assigned the delivery up to
      candidate i and sent that candidate its attempt. With no step in between the offer is open then, and can
      be swept away exactly when three seconds have passed. */
  ghost predicate OffersTo(c: Couriers, s: State, n: nat, d: string, i: nat)
    requires i < |c|
  {
    && (forall more | ExecuteFrom(c, s, more).Some? && Undisturbed(more, n)
                      && n !in ExecuteFrom(c, s, more).value.tasks ::
          Offered(c, i) <= LogOf(ExecuteFrom(c, s, more).value, d)
          && OfferMsg(c[i], d, i + 1) in ExecuteFrom(c, s, more).value.sent)
    && var end := ExecuteFrom(c, s, Awaits(n, 3));
       end.Some? && n !in end.value.tasks && LogOf(end.value, d) == Offered(c, i)
       && d in end.value.offers && end.value.offers[d] == Offer(d, i, i + 1, s.now + 3000, false)
       && forall ms: nat :: Next(c, Next(c, end.value, Tick(ms)).value, Expire(d)).Some? <==> ms >= 3000
  }

  lemma ConcludingEnds(c: Couriers, s: State, d: string, n: nat, log: seq<Entry>)
    requires Inv(c, s) && Concluding(c, s, d, n, log) && n in s.tasks
    ensures Concludes(c, s, n, d, log)
  {
    hide Inv, ExecuteFrom, Complete, Left;
    forall more | ExecuteFrom(c, s, more).Some? && Undisturbed(more, n)
                  && n !in ExecuteFrom(c, s, more).value.tasks
      ensures LogOf(ExecuteFrom(c, s, more).value, d) == log && d !in ExecuteFrom(c, s, more).value.offers
    {
      ConcludingRun(c, s, more, d, n, log);
    }
    RunsToItsEnd(c, s, n);
    AtLeastOne(s.tasks[n]);
  }

  lemma PublishAwait(c: Couriers, s: State, n: nat)
    requires n in s.tasks && s.tasks[n].Publish?
    ensures var Publish(d, status, i) := s.tasks[n];
            Next(c, s, Run(n, Done))
            == Some(s.(log := s.log[d := LogOf(s, d) + [Entry(status, CourierAt(c, i))]],
                       tasks := s.tasks[n := AfterPublish(d, status, i)]))
  {
    hide CourierAt, LogOf, AfterPublish;
  }

  lemma OfferedAtOnce(c: Couriers, s: State, d: string, n: nat, i: nat)
    requires Inv(c, s) && Offering(c, s, d, n, i) && n in s.tasks && s.tasks[n].Publish?
    ensures var end := ExecuteFrom(c, s, Awaits(n, 3));
            end.Some? && n !in end.value.tasks && LogOf(end.value, d) == Offered(c, i)
            && d in end.value.offers && end.value.offers[d] == Offer(d, i, i + 1, s.now + 3000, false)
            && end.value.now == s.now
  {
    hide LegalLog, Justified, OneHolder, NetworkOk, QueueOk, ExecuteFrom;
    assert DeliveryOk(c, s, d) && Holds(s, d, Running(n)) && Ready(c, s, d, Running(n));
    hide Inv, DeliveryOk, Ready;
    PublishAwait(c, s, n);
    var s1 := Next(c, s, Run(n, Done)).value;
    assert LogOf(s1, d) == Offered(c, i);
    hide Offered;
    var s2 := Next(c, s1, Run(n, Done)).value;
    var s3 := Next(c, s2, Run(n, Done)).value;
    StepFirst(c, s, Run(n, Done), Awaits(n, 2));
    StepFirst(c, s1, Run(n, Done), Awaits(n, 1));
    StepFirst(c, s2, Run(n, Done), Awaits(n, 0));
    assert Awaits(n, 3) == [Run(n, Done)] + Awaits(n, 2) && Awaits(n, 2) == [Run(n, Done)] + Awaits(n, 1);
    assert Awaits(n, 1) == [Run(n, Done)] + Awaits(n, 0) && Awaits(n, 0) == [];
    NoStep(c, s3);
  }

  lemma NoStep(c: Couriers, s: State)
    ensures ExecuteFrom(c, s, []) == Some(s)
  {
  }

  lemma OfferingEnds(c: Couriers, s: State, d: string, n: nat, i: nat)
    requires Inv(c, s) && Offering(c, s, d, n, i) && n in s.tasks && s.tasks[n].Publish?
    ensures OffersTo(c, s, n, d, i)
  {
    hide Inv, ExecuteFrom, Offered;
    forall more | ExecuteFrom(c, s, more).Some? && Undisturbed(more, n)
                  && n !in ExecuteFrom(c, s, more).value.tasks
      ensures Offered(c, i) <= LogOf(ExecuteFrom(c, s, more).value, d)
              && OfferMsg(c[i], d, i + 1) in ExecuteFrom(c, s, more).value.sent
    {
      OfferingRun(c, s, more, d, n, i);
    }
    OfferedAtOnce(c, s, d, n, i);
    var end := ExecuteFrom(c, s, Awaits(n, 3)).value;
    forall ms: nat ensures Next(c, Next(c, end, Tick(ms)).value, Expire(d)).Some? <==> ms >= 3000 {
      SweptAfter(c, end, d, ms);
    }
  }

  lemma SweptAfter(c: Couriers, s: State, d: string, ms: nat)
    requires d in s.offers && !s.offers[d].settled && s.offers[d].deadline == s.now + 3000
    ensures Next(c, Next(c, s, Tick(ms)).value, Expire(d)).Some? <==> ms >= 3000
  {
    hide Reassign;
  }

  /** In every reachable state, deciding an accepted answer to the open offer of candidate i publishes the
      success by that candidate, whatever else happens meanwhile, and erases the offer. */
  lemma AcceptanceTakesEffect(c: Couriers, steps: seq<Label>, k: nat)
    requires Execute(c, steps).Some? && k < |Execute(c, steps).value.decisions|
    requires var s := Execute(c, steps).value; AnswersOpen(s, s.decisions[k]) && s.decisions[k].accepted
    ensures var s := Execute(c, steps).value;
            var d, decided := s.decisions[k].deliveryId, Next(c, s, Decide(k));
            decided.Some? && Concludes(c, decided.value, s.nextTask, d, Success(c, s.offers[d].candidateIndex))
  {
    hide Execute, Inv, Concluding, Concludes, Success;
    RunKeeps(c, steps);
    var s := Execute(c, steps).value;
    var d := s.decisions[k].deliveryId;
    DecideStarts(c, s, k);
    ConcludingEnds(c, Next(c, s, Decide(k)).value, d, s.nextTask, Success(c, s.offers[d].candidateIndex));
  }

  /** The step refuses or sweeps away the open offer of a delivery. */
  ghost predicate Declines(s: State, l: Label, d: string) {
    match l
    case Decide(k) =>
      k < |s.decisions| && AnswersOpen(s, s.decisions[k]) && !s.decisions[k].accepted && s.decisions[k].deliveryId == d
    case Expire(e) => e == d && d in s.offers && !s.offers[d].settled && s.offers[d].deadline <= s.now
    case _ => false
  }

  /** In every reachable state, a refused or overdue open offer goes on to the next candidate under the next
      attempt, and after the last candidate the failure is published and the offer erased, whatever else
      happens meanwhile. */
  lemma DecliningTakesEffect(c: Couriers, steps: seq<Label>, l: Label, d: string)
    requires Execute(c, steps).Some? && Declines(Execute(c, steps).value, l, d) && d in Execute(c, steps).value.offers
    ensures var s := Execute(c, steps).value;
            var i, declined := s.offers[d].candidateIndex, Next(c, s, l);
            && declined.Some? && declined.value.now == s.now
            && if i + 1 < |c| then OffersTo(c, declined.value, s.nextTask, d, i + 1)
               else Concludes(c, declined.value, s.nextTask, d, Failure(c))
  {
    hide Execute, Inv, Concluding, Concludes, Offering, OffersTo, Failure, Next;
    RunKeeps(c, steps);
    var s := Execute(c, steps).value;
    if l.Decide? {
      DecideStarts(c, s, l.k);
    } else {
      ExpireStarts(c, s, d);
    }
    if s.offers[d].candidateIndex + 1 < |c| {
      OfferingEnds(c, Next(c, s, l).value, d, s.nextTask, s.offers[d].candidateIndex + 1);
    } else {
      ConcludingEnds(c, Next(c, s, l).value, d, s.nextTask, Failure(c));
    }
  }

  /** An assignment that arrives waits to be begun; beginning it assigns the delivery to the first candidate
      and offers it under attempt 1. */
  lemma AssignmentTakesEffect(c: Couriers, steps: seq<Label>, k: nat)
    requires Execute(c, steps).Some?
    ensures var s := Execute(c, steps).value;
            && (forall d | d !in s.admitted ::
                  Next(c, s, Assign(d)).Some? && Next(c, s, Assign(d)).value.pending == s.pending + [d])
            && (k < |s.pending| ==>
                  Next(c, s, Begin(k)).Some?
                  && OffersTo(c, Next(c, s, Begin(k)).value, s.nextTask, s.pending[k], 0))
  {
    hide Execute, Inv, OffersTo, Offering;
    RunKeeps(c, steps);
    var s := Execute(c, steps).value;
    if k < |s.pending| {
      BeginStarts(c, s, k);
      OfferingEnds(c, Next(c, s, Begin(k)).value, s.pending[k], s.nextTask, 0);
    }
  }

  lemma BeginStarts(c: Couriers, s: State, k: nat)
    requires Inv(c, s) && k < |s.pending|
    ensures var t := Next(c, s, Begin(k)).value;
            && Inv(c, t) && Offering(c, t, s.pending[k], s.nextTask, 0)
            && s.nextTask in t.tasks && t.tasks[s.nextTask].Publish?
  {
    hide Inv, Without, Offered;
    BeginKeeps(c, s, k);
  }

  /** A refused await leaves only its task's end behind; one whose reply is lost has taken effect, and ends its
      task as well. */
  lemma LostAwaitsEnd(c: Couriers, s: State, n: nat)
    requires n in s.tasks && (s.tasks[n].Publish? || s.tasks[n].Send?)
    ensures var d, i := s.tasks[n].deliveryId, s.tasks[n].index;
            var refused, lost := Next(c, s, Run(n, Refused)), Next(c, s, Run(n, Unanswered));
            && refused == Some(s.(tasks := s.tasks - {n}))
            && lost.Some? && lost.value.tasks == s.tasks - {n} && lost.value.offers == s.offers
            && (forall e | e != d :: LogOf(lost.value, e) == LogOf(s, e))
            && if s.tasks[n].Publish?
               then LogOf(lost.value, d) == LogOf(s, d) + [Entry(s.tasks[n].status, CourierAt(c, i))]
                    && lost.value.sent == s.sent
               else LogOf(lost.value, d) == LogOf(s, d)
                    && lost.value.sent == s.sent + {OfferMsg(CourierAt(c, i), d, s.tasks[n].attempt)}
  {
    hide CourierAt, AfterPublish;
  }

  // ---- From the offer to the decision ----------------------------------------------------------------------

  /** An offer that was sent and is still open can be delivered, answered and its answer delivered; the
      answer then waits last and answers the open offer, with whatever id the client claims. */
  lemma OfferCanBeAnswered(c: Couriers, s: State, d: string, claimed: string, accepted: bool)
    requires d in s.offers && !s.offers[d].settled && s.offers[d].candidateIndex < |c|
    requires OfferMsg(c[s.offers[d].candidateIndex], d, s.offers[d].attempt) in s.sent
    ensures var courier, attempt := c[s.offers[d].candidateIndex], s.offers[d].attempt;
            var answer := Decision(d, claimed, attempt, accepted);
            var steps := [DeliverOffer(OfferMsg(courier, d, attempt)), Choose(courier, d, claimed, accepted),
                          DeliverAnswer(answer)];
            var end := ExecuteFrom(c, s, steps);
            && end.Some? && end.value.decisions == s.decisions + [answer] && AnswersOpen(end.value, answer)
            && end.value.log == s.log && end.value.offers == s.offers
  {
    hide ExecuteFrom;
    var courier, attempt := c[s.offers[d].candidateIndex], s.offers[d].attempt;
    var deliver, choose := DeliverOffer(OfferMsg(courier, d, attempt)), Choose(courier, d, claimed, accepted);
    var answer := DeliverAnswer(Decision(d, claimed, attempt, accepted));
    var s1 := Next(c, s, deliver).value;
    var s2 := Next(c, s1, choose).value;
    var s3 := Next(c, s2, answer).value;
    StepFirst(c, s, deliver, [choose, answer]);
    StepFirst(c, s1, choose, [answer]);
    StepFirst(c, s2, answer, []);
    NoStep(c, s3);
    assert [deliver] + [choose, answer] == [deliver, choose, answer] && [choose] + [answer] == [choose, answer];
    assert [answer] + [] == [answer];
  }

  // ---- When an offer expires -----------------------------------------------------------------------------------

  /** The offer of this attempt, as long as it stands, has this deadline; no later attempt is lower. */
  ghost predicate Dated(s: State, d: string, attempt: nat, deadline: int) {
    && d in s.admitted
    && if d in s.offers then attempt <= s.offers[d].attempt
                             && (s.offers[d].attempt == attempt ==> s.offers[d].deadline == deadline)
       else forall h :: !Holds(s, d, h)
  }

  lemma DatedStep(c: Couriers, s: State, l: Label, d: string, attempt: nat, deadline: int)
    requires Inv(c, s) && Dated(s, d, attempt, deadline) && Next(c, s, l).Some?
    ensures Dated(Next(c, s, l).value, d, attempt, deadline)
  {
    hide Next, DeliveryOk, Holds, QueueOk, NetworkOk;
    var t := Next(c, s, l).value;
    assert DeliveryOk(c, s, d);
    if MakesOffer(s, l, d) {
      RunIs(c, s, l);
      MakingDates(c, s, l.task, d);
    } else if l.Run? && l.task in s.tasks && s.tasks[l.task] == Closing(d) {
      RunIs(c, s, l);
      ClosingEnds(c, s, l.task, d);
      ClosingTakes(c, s, l.task, d);
    } else {
      DeadlineStays(c, s, l, d);
      if d !in s.offers {
        forall h ensures !Holds(t, d, h) {
          if Holds(t, d, h) {
            var g := HolderFromHolder(c, s, l, d, h);
          }
        }
      }
    }
  }

  lemma MakingDates(c: Couriers, s: State, n: nat, d: string)
    requires n in s.tasks && s.tasks[n].MakeOffer? && s.tasks[n].deliveryId == d
    ensures Holds(s, d, Running(n))
    ensures var t := RunTask(c, s, n, Done).value;
            && t.admitted == s.admitted && d in t.offers && t.offers[d].attempt == LastAttempt(s.offers, d) + 1
            && t.offers[d].deadline == s.now + 3000 && !t.offers[d].settled && t.now == s.now
  {
  }

  /** A step other than closing or making an offer leaves the deadline of d alone. */
  lemma DeadlineStays(c: Couriers, s: State, l: Label, d: string)
    requires Next(c, s, l).Some? && !MakesOffer(s, l, d)
    requires !(l.Run? && l.task in s.tasks && s.tasks[l.task] == Closing(d))
    ensures var t := Next(c, s, l).value;
            && (d in t.offers <==> d in s.offers)
            && (d in t.offers ==> t.offers[d].attempt == s.offers[d].attempt
                                  && t.offers[d].deadline == s.offers[d].deadline)
            && s.admitted <= t.admitted
  {
    hide CourierAt, AfterPublish, Reassign, Without, LogOf;
  }

  lemma {:induction false} DatedRun(c: Couriers, s: State, more: seq<Label>, d: string, attempt: nat, deadline: int)
    requires Inv(c, s) && Dated(s, d, attempt, deadline) && ExecuteFrom(c, s, more).Some?
    ensures Inv(c, ExecuteFrom(c, s, more).value) && Dated(ExecuteFrom(c, s, more).value, d, attempt, deadline)
  {
    hide Inv, Dated, Next;
    if more != [] {
      var front, last := more[..|more| - 1], more[|more| - 1];
      DatedRun(c, s, front, d, attempt, deadline);
      DatedStep(c, ExecuteFrom(c, s, front).value, last, d, attempt, deadline);
      StepKeeps(c, ExecuteFrom(c, s, front).value, last);
    }
  }

  /** An offer made in any run, as long as it stands open, can be swept away exactly from three seconds
      after it was made. */
  lemma OfferExpiresExactly(c: Couriers, steps: seq<Label>, n: nat, d: string, more: seq<Label>)
    requires Execute(c, steps).Some? && MakesOffer(Execute(c, steps).value, Run(n, Done), d)
    requires ExecuteFrom(c, Next(c, Execute(c, steps).value, Run(n, Done)).value, more).Some?
    requires var s := Execute(c, steps).value;
             var end := ExecuteFrom(c, Next(c, s, Run(n, Done)).value, more).value;
             d in end.offers && !end.offers[d].settled && end.offers[d].attempt == LastAttempt(s.offers, d) + 1
    ensures var s := Execute(c, steps).value;
            var end := ExecuteFrom(c, Next(c, s, Run(n, Done)).value, more).value;
            Next(c, end, Expire(d)).Some? <==> end.now >= s.now + 3000
  {
    hide Execute, ExecuteFrom, Inv, Reassign, Holds;
    RunKeeps(c, steps);
    var s := Execute(c, steps).value;
    RunIs(c, s, Run(n, Done));
    MakingDates(c, s, n, d);
    assert d in s.admitted by { HeldIsAdmitted(c, s, d, Running(n)); }
    var made := Next(c, s, Run(n, Done)).value;
    StepKeeps(c, s, Run(n, Done));
    assert Dated(made, d, LastAttempt(s.offers, d) + 1, s.now + 3000);
    DatedRun(c, made, more, d, LastAttempt(s.offers, d) + 1, s.now + 3000);
  }

  lemma HeldIsAdmitted(c: Couriers, s: State, d: string, h: Holder)
    requires Inv(c, s) && Holds(s, d, h)
    ensures d in s.admitted
  {
    hide Holds, QueueOk, NetworkOk, LegalLog, Justified, OneHolder, Ready, OfferOk;
    assert DeliveryOk(c, s, d);
  }
}
