// The offers dispatch keeps per delivery, as functions on the map and as the class that updates it.
module Dispatch {
  import opened Wrappers

  const DECISION_TIMEOUT_MS := 3000

  /** The request itself is its delivery id. */
  datatype Offer = Offer(deliveryId: string, candidateIndex: nat, attempt: nat, deadline: int, settled: bool)

  datatype Decision = Decision(deliveryId: string, courierId: string, attempt: nat, accepted: bool)

  type Offers = map<string, Offer>

  function LastAttempt(offers: Offers, deliveryId: string): nat {
    if deliveryId in offers then offers[deliveryId].attempt else 0
  }

  /** A new offer takes the next attempt number of its delivery. */
  function Record(offers: Offers, deliveryId: string, index: nat, deadline: int): Offers {
    offers[deliveryId := Offer(deliveryId, index, LastAttempt(offers, deliveryId) + 1, deadline, false)]
  }

  /** The open offer a decision for this attempt answers; None when the decision is stale. */
  function Answered(offers: Offers, deliveryId: string, attempt: nat): Option<Offer> {
    if deliveryId !in offers || offers[deliveryId].settled || offers[deliveryId].attempt != attempt then None
    else Some(offers[deliveryId])
  }

  predicate Overdue(offer: Offer, now: int) {
    !offer.settled && offer.deadline <= now
  }

  function Settled(offers: Offers, deliveryId: string): Offers
    requires deliveryId in offers
  {
    offers[deliveryId := offers[deliveryId].(settled := true)]
  }

  /** The offers with every overdue one settled. */
  function Swept(offers: Offers, now: int): Offers {
    map d | d in offers :: if Overdue(offers[d], now) then offers[d].(settled := true) else offers[d]
  }

  /** Offers listed once each, settled, that were overdue. */
  ghost predicate AreOverdue(offers: Offers, now: int, expired: seq<Offer>, ids: seq<string>) {
    && |ids| == |expired|
    && (forall i | 0 <= i < |ids| ::
          ids[i] in offers && Overdue(offers[ids[i]], now) && expired[i] == offers[ids[i]].(settled := true))
    && (forall i, j | 0 <= i < j < |ids| :: ids[i] != ids[j])
  }

  lemma NoneOverdue(offers: Offers, now: int)
    ensures AreOverdue(offers, now, [], [])
  {
  }

  lemma OneMoreOverdue(offers: Offers, now: int, expired: seq<Offer>, ids: seq<string>, d: string)
    requires AreOverdue(offers, now, expired, ids) && d in offers && Overdue(offers[d], now) && d !in ids
    ensures AreOverdue(offers, now, expired + [offers[d].(settled := true)], ids + [d])
  {
  }

  class DispatchState {
    var offers: Offers
    var pendingAssignments: seq<string>
    var pendingDecisions: seq<Decision>

    constructor ()
      ensures offers == map[] && pendingAssignments == [] && pendingDecisions == []
    {
      offers, pendingAssignments, pendingDecisions := map[], [], [];
    }

    method EnqueueAssignment(deliveryId: string)
      modifies this`pendingAssignments
      ensures pendingAssignments == old(pendingAssignments) + [deliveryId]
    {
      pendingAssignments := pendingAssignments + [deliveryId];
    }

    method EnqueueDecision(decision: Decision)
      modifies this`pendingDecisions
      ensures pendingDecisions == old(pendingDecisions) + [decision]
    {
      pendingDecisions := pendingDecisions + [decision];
    }

    /** Everything that waited is handed over once and in order. */
    method TakePending() returns (assignments: seq<string>, decisions: seq<Decision>)
      modifies this`pendingAssignments, this`pendingDecisions
      ensures assignments == old(pendingAssignments) && decisions == old(pendingDecisions)
      ensures pendingAssignments == [] && pendingDecisions == []
    {
      assignments, decisions := pendingAssignments, pendingDecisions;
      pendingAssignments, pendingDecisions := [], [];
    }

    method MakeOffer(deliveryId: string, index: nat, now: int) returns (attempt: nat)
      modifies this`offers
      ensures offers == Record(old(offers), deliveryId, index, now + DECISION_TIMEOUT_MS)
      ensures attempt == LastAttempt(old(offers), deliveryId) + 1 && Answered(offers, deliveryId, attempt).Some?
    {
      attempt := (if deliveryId in offers then offers[deliveryId].attempt else 0) + 1;
      offers := offers[deliveryId := Offer(deliveryId, index, attempt, now + DECISION_TIMEOUT_MS, false)];
    }

    /** A decision closes the offer it answers, and only once. */
    method Settle(deliveryId: string, attempt: nat) returns (offer: Option<Offer>)
      modifies this`offers
      ensures var open := Answered(old(offers), deliveryId, attempt);
              if open.None? then offer == None && offers == old(offers)
              else offer == Some(open.value.(settled := true)) && offers == Settled(old(offers), deliveryId)
      ensures Answered(offers, deliveryId, attempt) == None
    {
      if deliveryId !in offers || offers[deliveryId].settled || offers[deliveryId].attempt != attempt { return None; }
      offers := offers[deliveryId := offers[deliveryId].(settled := true)];
      offer := Some(offers[deliveryId]);
    }

    /** Every overdue offer is settled and returned, each delivery's once; nothing else changes. */
    method Expired(now: int) returns (expired: seq<Offer>, ghost ids: seq<string>)
      modifies this`offers
      ensures offers == Swept(old(offers), now)
      ensures AreOverdue(old(offers), now, expired, ids)
      ensures forall d | d in old(offers) && Overdue(old(offers)[d], now) :: d in ids
    {
      hide AreOverdue;
      expired, ids := [], [];
      assert AreOverdue(offers, now, [], []) by { NoneOverdue(offers, now); }
      var left := offers.Keys;
      while left != {}
        invariant offers.Keys == old(offers).Keys && left <= old(offers).Keys
        invariant forall d | d in left :: offers[d] == old(offers)[d] && d !in ids
        invariant forall d | d in old(offers) && d !in left :: offers[d] == Swept(old(offers), now)[d]
        invariant forall d | d in old(offers) && d !in left && Overdue(old(offers)[d], now) :: d in ids
        invariant AreOverdue(old(offers), now, expired, ids)
        decreases left
      {
        var d :| d in left;
        if !offers[d].settled && offers[d].deadline <= now {
          OneMoreOverdue(old(offers), now, expired, ids, d);
          offers := offers[d := offers[d].(settled := true)];
          expired, ids := expired + [offers[d]], ids + [d];
        }
        left := left - {d};
      }
    }

    method Close(deliveryId: string)
      modifies this`offers
      ensures offers == old(offers) - {deliveryId}
      ensures forall attempt :: Answered(offers, deliveryId, attempt) == None
    {
      offers := offers - {deliveryId};
    }
  }

  /** What an actor of a courier keeps: the attempt last offered per delivery. */
  class CourierActor {
    var offeredAttempts: map<string, nat>

    constructor ()
      ensures offeredAttempts == map[]
    {
      offeredAttempts := map[];
    }

    method OfferDelivery(deliveryId: string, attempt: nat)
      modifies this`offeredAttempts
      ensures offeredAttempts == old(offeredAttempts)[deliveryId := attempt]
    {
      offeredAttempts := offeredAttempts[deliveryId := attempt];
    }

    /** An offer is answered once, with the attempt the actor kept and the courier id the client
        claims; without an offer there is no answer. */
    method CourierDecision(deliveryId: string, claimedId: string, accepted: bool) returns (answer: Option<Decision>)
      modifies this`offeredAttempts
      ensures if deliveryId in old(offeredAttempts)
              then answer == Some(Decision(deliveryId, claimedId, old(offeredAttempts)[deliveryId], accepted))
              else answer == None
      ensures offeredAttempts == old(offeredAttempts) - {deliveryId}
    {
      if deliveryId !in offeredAttempts {
        assert offeredAttempts == offeredAttempts - {deliveryId};
        return None;
      }
      answer := Some(Decision(deliveryId, claimedId, offeredAttempts[deliveryId], accepted));
      offeredAttempts := offeredAttempts - {deliveryId};
    }
  }
}
