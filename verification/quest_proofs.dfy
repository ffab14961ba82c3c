// What every reachable quest stream keeps, and the exactly-once effect of at-least-once delivery.
module QuestProofs {
  import opened Wrappers
  import opened Quest

  // ---- One quest of a stream -------------------------------------------------------------

  ghost function ProgressOf(stream: seq<Stored>, q: string): Option<Progress> {
    FindProgress(Replay(stream), q)
  }

  ghost function Count(stream: seq<Stored>, q: string): int {
    if ProgressOf(stream, q).Some? then ProgressOf(stream, q).value.currentCount else 0
  }

  ghost function StatusOf(stream: seq<Stored>, q: string): Status {
    if ProgressOf(stream, q).Some? then ProgressOf(stream, q).value.status else Active
  }

  ghost function Required(q: string): int {
    if q == FIRST_HUNT then 3 else if q == HERB_GATHERING then 5 else 1
  }

  /** How often the stream rewards quest q. */
  ghost function Rewards(stream: seq<Stored>, q: string): nat {
    if stream == [] then 0
    else
      var last := stream[|stream| - 1];
      Rewards(stream[..|stream| - 1], q) + (if last.kind == RewardGranted && last.questId == q then 1 else 0)
  }

  /** A quest rests Active below its requirement and Rewarded at or above it, never in between,
      and was rewarded once exactly in the second case. */
  ghost predicate QuestOk(stream: seq<Stored>, q: string) {
    match ProgressOf(stream, q)
    case None => Rewards(stream, q) == 0
    case Some(p) =>
      && p.requiredCount == Required(q)
      && q in {FIRST_HUNT, HERB_GATHERING, VISIT_RUINS}
      && p.status == (if p.currentCount >= Required(q) then Rewarded else Active)
      && Rewards(stream, q) == (if p.currentCount >= Required(q) then 1 else 0)
  }

  ghost predicate StreamOk(stream: seq<Stored>, player: string) {
    && (forall q :: QuestOk(stream, q))
    && (forall i | 0 <= i < |stream| :: stream[i].version == i + 1 && stream[i].playerId == player)
  }

  lemma {:induction false} IndexAfterAppend(projection: seq<Progress>, p: Progress, q: string)
    ensures IndexOf(projection + [p], q)
         == if IndexOf(projection, q) < |projection| then IndexOf(projection, q)
            else if p.questId == q then |projection| else |projection| + 1
  {
    if projection == [] {
      assert [p][1..] == [];
    } else {
      assert (projection + [p])[1..] == projection[1..] + [p];
      IndexAfterAppend(projection[1..], p, q);
    }
  }

  lemma {:induction false} IndexAfterUpdate(projection: seq<Progress>, k: nat, p: Progress, q: string)
    requires k < |projection| && projection[k].questId == p.questId
    ensures IndexOf(projection[k := p], q) == IndexOf(projection, q)
  {
    if k > 0 {
      assert projection[k := p][1..] == projection[1..][k - 1 := p];
      IndexAfterUpdate(projection[1..], k - 1, p, q);
    } else {
      assert projection[k := p][1..] == projection[1..];
    }
  }

  /** Folding one stored event touches its own quest only. */
  lemma FindAfterOne(projection: seq<Progress>, e: Stored, q: string)
    ensures FindProgress(ReplayOne(projection, e), q)
         == if q != e.questId then FindProgress(projection, q)
            else
              var current := FindProgress(projection, q);
              Some(Update(if current.Some? then current.value else NewProgress(e), e))
  {
    var k := IndexOf(projection, e.questId);
    if k == |projection| {
      IndexAfterAppend(projection, Update(NewProgress(e), e), q);
    } else {
      IndexAfterUpdate(projection, k, Update(projection[k], e), q);
    }
  }

  lemma AfterEvent(stream: seq<Stored>, e: Stored, q: string)
    ensures ProgressOf(stream + [e], q)
         == if q != e.questId then ProgressOf(stream, q)
            else
              var current := ProgressOf(stream, q);
              Some(Update(if current.Some? then current.value else NewProgress(e), e))
    ensures Rewards(stream + [e], q)
            == Rewards(stream, q) + (if e.kind == RewardGranted && e.questId == q then 1 else 0)
  {
    assert (stream + [e])[..|stream|] == stream;
    FindAfterOne(Replay(stream), e, q);
  }

  ghost function Appended(d: Decision): seq<Stored> {
    if d.Append? then d.events else []
  }

  /** The events an appending decision stores. */
  lemma AppendShape(stream: seq<Stored>, e: Fact)
    requires Decide(stream, e).Append?
    ensures var d := Decide(stream, e);
            var rule := RuleFor(e).value;
            var next := NextCount(e, rule, Count(stream, rule.questId));
            && RuleFor(e).Some? && d.questId == rule.questId && next != Count(stream, rule.questId)
            && (d.completes <==> next >= rule.required && StatusOf(stream, rule.questId) == Active)
            && d.events == [Event(stream, 0, if IsSnapshot(e) then Reconciled else Progressed, e, rule,
                                  next - Count(stream, rule.questId), next)]
                           + (if d.completes then [Event(stream, 1, Completed, e, rule, 0, next),
                                                   Event(stream, 2, RewardGranted, e, rule, 0, next)] else [])
  {
    hide Replay, FindProgress, RuleFor, NextCount, Seen, Event;
  }

  lemma AfterThree(stream: seq<Stored>, a: Stored, b: Stored, c: Stored, q: string)
    requires a.questId == b.questId == c.questId
    requires (a.kind == Progressed || a.kind == Reconciled) && b.kind == Completed && c.kind == RewardGranted
    ensures var grown := stream + [a, b, c];
            && (q != a.questId ==>
                     ProgressOf(grown, q) == ProgressOf(stream, q) && Rewards(grown, q) == Rewards(stream, q))
            && (q == a.questId ==>
                && ProgressOf(grown, q).Some? && ProgressOf(grown, q).value.status == Rewarded
                && ProgressOf(grown, q).value.currentCount == a.currentCount
                && ProgressOf(grown, q).value.requiredCount == a.requiredCount
                && Rewards(grown, q) == Rewards(stream, q) + 1)
  {
    hide ProgressOf, Rewards;
    AfterEvent(stream, a, q);
    AfterEvent(stream + [a], b, q);
    AfterEvent(stream + [a] + [b], c, q);
    assert stream + [a, b, c] == stream + [a] + [b] + [c];
  }

  /** What an appending decision leaves behind, quest by quest. */
  lemma AppendEffect(stream: seq<Stored>, e: Fact, q: string)
    requires Decide(stream, e).Append?
    ensures var d := Decide(stream, e);
            var rule := RuleFor(e).value;
            var grown := stream + d.events;
            && d.questId == rule.questId
            && (q != rule.questId ==>
                     ProgressOf(grown, q) == ProgressOf(stream, q) && Rewards(grown, q) == Rewards(stream, q))
            && (q == rule.questId ==>
                && ProgressOf(grown, q).Some?
                && ProgressOf(grown, q).value.currentCount == NextCount(e, rule, Count(stream, q))
                && ProgressOf(grown, q).value.requiredCount == rule.required
                && ProgressOf(grown, q).value.status == (if d.completes then Rewarded else StatusOf(stream, q))
                && Rewards(grown, q) == Rewards(stream, q) + (if d.completes then 1 else 0)
                && (d.completes
                    <==> NextCount(e, rule, Count(stream, q)) >= rule.required && StatusOf(stream, q) == Active))
  {
    hide Decide, ProgressOf, Rewards, RuleFor, NextCount;
    AppendShape(stream, e);
    var events := Decide(stream, e).events;
    if Decide(stream, e).completes {
      AfterThree(stream, events[0], events[1], events[2], q);
      assert events == [events[0], events[1], events[2]];
    } else {
      AfterEvent(stream, events[0], q);
      assert events == [events[0]];
    }
  }

  /** The message lowers its quest's count. */
  predicate Lowers(e: Fact) {
    RuleFor(e).Some? && !IsSnapshot(e) && RuleFor(e).value.delta < 0
  }

  predicate NegativeKill(e: Fact) {
    e.kind == "MonsterKilled" && e.value == "wolf" && e.count < 0
  }

  /** Every quest stays well-formed whatever the counts are; a reward stays; and a count falls only
      through a negative message of its own quest. */
  lemma DecideKeepsQuest(stream: seq<Stored>, e: Fact, q: string)
    requires QuestOk(stream, q)
    ensures QuestOk(stream + Appended(Decide(stream, e)), q)
    ensures StatusOf(stream, q) == Rewarded ==> StatusOf(stream + Appended(Decide(stream, e)), q) == Rewarded
    ensures Count(stream + Appended(Decide(stream, e)), q) >= Count(stream, q)
            || (Lowers(e) && RuleFor(e).value.questId == q)
  {
    if Decide(stream, e).Append? {
      AppendEffect(stream, e, q);
      RuleQuest(e);
      hide Replay, FindProgress, Rewards, Decide, RuleFor;
      AppendKeepsQuest(stream, stream + Decide(stream, e).events, e, q);
    } else {
      assert stream + [] == stream;
    }
  }

  lemma AppendKeepsQuest(stream: seq<Stored>, grown: seq<Stored>, e: Fact, q: string)
    requires QuestOk(stream, q) && RuleFor(e).Some?
             && RuleFor(e).value.required == Required(RuleFor(e).value.questId) > 0
    requires RuleFor(e).value.questId in {FIRST_HUNT, HERB_GATHERING, VISIT_RUINS}
    requires var rule := RuleFor(e).value;
             var next := NextCount(e, rule, Count(stream, q));
             var completes := next >= rule.required && StatusOf(stream, q) == Active;
             if q != rule.questId then ProgressOf(grown, q) == ProgressOf(stream, q)
                 && Rewards(grown, q) == Rewards(stream, q)
             else
               && ProgressOf(grown, q).Some? && Count(grown, q) == next
               && ProgressOf(grown, q).value.requiredCount == rule.required
               && StatusOf(grown, q) == (if completes then Rewarded else StatusOf(stream, q))
               && Rewards(grown, q) == Rewards(stream, q) + (if completes then 1 else 0)
               && (!IsSnapshot(e) ==> StatusOf(stream, q) != Rewarded)
    ensures QuestOk(grown, q) && (StatusOf(stream, q) == Rewarded ==> StatusOf(grown, q) == Rewarded)
    ensures Count(grown, q) >= Count(stream, q) || (Lowers(e) && RuleFor(e).value.questId == q)
  {
    hide Replay, FindProgress, Rewards, RuleFor, ProgressOf, IsSnapshot;
  }

  lemma RuleQuest(e: Fact)
    requires RuleFor(e).Some?
    ensures RuleFor(e).value.required == Required(RuleFor(e).value.questId) > 0
    ensures RuleFor(e).value.questId in {FIRST_HUNT, HERB_GATHERING, VISIT_RUINS}
    ensures IsSnapshot(e) ==> RuleFor(e).value.questId == FIRST_HUNT
    ensures Lowers(e) && RuleFor(e).value.questId == FIRST_HUNT <==> NegativeKill(e)
    ensures e.count >= 0 ==> !Lowers(e)
  {
  }

  lemma DecideKeepsOk(stream: seq<Stored>, e: Fact)
    requires StreamOk(stream, e.playerId)
    ensures StreamOk(stream + Appended(Decide(stream, e)), e.playerId)
  {
    forall q ensures QuestOk(stream + Appended(Decide(stream, e)), q) {
      DecideKeepsQuest(stream, e, q);
    }
    hide QuestOk, NextCount, RuleFor, FindProgress, Replay;
  }

  // ---- Exactly-once effects ---------------------------------------------------------------

  /** Delivering e to the stream stores nothing. */
  ghost predicate Absorbs(stream: seq<Stored>, e: Fact) {
    !Decide(stream, e).Append?
  }

  lemma SeenGrows(stream: seq<Stored>, more: seq<Stored>, id: string)
    requires Seen(stream, id)
    ensures Seen(stream + more, id)
  {
    var i :| 0 <= i < |stream| && stream[i].sourceEventId == id;
    assert (stream + more)[i].sourceEventId == id;
  }

  /** Once delivered, an event is absorbed: either it is stored, or it was dropped. */
  lemma DeliveredIsAbsorbed(stream: seq<Stored>, e: Fact)
    ensures Absorbs(stream + Appended(Decide(stream, e)), e)
  {
    if Decide(stream, e).Append? {
      AppendShape(stream, e);
      var grown := stream + Decide(stream, e).events;
      assert grown[|stream|].sourceEventId == e.eventId;
      assert Seen(grown, e.eventId);
    } else {
      assert stream + [] == stream;
    }
  }

  /** Why an event that is not stored was dropped, in terms of its quest alone. */
  lemma AbsorbedBecause(stream: seq<Stored>, e: Fact)
    ensures Absorbs(stream, e) <==>
      || Seen(stream, e.eventId)
      || RuleFor(e) == None
      || (!IsSnapshot(e) && StatusOf(stream, RuleFor(e).value.questId) == Rewarded)
      || NextCount(e, RuleFor(e).value, Count(stream, RuleFor(e).value.questId))
          == Count(stream, RuleFor(e).value.questId)
  {
    hide Replay, FindProgress, RuleFor, NextCount, Seen, IsSnapshot, Event;
  }

  /** A message that is no snapshot and was dropped is dropped for good, whatever the counts are. */
  lemma DroppedMessageStays(stream: seq<Stored>, e: Fact, other: Fact)
    requires StreamOk(stream, other.playerId) && !IsSnapshot(e)
    requires Absorbs(stream, e)
    ensures Absorbs(stream + Appended(Decide(stream, other)), e)
  {
    var more := Appended(Decide(stream, other));
    hide Decide, RuleFor, Seen, IsSnapshot, Replay, FindProgress, Rewards, Absorbs;
    AbsorbedBecause(stream, e);
    AbsorbedBecause(stream + more, e);
    if Seen(stream, e.eventId) {
      SeenGrows(stream, more, e.eventId);
    } else if RuleFor(e).Some? {
      var q := RuleFor(e).value.questId;
      RuleQuest(e);
      assert QuestOk(stream, q);
      DecideKeepsQuest(stream, other, q);
      assert QuestOk(stream + more, q);
      NoShareStays(stream, stream + more, e, q);
    }
  }

  lemma NoShareStays(stream: seq<Stored>, grown: seq<Stored>, e: Fact, q: string)
    requires QuestOk(stream, q) && QuestOk(grown, q) && !IsSnapshot(e)
    requires RuleFor(e).Some? && RuleFor(e).value.required == Required(q)
    requires StatusOf(stream, q) == Rewarded || NextCount(e, RuleFor(e).value, Count(stream, q)) == Count(stream, q)
    requires StatusOf(stream, q) == Rewarded ==> StatusOf(grown, q) == Rewarded
    ensures StatusOf(grown, q) == Rewarded || NextCount(e, RuleFor(e).value, Count(grown, q)) == Count(grown, q)
  {
    hide RuleFor, Rewards, Replay, FindProgress, IsSnapshot;
  }

  /** A snapshot is absorbed exactly when its id is stored or the first hunt has its count. */
  lemma SnapshotAbsorbedExactly(stream: seq<Stored>, e: Fact)
    requires IsSnapshot(e)
    ensures Absorbs(stream, e) <==> Seen(stream, e.eventId) || Count(stream, FIRST_HUNT) >= e.count
  {
    AbsorbedBecause(stream, e);
    hide Replay, FindProgress, Seen, Decide, Absorbs;
  }

  /** A dropped message stays dropped, snapshots included, unless a negative kill comes in between. */
  lemma AbsorbedStays(stream: seq<Stored>, e: Fact, other: Fact)
    requires StreamOk(stream, other.playerId) && !(IsSnapshot(e) && NegativeKill(other))
    requires Absorbs(stream, e)
    ensures Absorbs(stream + Appended(Decide(stream, other)), e)
  {
    hide Decide, RuleFor, Seen, IsSnapshot, Absorbs, QuestOk, Count, NegativeKill, Lowers;
    if IsSnapshot(e) {
      var grown := stream + Appended(Decide(stream, other));
      SnapshotAbsorbedExactly(stream, e);
      SnapshotAbsorbedExactly(grown, e);
      if Seen(stream, e.eventId) {
        SeenGrows(stream, Appended(Decide(stream, other)), e.eventId);
      }
      assert QuestOk(stream, FIRST_HUNT);
      DecideKeepsQuest(stream, other, FIRST_HUNT);
      if RuleFor(other).Some? {
        RuleQuest(other);
      }
      LowersHasRule(other);
    } else {
      DroppedMessageStays(stream, e, other);
    }
  }

  lemma LowersHasRule(e: Fact)
    ensures Lowers(e) ==> RuleFor(e).Some?
  {
  }

  // ---- Runs of the store ------------------------------------------------------------------

  datatype Op =
    | Deliver(e: Fact)
    | Delete(player: string, questId: string)
    | Rebuild(player: string)
    | Rehydrate(player: string)

  function Step(s: Store, op: Op): Store {
    match op
    case Deliver(e) => Apply(s, e).0
    case Delete(player, questId) => DeleteProjection(s, player, questId)
    case Rebuild(player) => RebuildProjection(s, player)
    case Rehydrate(player) => RehydrateOwner(s, player)
  }

  function Run(s: Store, ops: seq<Op>): Store {
    if ops == [] then s else Step(Run(s, ops[..|ops| - 1]), ops[|ops| - 1])
  }

  ghost predicate NonNegative(ops: seq<Op>) {
    forall i | 0 <= i < |ops| :: ops[i].Deliver? ==> ops[i].e.count >= 0
  }

  /** No wolf kill with a negative count; the edge sends every kill with the count 1. */
  ghost predicate NoNegativeKills(ops: seq<Op>) {
    forall i | 0 <= i < |ops| :: ops[i].Deliver? ==> !NegativeKill(ops[i].e)
  }

  ghost predicate StoreOk(s: Store) {
    forall player :: StreamOk(StreamOf(s, player), player)
  }

  lemma StepStreams(s: Store, op: Op, player: string)
    ensures StreamOf(Step(s, op), player)
         == StreamOf(s, player) + (if op.Deliver? && op.e.playerId == player
                                   then Appended(Decide(StreamOf(s, player), op.e)) else [])
  {
    hide Decide, Replay;
  }

  lemma EmptyStreamOk(player: string)
    ensures StreamOk([], player)
  {
    forall q ensures QuestOk([], q) {
      assert ProgressOf([], q) == None;
    }
  }

  lemma StepKeepsOk(s: Store, op: Op)
    requires StoreOk(s)
    ensures StoreOk(Step(s, op))
  {
    forall player ensures StreamOk(StreamOf(Step(s, op), player), player) {
      StepStreams(s, op, player);
      assert StreamOk(StreamOf(s, player), player);
      if op.Deliver? && op.e.playerId == player {
        DecideKeepsOk(StreamOf(s, player), op.e);
      } else {
        assert StreamOf(s, player) + [] == StreamOf(s, player);
      }
    }
  }

  /** In every reachable store every quest of every stream is well-formed, whatever counts came. */
  lemma {:induction false} ReachableOk(ops: seq<Op>)
    ensures StoreOk(Run(EMPTY, ops))
  {
    hide StoreOk, Step;
    if ops == [] {
      EmptyStoreOk();
    } else {
      ReachableOk(ops[..|ops| - 1]);
      StepKeepsOk(Run(EMPTY, ops[..|ops| - 1]), ops[|ops| - 1]);
    }
  }

  lemma EmptyStoreOk()
    ensures StoreOk(EMPTY)
  {
    forall player ensures StreamOk(StreamOf(EMPTY, player), player) {
      EmptyStreamOk(player);
    }
  }

  /** Without negative counts no quest's count is negative. */
  lemma {:induction false} CountsNotNegative(ops: seq<Op>, player: string, q: string)
    requires NonNegative(ops)
    ensures Count(StreamOf(Run(EMPTY, ops), player), q) >= 0
  {
    hide Count, Step, Decide, StoreOk, Lowers, RuleFor;
    if ops == [] {
      CountOfNothing(q);
    } else {
      var front, last := ops[..|ops| - 1], ops[|ops| - 1];
      var stream := StreamOf(Run(EMPTY, front), player);
      CountsNotNegative(front, player, q);
      ReachableOk(front);
      QuestIn(Run(EMPTY, front), player, q);
      StepStreams(Run(EMPTY, front), last, player);
      assert stream + [] == stream;
      if last.Deliver? && last.e.playerId == player {
        DecideKeepsQuest(stream, last.e, q);
        LowersHasRule(last.e);
        if RuleFor(last.e).Some? {
          RuleQuest(last.e);
        }
      }
    }
  }

  lemma CountOfNothing(q: string)
    ensures Count([], q) == 0
  {
    assert ProgressOf([], q) == None;
  }

  lemma QuestIn(s: Store, player: string, q: string)
    requires StoreOk(s)
    ensures QuestOk(StreamOf(s, player), q)
  {
    assert StreamOk(StreamOf(s, player), player);
    hide QuestOk;
  }

  /** The message without the time of the request: the edge stamps a client's retry anew, and a sync
      its snapshot, under the same id. */
  function Timeless(e: Fact): Fact {
    e.(occurredAt := 0)
  }

  predicate SameMessage(e: Fact, f: Fact) {
    Timeless(e) == Timeless(f)
  }

  /** Whether a message is dropped does not depend on its time. */
  lemma AbsorbsSame(stream: seq<Stored>, e: Fact, f: Fact)
    requires SameMessage(e, f)
    ensures Absorbs(stream, e) <==> Absorbs(stream, f)
    ensures e.playerId == f.playerId && e.eventId == f.eventId && (IsSnapshot(e) <==> IsSnapshot(f))
  {
    AbsorbedBecause(stream, e);
    AbsorbedBecause(stream, f);
    hide Replay, FindProgress, Seen, Decide, Absorbs, Count, StatusOf;
    assert RuleFor(e) == RuleFor(f);
  }

  /** The run delivers the message, at whatever time it was sent. */
  predicate Delivered(ops: seq<Op>, e: Fact) {
    exists i | 0 <= i < |ops| :: ops[i].Deliver? && SameMessage(ops[i].e, e)
  }

  lemma DeliveredBefore(ops: seq<Op>, e: Fact)
    requires Delivered(ops, e)
    ensures var front, last := ops[..|ops| - 1], ops[|ops| - 1];
            Delivered(front, e) || (last.Deliver? && SameMessage(last.e, e))
  {
    hide SameMessage;
    var i :| 0 <= i < |ops| && ops[i].Deliver? && SameMessage(ops[i].e, e);
    if i < |ops| - 1 {
      assert ops[..|ops| - 1][i] == ops[i];
    }
  }

  /** A repeated delivery leaves the store exactly as it is. */
  ghost predicate Inert(s: Store, e: Fact) {
    e.playerId in s.streams && Absorbs(s.streams[e.playerId], e)
  }

  lemma InertMeans(s: Store, e: Fact)
    requires Inert(s, e)
    ensures Step(s, Deliver(e)) == s
  {
    hide Decide, Replay, Cached;
    assert s.streams[e.playerId := StreamOf(s, e.playerId)] == s.streams;
  }

  lemma StepKeepsInert(s: Store, op: Op, e: Fact)
    requires StoreOk(s) && !(IsSnapshot(e) && op.Deliver? && NegativeKill(op.e))
    requires (op.Deliver? && SameMessage(op.e, e)) || Inert(s, e)
    ensures Inert(Step(s, op), e)
  {
    hide Step, StreamOk, Decide, Absorbs, NegativeKill, IsSnapshot, SameMessage;
    var stream := StreamOf(s, e.playerId);
    assert StreamOk(stream, e.playerId);
    StepStreams(s, op, e.playerId);
    if op.Deliver? && SameMessage(op.e, e) {
      AbsorbsSame(stream, op.e, e);
      AbsorbsSame(stream + Appended(Decide(stream, op.e)), op.e, e);
      DeliveredIsAbsorbed(stream, op.e);
    } else if op.Deliver? && op.e.playerId == e.playerId {
      AbsorbedStays(stream, e, op.e);
    } else {
      assert stream + [] == stream;
    }
    StepKeepsPlayers(s, op, e.playerId);
  }

  lemma StepKeepsPlayers(s: Store, op: Op, player: string)
    requires player in s.streams || (op.Deliver? && op.e.playerId == player)
    ensures player in Step(s, op).streams
  {
    hide Decide, Replay;
  }

  /** A delivered message is inert from then on, at whatever time it is sent again: one that is no
      snapshot in every run, a snapshot in every run without negative kills. */
  lemma {:induction false} DeliveredIsInert(ops: seq<Op>, e: Fact)
    requires Delivered(ops, e) && (IsSnapshot(e) ==> NoNegativeKills(ops))
    ensures Inert(Run(EMPTY, ops), e)
  {
    hide Step, StoreOk, Inert, NegativeKill, IsSnapshot, SameMessage, Delivered;
    DeliveredBefore(ops, e);
    NotEmpty(ops, e);
    var front, last := ops[..|ops| - 1], ops[|ops| - 1];
    ReachableOk(front);
    if !(last.Deliver? && SameMessage(last.e, e)) {
      DeliveredIsInert(front, e);
    }
    StepKeepsInert(Run(EMPTY, front), last, e);
  }

  lemma NotEmpty(ops: seq<Op>, e: Fact)
    requires Delivered(ops, e)
    ensures ops != []
  {
  }

  /** What a redelivery can still do: nothing, unless it is a snapshot that was never stored and the
      first hunt has fallen below its count. */
  ghost predicate Spent(s: Store, e: Fact) {
    var stream := StreamOf(s, e.playerId);
    IsSnapshot(e) ==> Seen(stream, e.eventId) || Count(stream, FIRST_HUNT) >= e.count
  }

  lemma InertExactly(s: Store, e: Fact)
    requires e.playerId in s.streams
    ensures Step(s, Deliver(e)) == s <==> Inert(s, e)
  {
    hide Decide, Replay, Cached;
    if Inert(s, e) {
      InertMeans(s, e);
    } else {
      StepStreams(s, Deliver(e), e.playerId);
      AppendShape(StreamOf(s, e.playerId), e);
    }
  }

  lemma {:induction false} DeliveredPlayers(ops: seq<Op>, e: Fact)
    requires Delivered(ops, e)
    ensures e.playerId in Run(EMPTY, ops).streams
  {
    hide Step, Delivered;
    DeliveredBefore(ops, e);
    NotEmpty(ops, e);
    var front, last := ops[..|ops| - 1], ops[|ops| - 1];
    if !(last.Deliver? && SameMessage(last.e, e)) {
      DeliveredPlayers(front, e);
    }
    StepKeepsPlayers(Run(EMPTY, front), last, e.playerId);
  }

  /** In every run, whatever the counts are, delivering a message again, at whatever time it is sent
      again, changes nothing exactly when it is spent. */
  lemma RedeliveryIsNothingExactly(ops: seq<Op>, e: Fact)
    requires Delivered(ops, e)
    ensures Step(Run(EMPTY, ops), Deliver(e)) == Run(EMPTY, ops) <==> Spent(Run(EMPTY, ops), e)
  {
    hide Step, Absorbs, Seen, Count, IsSnapshot, Run, Delivered;
    var s := Run(EMPTY, ops);
    DeliveredPlayers(ops, e);
    InertExactly(s, e);
    if IsSnapshot(e) {
      SnapshotAbsorbedExactly(s.streams[e.playerId], e);
    } else {
      DeliveredIsInert(ops, e);
    }
  }

  /** The step delivers a message of the run before it again. */
  predicate Repeats(front: seq<Op>, op: Op) {
    op.Deliver? && Delivered(front, op.e)
  }

  /** The run with every repeat of an earlier message left out. */
  function FirstDeliveries(ops: seq<Op>): seq<Op> {
    if ops == [] then []
    else
      var front, last := ops[..|ops| - 1], ops[|ops| - 1];
      FirstDeliveries(front) + (if Repeats(front, last) then [] else [last])
  }

  /** Every repeated snapshot is spent when it comes again. */
  ghost predicate SnapshotsSpent(ops: seq<Op>) {
    ops == [] ||
    var front, last := ops[..|ops| - 1], ops[|ops| - 1];
    SnapshotsSpent(front) && (Repeats(front, last) ==> Spent(Run(EMPTY, front), last.e))
  }

  /** Redeliveries change neither streams nor projections, whatever maintenance runs in between and
      whatever the counts are, as long as redelivered snapshots are spent. */
  lemma {:induction false} ExactlyOnceWhenSpent(ops: seq<Op>)
    requires SnapshotsSpent(ops)
    ensures Run(EMPTY, FirstDeliveries(ops)) == Run(EMPTY, ops)
  {
    hide Step, Spent, Delivered;
    if ops != [] {
      var front, last := ops[..|ops| - 1], ops[|ops| - 1];
      ExactlyOnceWhenSpent(front);
      if Repeats(front, last) {
        RedeliveryIsNothingExactly(front, last.e);
        assert FirstDeliveries(front) + [] == FirstDeliveries(front);
      } else {
        assert (FirstDeliveries(front) + [last])[..|FirstDeliveries(front)|] == FirstDeliveries(front);
      }
    }
  }

  lemma {:induction false} SpentWithoutNegativeKills(ops: seq<Op>)
    requires NoNegativeKills(ops)
    ensures SnapshotsSpent(ops)
  {
    hide Step, Spent, NegativeKill, Inert, Delivered;
    if ops != [] {
      var front, last := ops[..|ops| - 1], ops[|ops| - 1];
      SpentWithoutNegativeKills(front);
      if Repeats(front, last) {
        DeliveredIsInert(front, last.e);
        InertMeans(Run(EMPTY, front), last.e);
        RedeliveryIsNothingExactly(front, last.e);
      }
    }
  }

  /** At-least-once delivery has exactly-once effect in every run without negative kills, negative
      item counts included. */
  lemma ExactlyOnce(ops: seq<Op>)
    requires NoNegativeKills(ops)
    ensures Run(EMPTY, FirstDeliveries(ops)) == Run(EMPTY, ops)
  {
    hide Run, SnapshotsSpent;
    SpentWithoutNegativeKills(ops);
    ExactlyOnceWhenSpent(ops);
  }
}
