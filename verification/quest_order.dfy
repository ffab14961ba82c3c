// Counts without snapshots: the capped sum of the distinct deliveries, in any order.
module QuestOrder {
  import opened Wrappers
  import opened Quest
  import opened QuestProofs

  function Min(a: int, b: int): int {
    if a <= b then a else b
  }

  /** The share of quest q that event e of this player carries. */
  function Share(e: Fact, player: string, q: string): int {
    if e.playerId == player && RuleFor(e).Some? && RuleFor(e).value.questId == q then RuleFor(e).value.delta else 0
  }

  function Total(events: seq<Fact>, player: string, q: string): int {
    if events == [] then 0
    else Total(events[..|events| - 1], player, q) + Share(events[|events| - 1], player, q)
  }

  function Distinct(events: seq<Fact>): seq<Fact> {
    if events == [] then []
    else
      var front, last := events[..|events| - 1], events[|events| - 1];
      Distinct(front) + (if last in front then [] else [last])
  }

  function Deliveries(events: seq<Fact>): seq<Op> {
    seq(|events|, i requires 0 <= i < |events| => Deliver(events[i]))
  }

  function After(events: seq<Fact>): Store {
    Run(EMPTY, Deliveries(events))
  }

  /** The messages without the times of their requests. */
  function Strip(events: seq<Fact>): (r: seq<Fact>)
    ensures |r| == |events|
  {
    seq(|events|, i requires 0 <= i < |events| => Timeless(events[i]))
  }

  /** Gameplay messages without snapshots and negative counts, an event id naming one message per
      player, which may come at several times. */
  ghost predicate Plain(events: seq<Fact>) {
    && (forall e | e in events :: !IsSnapshot(e) && e.count >= 0)
    && (forall e, f | e in events && f in events && e.playerId == f.playerId && e.eventId == f.eventId ::
          SameMessage(e, f))
  }

  lemma StripOneMore(events: seq<Fact>, e: Fact)
    ensures Strip(events + [e]) == Strip(events) + [Timeless(e)]
  {
    hide Timeless;
  }

  lemma StripHas(events: seq<Fact>, e: Fact)
    ensures Timeless(e) in Strip(events) <==> exists f :: f in events && SameMessage(f, e)
  {
    hide Timeless;
    if f :| f in events && SameMessage(f, e) {
      var i :| 0 <= i < |events| && events[i] == f;
      assert Strip(events)[i] == Timeless(e);
    }
    if Timeless(e) in Strip(events) {
      var i :| 0 <= i < |events| && Strip(events)[i] == Timeless(e);
      assert events[i] in events && SameMessage(events[i], e);
    }
  }

  lemma AfterOneMore(events: seq<Fact>, e: Fact)
    ensures After(events + [e]) == Step(After(events), Deliver(e))
  {
    hide Step;
    assert Deliveries(events + [e])[..|events|] == Deliveries(events);
  }

  lemma AfterOk(events: seq<Fact>)
    ensures StoreOk(After(events))
  {
    ReachableOk(Deliveries(events));
  }

  /** Stored events come from delivered ones. */
  lemma {:induction false} StoredWereDelivered(events: seq<Fact>, player: string, id: string)
    requires Seen(StreamOf(After(events), player), id)
    ensures exists e :: e in events && e.playerId == player && e.eventId == id
  {
    if events != [] {
      var front, last := events[..|events| - 1], events[|events| - 1];
      assert events == front + [last];
      AfterOneMore(front, last);
      var stream := StreamOf(After(front), player);
      StepStreams(After(front), Deliver(last), player);
      if Seen(stream, id) {
        StoredWereDelivered(front, player, id);
      } else {
        SeenInMore(stream, last, player, id);
        assert last in events;
      }
    }
  }

  lemma SeenInMore(stream: seq<Stored>, e: Fact, player: string, id: string)
    requires !Seen(stream, id)
    requires Seen(stream + (if e.playerId == player then Appended(Decide(stream, e)) else []), id)
    ensures e.playerId == player && e.eventId == id
  {
    assert stream + [] == stream;
    if e.playerId == player && Decide(stream, e).Append? {
      AppendShape(stream, e);
    }
  }

  /** One delivery's effect on one quest, when nothing is a snapshot. */
  lemma DeliveryAddsShare(stream: seq<Stored>, e: Fact, q: string)
    requires StreamOk(stream, e.playerId) && e.count >= 0 && !IsSnapshot(e) && !Seen(stream, e.eventId)
    requires Count(stream, q) <= Required(q)
    ensures Count(stream + Appended(Decide(stream, e)), q)
            == Min(Required(q), Count(stream, q) + Share(e, e.playerId, q))
  {
    AbsorbedBecause(stream, e);
    assert QuestOk(stream, q);
    if RuleFor(e).Some? {
      RuleQuest(e);
    }
    if Decide(stream, e).Append? {
      AppendEffect(stream, e, q);
    } else {
      assert stream + [] == stream;
    }
    hide Decide, Replay, FindProgress, Rewards, RuleFor, Seen, ProgressOf;
  }

  lemma CountOneMore(s: Store, e: Fact, player: string, q: string)
    requires StoreOk(s) && e.count >= 0 && !IsSnapshot(e)
    requires e.playerId == player ==> !Seen(StreamOf(s, player), e.eventId)
    requires Count(StreamOf(s, player), q) <= Required(q)
    ensures Count(StreamOf(Step(s, Deliver(e)), player), q)
         == Min(Required(q), Count(StreamOf(s, player), q) + Share(e, player, q))
  {
    hide RuleFor, Count, Decide, Required, Seen, Apply;
    var stream := StreamOf(s, player);
    assert StreamOk(stream, player);
    StepStreams(s, Deliver(e), player);
    if e.playerId == player {
      DeliveryAddsShare(stream, e, q);
    } else {
      assert stream + [] == stream;
    }
  }

  /** The distinct messages among deliveries: one that came at several times is one message. */
  function Messages(events: seq<Fact>): seq<Fact> {
    Distinct(Strip(events))
  }

  lemma MessagesOneMore(events: seq<Fact>, e: Fact)
    ensures Messages(events + [e])
         == if Delivered(Deliveries(events), e) then Messages(events) else Messages(events) + [Timeless(e)]
  {
    hide Timeless;
    StripOneMore(events, e);
    assert (Strip(events) + [Timeless(e)])[..|events|] == Strip(events);
    StripHas(events, e);
    DeliveredAmong(events, e);
    assert Messages(events) + [] == Messages(events);
  }

  lemma DeliveredAmong(events: seq<Fact>, e: Fact)
    ensures Delivered(Deliveries(events), e) <==> exists f :: f in events && SameMessage(f, e)
  {
    hide SameMessage;
    if f :| f in events && SameMessage(f, e) {
      var i :| 0 <= i < |events| && events[i] == f;
      assert Deliveries(events)[i] == Deliver(f);
    }
    if Delivered(Deliveries(events), e) {
      var i :| 0 <= i < |events| && Deliveries(events)[i].Deliver? && SameMessage(Deliveries(events)[i].e, e);
      assert events[i] in events;
    }
  }

  lemma ShareTimeless(e: Fact, player: string, q: string)
    ensures Share(Timeless(e), player, q) == Share(e, player, q)
  {
  }

  lemma PlainFront(front: seq<Fact>, last: Fact)
    requires Plain(front + [last])
    ensures Plain(front) && !IsSnapshot(last) && last.count >= 0
    ensures forall e | e in front && e.playerId == last.playerId && e.eventId == last.eventId :: SameMessage(e, last)
  {
    hide SameMessage, IsSnapshot;
    assert forall e | e in front :: e in front + [last];
    assert last in front + [last];
  }

  /** Every quest's count is the sum of the distinct messages' shares, capped at the requirement. */
  lemma {:induction false} CountIsCappedTotal(events: seq<Fact>, player: string, q: string)
    requires Plain(events)
    ensures Count(StreamOf(After(events), player), q) == Min(Required(q), Total(Messages(events), player, q))
    ensures Total(Messages(events), player, q) >= 0
  {
    hide RuleFor, Count, Decide, Required, Seen, Apply, Total, Share, Messages, After, Step, Plain, SameMessage,
      Delivered;
    if events == [] {
      NothingDelivered(player, q);
    } else {
      var front, last := events[..|events| - 1], events[|events| - 1];
      assert events == front + [last];
      PlainFront(front, last);
      CountIsCappedTotal(front, player, q);
      AfterOneMore(front, last);
      MessagesOneMore(front, last);
      AfterOk(front);
      if Delivered(Deliveries(front), last) {
        RedeliveryChangesNothing(front, last);
      } else {
        TotalOneMore(Messages(front), Timeless(last), player, q);
        ShareTimeless(last, player, q);
        if last.playerId == player && Seen(StreamOf(After(front), player), last.eventId) {
          StoredWereDelivered(front, player, last.eventId);
          DeliveredAmong(front, last);
        }
        CountOneMore(After(front), last, player, q);
      }
    }
  }

  lemma NothingDelivered(player: string, q: string)
    ensures Count(StreamOf(After([]), player), q) == 0 && Total(Messages([]), player, q) == 0 && Required(q) > 0
  {
    assert StreamOf(After([]), player) == [];
    assert ProgressOf([], q) == None;
  }

  lemma RedeliveryChangesNothing(front: seq<Fact>, e: Fact)
    requires Delivered(Deliveries(front), e) && !IsSnapshot(e)
    ensures Step(After(front), Deliver(e)) == After(front)
  {
    hide Run, Step, Inert, Delivered;
    DeliveredIsInert(Deliveries(front), e);
    InertMeans(After(front), e);
  }

  lemma TotalOneMore(events: seq<Fact>, e: Fact, player: string, q: string)
    ensures Total(events + [e], player, q) == Total(events, player, q) + Share(e, player, q)
    ensures e.count >= 0 ==> Share(e, player, q) >= 0
  {
    assert (events + [e])[..|events|] == events;
  }

  // ---- Order does not matter --------------------------------------------------------------

  ghost predicate NoRepeats(events: seq<Fact>) {
    forall i, j | 0 <= i < j < |events| :: events[i] != events[j]
  }

  lemma {:induction false} DistinctHasSameEvents(events: seq<Fact>)
    ensures NoRepeats(Distinct(events))
    ensures forall e :: e in Distinct(events) <==> e in events
  {
    if events != [] {
      DistinctHasSameEvents(events[..|events| - 1]);
      assert events == events[..|events| - 1] + [events[|events| - 1]];
    }
  }

  ghost predicate SameEvents(a: seq<Fact>, b: seq<Fact>) {
    forall e :: e in a <==> e in b
  }

  function Remove(events: seq<Fact>, k: nat): seq<Fact>
    requires k < |events|
  {
    events[..k] + events[k + 1..]
  }

  lemma {:induction false} TotalWithout(events: seq<Fact>, k: nat, player: string, q: string)
    requires k < |events|
    ensures Total(events, player, q) == Total(Remove(events, k), player, q) + Share(events[k], player, q)
  {
    var last := |events| - 1;
    if k == last {
      assert Remove(events, k) == events[..last];
    } else {
      TotalWithout(events[..last], k, player, q);
      var rest := Remove(events, k);
      assert rest[..|rest| - 1] == Remove(events[..last], k);
    }
  }

  /** Two repeat-free lists of the same events have the same total. */
  lemma {:induction false} TotalIgnoresOrder(a: seq<Fact>, b: seq<Fact>, player: string, q: string)
    requires NoRepeats(a) && NoRepeats(b) && SameEvents(a, b)
    ensures Total(a, player, q) == Total(b, player, q)
  {
    if a == [] {
      if b != [] {
        MemberOf(b, 0);
      }
    } else {
      var last := |a| - 1;
      MemberOf(a, last);
      var k :| 0 <= k < |b| && b[k] == a[last];
      TotalWithout(b, k, player, q);
      SameRest(a, b, k);
      TotalIgnoresOrder(a[..last], Remove(b, k), player, q);
    }
  }

  lemma MemberOf(events: seq<Fact>, k: nat)
    requires k < |events|
    ensures events[k] in events
  {
  }

  lemma RemoveKeeps(b: seq<Fact>, k: nat)
    requires NoRepeats(b) && k < |b|
    ensures NoRepeats(Remove(b, k))
    ensures forall e :: e in Remove(b, k) <==> e in b && e != b[k]
  {
    var rest := Remove(b, k);
    forall e ensures e in rest <==> e in b && e != b[k] {
      if e in b && e != b[k] {
        var i :| 0 <= i < |b| && b[i] == e;
        assert rest[if i < k then i else i - 1] == e;
      }
    }
  }

  lemma SameRest(a: seq<Fact>, b: seq<Fact>, k: nat)
    requires NoRepeats(a) && NoRepeats(b) && SameEvents(a, b)
    requires a != [] && k < |b| && b[k] == a[|a| - 1]
    ensures NoRepeats(Remove(b, k)) && NoRepeats(a[..|a| - 1])
    ensures SameEvents(a[..|a| - 1], Remove(b, k))
  {
    assert Remove(a, |a| - 1) == a[..|a| - 1];
    RemoveKeeps(a, |a| - 1);
    RemoveKeeps(b, k);
  }

  /** Any two delivery histories of the same messages, in any order and with any repeats at any
      times, leave every quest with the same count and the same status. */
  lemma OrderDoesNotMatter(a: seq<Fact>, b: seq<Fact>, player: string, q: string)
    requires Plain(a) && Plain(b) && SameEvents(Strip(a), Strip(b))
    ensures var x, y := StreamOf(After(a), player), StreamOf(After(b), player);
            Count(x, q) == Count(y, q) && StatusOf(x, q) == StatusOf(y, q)
  {
    hide After, Distinct, Total, ProgressOf, Rewards, Plain, StoreOk;
    CountIsCappedTotal(a, player, q);
    CountIsCappedTotal(b, player, q);
    DistinctHasSameEvents(Strip(a));
    DistinctHasSameEvents(Strip(b));
    TotalIgnoresOrder(Messages(a), Messages(b), player, q);
    AfterOk(a);
    AfterOk(b);
    QuestIn(After(a), player, q);
    QuestIn(After(b), player, q);
    RequiredIsPositive(q);
  }

  lemma RequiredIsPositive(q: string)
    ensures Required(q) > 0
  {
  }

  // ---- Exactly once, exactly when ---------------------------------------------------------

  /** An event id names one message per player, which may come at several times. */
  ghost predicate IdsName(ops: seq<Op>) {
    forall i, j | 0 <= i < |ops| && 0 <= j < |ops| && ops[i].Deliver? && ops[j].Deliver?
                  && ops[i].e.playerId == ops[j].e.playerId && ops[i].e.eventId == ops[j].e.eventId ::
      SameMessage(ops[i].e, ops[j].e)
  }

  lemma SeenStays(s: Store, op: Op, player: string, id: string)
    requires Seen(StreamOf(s, player), id)
    ensures Seen(StreamOf(Step(s, op), player), id)
  {
    hide Step, Decide, Seen;
    StepStreams(s, op, player);
    assert StreamOf(s, player) + [] == StreamOf(s, player);
    if op.Deliver? && op.e.playerId == player {
      SeenGrows(StreamOf(s, player), Appended(Decide(StreamOf(s, player), op.e)), id);
    }
  }

  lemma SeenOnlyByDelivery(s: Store, op: Op, player: string, id: string)
    requires !Seen(StreamOf(s, player), id) && !(op.Deliver? && op.e.playerId == player && op.e.eventId == id)
    ensures !Seen(StreamOf(Step(s, op), player), id)
  {
    hide Step, Decide, Seen;
    StepStreams(s, op, player);
    assert StreamOf(s, player) + [] == StreamOf(s, player);
    if op.Deliver? && Seen(StreamOf(Step(s, op), player), id) {
      SeenInMore(StreamOf(s, player), op.e, player, id);
    }
  }

  /** The first redelivery that is not spent stores its message; the run of first deliveries never does. */
  lemma {:induction false} UnspentShows(ops: seq<Op>) returns (player: string, id: string)
    requires IdsName(ops) && !SnapshotsSpent(ops)
    ensures Seen(StreamOf(Run(EMPTY, ops), player), id) && !Seen(StreamOf(Run(EMPTY, FirstDeliveries(ops)), player), id)
    ensures exists i | 0 <= i < |ops| :: ops[i].Deliver? && ops[i].e.playerId == player && ops[i].e.eventId == id
  {
    hide Step, Seen, Spent, SameMessage;
    var front, last := ops[..|ops| - 1], ops[|ops| - 1];
    var s := Run(EMPTY, front);
    assert forall i | 0 <= i < |front| :: front[i] == ops[i];
    FirstOneMore(front, last);
    if SnapshotsSpent(front) {
      player, id := last.e.playerId, last.e.eventId;
      ExactlyOnceWhenSpent(front);
      UnspentStores(front, last.e);
    } else {
      player, id := UnspentShows(front);
      SeenStays(s, last, player, id);
      var i :| 0 <= i < |front| && front[i].Deliver? && front[i].e.playerId == player && front[i].e.eventId == id;
      if !Repeats(front, last) {
        assert !(last.Deliver? && SameMessage(front[i].e, last.e));
        SeenOnlyByDelivery(Run(EMPTY, FirstDeliveries(front)), last, player, id);
      }
    }
  }

  lemma FirstOneMore(front: seq<Op>, last: Op)
    ensures FirstDeliveries(front + [last])
         == if Repeats(front, last) then FirstDeliveries(front) else FirstDeliveries(front) + [last]
    ensures Run(EMPTY, FirstDeliveries(front) + [last]) == Step(Run(EMPTY, FirstDeliveries(front)), last)
  {
    hide Step, Repeats;
    assert (front + [last])[..|front|] == front;
    assert FirstDeliveries(front) + [] == FirstDeliveries(front);
    assert (FirstDeliveries(front) + [last])[..|FirstDeliveries(front)|] == FirstDeliveries(front);
  }

  lemma UnspentStores(front: seq<Op>, e: Fact)
    requires !Spent(Run(EMPTY, front), e)
    ensures var s := Run(EMPTY, front);
            !Seen(StreamOf(s, e.playerId), e.eventId) && Seen(StreamOf(Step(s, Deliver(e)), e.playerId), e.eventId)
  {
    var s := Run(EMPTY, front);
    var stream := StreamOf(s, e.playerId);
    hide Step, Decide, Seen, Count, Run;
    SnapshotAbsorbedExactly(stream, e);
    StepStreams(s, Deliver(e), e.playerId);
    AppendShape(stream, e);
    var grown := stream + Decide(stream, e).events;
    SeenAt(grown, |stream|, e.eventId);
  }

  lemma SeenAt(stream: seq<Stored>, k: nat, id: string)
    requires k < |stream| && stream[k].sourceEventId == id
    ensures Seen(stream, id)
  {
  }

  /** Repeats, at whatever times, change nothing in a run exactly when every redelivered snapshot is spent. */
  lemma ExactlyOnceExactly(ops: seq<Op>)
    requires IdsName(ops)
    ensures Run(EMPTY, FirstDeliveries(ops)) == Run(EMPTY, ops) <==> SnapshotsSpent(ops)
  {
    hide Run, SnapshotsSpent, Seen, IdsName;
    if SnapshotsSpent(ops) {
      ExactlyOnceWhenSpent(ops);
    } else {
      var player, id := UnspentShows(ops);
    }
  }

  // ---- Why kills must not be negative -----------------------------------------------------

  /** Any snapshot that was dropped because the first hunt had its count takes effect when delivered
      again after a kill whose negative count lowered the hunt below it. */
  lemma NegativeKillRevivesSnapshot(kill: Fact, snapshot: Fact, undo: Fact)
    requires kill.playerId == snapshot.playerId == undo.playerId
    requires kill.eventId != snapshot.eventId && snapshot.eventId != undo.eventId && undo.eventId != kill.eventId
    requires kill.kind == "MonsterKilled" && kill.value == "wolf" && IsSnapshot(snapshot) && NegativeKill(undo)
    requires 0 < snapshot.count <= kill.count < 3 && kill.count + undo.count < snapshot.count
    ensures var ops := [Deliver(kill), Deliver(snapshot), Deliver(undo)];
            Step(Run(EMPTY, ops), Deliver(snapshot)) != Run(EMPTY, ops)
  {
    hide Run, Step, RuleFor, Decide, Count, StatusOf, Seen, IsSnapshot, NegativeKill, StreamOf;
    var ops := [Deliver(kill), Deliver(snapshot), Deliver(undo)];
    var p := kill.playerId;
    WolfKill(kill);
    WolfKill(undo);
    var s1, s2 := ThreeSteps(ops);
    NothingYet(p);
    StepStreams(EMPTY, ops[0], p);
    KillCounts([], kill);
    var one := Appended(Decide([], kill));
    assert [] + one == one && one + [] == one;
    StepStreams(s1, ops[1], p);
    SnapshotAbsorbedExactly(one, snapshot);
    StepStreams(s2, ops[2], p);
    KillCounts(one, undo);
    assert ops[1] == Deliver(snapshot) && SameMessage(ops[1].e, snapshot);
    RedeliveryIsNothingExactly(ops, snapshot);
  }

  lemma WolfKill(kill: Fact)
    requires (kill.kind == "MonsterKilled" && kill.value == "wolf") || NegativeKill(kill)
    ensures RuleFor(kill) == Some(Rule(FIRST_HUNT, kill.count, 3)) && !IsSnapshot(kill)
    ensures NegativeKill(kill) ==> kill.count < 0
  {
  }

  lemma NothingYet(player: string)
    ensures StreamOf(EMPTY, player) == [] && Count([], FIRST_HUNT) == 0 && StatusOf([], FIRST_HUNT) == Active
    ensures forall id :: !Seen([], id)
  {
    assert ProgressOf([], FIRST_HUNT) == None;
  }

  lemma ThreeSteps(ops: seq<Op>) returns (s1: Store, s2: Store)
    requires |ops| == 3
    ensures s1 == Step(EMPTY, ops[0]) && s2 == Step(s1, ops[1]) && Run(EMPTY, ops) == Step(s2, ops[2])
  {
    hide Step;
    s1, s2 := Run(EMPTY, ops[..1]), Run(EMPTY, ops[..2]);
    assert ops[..2][..1] == ops[..1] && ops[..1][..0] == [];
    assert Run(EMPTY, ops[..1][..0]) == EMPTY;
    assert s1 == Step(EMPTY, ops[..1][0]) && s2 == Step(s1, ops[..2][1]);
  }

  /** A kill that changes an unfinished first hunt without finishing it. */
  lemma KillCounts(stream: seq<Stored>, kill: Fact)
    requires RuleFor(kill) == Some(Rule(FIRST_HUNT, kill.count, 3)) && !IsSnapshot(kill) && kill.count != 0
    requires !Seen(stream, kill.eventId) && StatusOf(stream, FIRST_HUNT) == Active
    requires Count(stream, FIRST_HUNT) + kill.count < 3
    ensures var grown := stream + Appended(Decide(stream, kill));
            && Count(grown, FIRST_HUNT) == Count(stream, FIRST_HUNT) + kill.count
                && StatusOf(grown, FIRST_HUNT) == Active
            && forall id :: Seen(grown, id) <==> Seen(stream, id) || id == kill.eventId
  {
    hide RuleFor, ProgressOf, Rewards, IsSnapshot;
    AbsorbedBecause(stream, kill);
    AppendShape(stream, kill);
    AppendEffect(stream, kill, FIRST_HUNT);
    hide Decide, Seen;
    SeenOneMore(stream, Decide(stream, kill).events[0]);
    assert Decide(stream, kill).events == [Decide(stream, kill).events[0]];
  }

  lemma SeenOneMore(stream: seq<Stored>, e: Stored)
    ensures forall id :: Seen(stream + [e], id) <==> Seen(stream, id) || id == e.sourceEventId
  {
    forall id ensures Seen(stream + [e], id) <==> Seen(stream, id) || id == e.sourceEventId {
      if Seen(stream, id) {
        SeenGrows(stream, [e], id);
      }
      if id == e.sourceEventId {
        assert (stream + [e])[|stream|] == e;
      }
    }
  }
}
