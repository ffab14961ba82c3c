// The game edge's own record of gameplay messages, from which it computes snapshot kill counts.
module GameApi {
  import opened Quest
  import opened QuestProofs
  import opened QuestOrder

  predicate Recorded(events: seq<Fact>, e: Fact) {
    exists i | 0 <= i < |events| :: events[i].playerId == e.playerId && events[i].eventId == e.eventId
  }

  /** The messages kept when a list of messages is recorded one by one. */
  function RecordAll(events: seq<Fact>): seq<Fact> {
    if events == [] then []
    else
      var kept := RecordAll(events[..|events| - 1]);
      var last := events[|events| - 1];
      if Recorded(kept, last) then kept else kept + [last]
  }

  function Kills(events: seq<Fact>, player: string): int {
    if events == [] then 0
    else
      var last := events[|events| - 1];
      Kills(events[..|events| - 1], player)
      + (if last.playerId == player && last.kind == "MonsterKilled" then last.count else 0)
  }

  /** What reaches the edge: gameplay messages and kills it counts without publishing them. */
  datatype EdgeOp =
    | Record(e: Fact)
    | AddKills(playerId: string, count: int)

  /** The messages of a history, in order. */
  function Recordings(ops: seq<EdgeOp>): seq<Fact> {
    if ops == [] then []
    else
      var last := ops[|ops| - 1];
      Recordings(ops[..|ops| - 1]) + if last.Record? then [last.e] else []
  }

  function Unpublished(ops: seq<EdgeOp>, player: string): int {
    if ops == [] then 0
    else
      var last := ops[|ops| - 1];
      Unpublished(ops[..|ops| - 1], player)
      + if last.AddKills? && last.playerId == player then last.count else 0
  }

  /** The kill count the edge sends to the owner after this history. */
  function EdgeSnapshot(ops: seq<EdgeOp>, player: string): int {
    Kills(RecordAll(Recordings(ops)), player) + Unpublished(ops, player)
  }

  lemma OneMoreOp(ops: seq<EdgeOp>, op: EdgeOp)
    ensures Recordings(ops + [op]) == Recordings(ops) + if op.Record? then [op.e] else []
    ensures forall player ::
              Unpublished(ops + [op], player)
              == Unpublished(ops, player) + if op.AddKills? && op.playerId == player then op.count else 0
  {
    assert (ops + [op])[..|ops|] == ops;
  }

  lemma RecordOneMore(events: seq<Fact>, e: Fact)
    ensures RecordAll(events + [e])
         == if Recorded(RecordAll(events), e) then RecordAll(events) else RecordAll(events) + [e]
  {
    hide Recorded;
    assert (events + [e])[..|events|] == events;
  }

  class GameApiStore {
    var events: seq<Fact>
    var unpublishedKills: map<string, int>
    ghost var ops: seq<EdgeOp>

    /** The fields are what the history makes of them. */
    ghost predicate Valid()
      reads this
    {
      && events == RecordAll(Recordings(ops))
      && forall player :: (if player in unpublishedKills then unpublishedKills[player] else 0)
          == Unpublished(ops, player)
    }

    constructor ()
      ensures Valid() && ops == []
    {
      events, unpublishedKills, ops := [], map[], [];
    }

    method RecordEvent(e: Fact)
      requires Valid()
      modifies this`events, this`ops
      ensures Valid() && ops == old(ops) + [Record(e)]
      ensures Recorded(events, e) && old(events) <= events <= old(events) + [e]
    {
      OneMoreOp(ops, Record(e));
      RecordOneMore(Recordings(ops), e);
      ops := ops + [Record(e)];
      if Recorded(events, e) {
        assert events <= events + [e];
        return;
      }
      events := events + [e];
      assert events[|events| - 1] == e;
    }

    method AddUnpublishedKills(player: string, count: int)
      requires Valid()
      modifies this`unpublishedKills, this`ops
      ensures Valid() && ops == old(ops) + [AddKills(player, count)]
      ensures forall p :: EdgeSnapshot(ops, p) == EdgeSnapshot(old(ops), p) + if p == player then count else 0
    {
      OneMoreOp(ops, AddKills(player, count));
      ops := ops + [AddKills(player, count)];
      unpublishedKills := unpublishedKills[player :=
        (if player in unpublishedKills then unpublishedKills[player] else 0) + count];
      assert Recordings(ops) == Recordings(old(ops));
    }

    method SnapshotKillCount(player: string) returns (count: int)
      requires Valid()
      ensures count == EdgeSnapshot(ops, player)
    {
      count := 0;
      for i := 0 to |events|
        invariant count == Kills(events[..i], player)
      {
        assert events[..i + 1][..i] == events[..i];
        if events[i].playerId == player && events[i].kind == "MonsterKilled" {
          count := count + events[i].count;
        }
      }
      assert events[..|events|] == events;
      count := count + (if player in unpublishedKills then unpublishedKills[player] else 0);
    }
  }

  /** What is kept comes from the messages, and each message's id is kept. */
  lemma {:induction false} KeptFromSent(events: seq<Fact>)
    ensures forall e | e in RecordAll(events) :: e in events
    ensures forall e | e in events :: Recorded(RecordAll(events), e)
  {
    if events != [] {
      var front, last := events[..|events| - 1], events[|events| - 1];
      assert events == front + [last];
      KeptFromSent(front);
      RecordOneMore(front, last);
      var kept := RecordAll(front);
      assert !Recorded(kept, last) ==> (kept + [last])[|kept|] == last;
      forall e | e in front ensures Recorded(RecordAll(events), e) {
        var i :| 0 <= i < |kept| && kept[i].playerId == e.playerId && kept[i].eventId == e.eventId;
        assert RecordAll(events)[i] == kept[i];
      }
    }
  }

  /** When ids name messages, an id is kept exactly when its message came, at whatever time. */
  lemma RecordedMeansSent(front: seq<Fact>, e: Fact)
    requires Plain(front + [e])
    ensures Recorded(RecordAll(front), e) <==> Timeless(e) in Strip(front)
  {
    hide SameMessage, Plain, Strip, Timeless;
    KeptFromSent(front);
    PlainFront(front, e);
    StripHas(front, e);
    var kept := RecordAll(front);
    if Recorded(kept, e) {
      var i :| 0 <= i < |kept| && kept[i].playerId == e.playerId && kept[i].eventId == e.eventId;
      assert kept[i] in front;
    }
    if f :| f in front && SameMessage(f, e) {
      SameIds(f, e);
      assert Recorded(kept, f);
    }
  }

  lemma SameIds(e: Fact, f: Fact)
    requires SameMessage(e, f)
    ensures e.playerId == f.playerId && e.eventId == f.eventId
  {
  }

  /** When an id names one message per player, recording keeps each message once, with its first time. */
  lemma {:induction false} RecordingKeepsMessages(events: seq<Fact>)
    requires Plain(events)
    ensures Strip(RecordAll(events)) == Messages(events)
  {
    hide Recorded, Plain, Strip, Timeless;
    if events == [] {
      NothingKept();
    } else {
      var front, last := events[..|events| - 1], events[|events| - 1];
      assert events == front + [last];
      PlainFront(front, last);
      RecordingKeepsMessages(front);
      RecordOneMore(front, last);
      RecordedMeansSent(front, last);
      StripOneMore(front, last);
      StripOneMore(RecordAll(front), last);
      assert (Strip(front) + [Timeless(last)])[..|front|] == Strip(front);
      assert Messages(front) + [] == Messages(front);
    }
  }

  lemma NothingKept()
    ensures Strip(RecordAll([])) == Messages([]) == []
  {
  }

  lemma {:induction false} KillsTimeless(events: seq<Fact>, player: string)
    ensures Kills(Strip(events), player) == Kills(events, player)
  {
    if events != [] {
      var front, last := events[..|events| - 1], events[|events| - 1];
      assert events == front + [last];
      KillsTimeless(front, player);
      StripOneMore(front, last);
      assert Strip(events)[..|events| - 1] == Strip(front);
    }
  }

  /** Kills of other monsters than wolves. */
  function OtherKills(events: seq<Fact>, player: string): int {
    if events == [] then 0
    else
      var last := events[|events| - 1];
      OtherKills(events[..|events| - 1], player) + if IsOtherKill(last, player) then last.count else 0
  }

  predicate IsOtherKill(e: Fact, player: string) {
    e.playerId == player && e.kind == "MonsterKilled" && e.value != "wolf"
  }

  lemma {:induction false} KillsSplit(events: seq<Fact>, player: string)
    requires forall e | e in events :: !IsSnapshot(e)
    ensures Kills(events, player) == Total(events, player, FIRST_HUNT) + OtherKills(events, player)
  {
    if events != [] {
      var front, last := events[..|events| - 1], events[|events| - 1];
      assert events == front + [last];
      assert last in events;
      KillsSplit(front, player);
    }
  }

  lemma {:induction false} OtherKillsNone(events: seq<Fact>, player: string)
    requires forall e | e in events :: e.count >= 0
    ensures OtherKills(events, player) >= 0
    ensures OtherKills(events, player) == 0 <==> forall e | e in events && IsOtherKill(e, player) :: e.count == 0
  {
    hide IsOtherKill;
    if events != [] {
      var front, last := events[..|events| - 1], events[|events| - 1];
      assert events == front + [last];
      assert (forall e | e in front :: e in events) && last in events;
      OtherKillsNone(front, player);
    }
  }

  lemma {:induction false} UnpublishedNone(ops: seq<EdgeOp>, player: string)
    requires forall op | op in ops :: op.AddKills? ==> op.count >= 0
    ensures Unpublished(ops, player) >= 0
    ensures Unpublished(ops, player) == 0
       <==> forall op | op in ops && op.AddKills? && op.playerId == player :: op.count == 0
  {
    if ops != [] {
      var front, last := ops[..|ops| - 1], ops[|ops| - 1];
      assert ops == front + [last];
      assert (forall op | op in front :: op in ops) && last in ops;
      UnpublishedNone(front, player);
    }
  }

  lemma MessagesArePlain(events: seq<Fact>)
    requires Plain(events)
    ensures forall e | e in Messages(events) :: !IsSnapshot(e) && e.count >= 0
  {
    DistinctHasSameEvents(Strip(events));
    hide Distinct, IsSnapshot;
    forall e | e in Messages(events) ensures !IsSnapshot(e) && e.count >= 0 {
      var i :| 0 <= i < |events| && Strip(events)[i] == e;
      assert events[i] in events;
      TimelessSame(events[i]);
    }
  }

  lemma TimelessSame(e: Fact)
    ensures IsSnapshot(Timeless(e)) == IsSnapshot(e) && Timeless(e).count == e.count
    ensures forall player :: IsOtherKill(Timeless(e), player) == IsOtherKill(e, player)
  {
  }

  /** The edge's snapshot is the distinct wolf kills, the distinct other kills and the unpublished. */
  lemma SnapshotIsSum(ops: seq<EdgeOp>, player: string)
    requires Plain(Recordings(ops))
    ensures var sent := Messages(Recordings(ops));
            EdgeSnapshot(ops, player)
            == Total(sent, player, FIRST_HUNT) + OtherKills(sent, player) + Unpublished(ops, player)
  {
    hide Total, OtherKills, Unpublished, Kills, Messages, Plain, Strip;
    RecordingKeepsMessages(Recordings(ops));
    KillsTimeless(RecordAll(Recordings(ops)), player);
    MessagesArePlain(Recordings(ops));
    KillsSplit(Messages(Recordings(ops)), player);
  }

  /** The wolf kills of the distinct messages of a history. */
  function WolfKills(ops: seq<EdgeOp>, player: string): int {
    Total(Messages(Recordings(ops)), player, FIRST_HUNT)
  }

  /** No kill of another monster counts, and no unpublished one. */
  ghost predicate OnlyWolves(ops: seq<EdgeOp>, player: string) {
    && (forall e | e in Recordings(ops) && IsOtherKill(e, player) :: e.count == 0)
    && (forall op | op in ops && op.AddKills? && op.playerId == player :: op.count == 0)
  }

  /** Kills that are distinct messages are kills that came. */
  lemma OtherKillsAmong(events: seq<Fact>, player: string)
    ensures (forall e | e in Messages(events) && IsOtherKill(e, player) :: e.count == 0)
       <==> (forall e | e in events && IsOtherKill(e, player) :: e.count == 0)
  {
    DistinctHasSameEvents(Strip(events));
    hide Distinct, IsOtherKill, Timeless;
    if forall e | e in Messages(events) && IsOtherKill(e, player) :: e.count == 0 {
      forall e | e in events && IsOtherKill(e, player) ensures e.count == 0 {
        var i :| 0 <= i < |events| && events[i] == e;
        assert Strip(events)[i] == Timeless(e);
        TimelessSame(e);
        assert Timeless(e) in Messages(events);
      }
    }
    if forall e | e in events && IsOtherKill(e, player) :: e.count == 0 {
      forall e | e in Messages(events) && IsOtherKill(e, player) ensures e.count == 0 {
        var i :| 0 <= i < |events| && Strip(events)[i] == e;
        TimelessSame(events[i]);
        assert events[i] in events;
      }
    }
  }

  /** Edge and owner agree on the first hunt, when every message reached the owner in any order and
      with any repeats at any times, exactly when the wolves alone finish it or nothing but wolves was
      counted. */
  lemma OwnerAgreesExactly(ops: seq<EdgeOp>, delivered: seq<Fact>, player: string)
    requires Plain(Recordings(ops)) && Plain(delivered) && SameEvents(Strip(Recordings(ops)), Strip(delivered))
    requires forall op | op in ops :: op.AddKills? ==> op.count >= 0
    ensures Count(StreamOf(After(delivered), player), FIRST_HUNT) == Min(3, EdgeSnapshot(ops, player))
       <==> WolfKills(ops, player) >= 3 || OnlyWolves(ops, player)
  {
    var sent := Recordings(ops);
    hide Total, OtherKills, Unpublished, EdgeSnapshot, Distinct, After, Count, IsOtherKill, Plain, Recordings, Strip;
    SnapshotIsSum(ops, player);
    DistinctHasSameEvents(Strip(sent));
    DistinctHasSameEvents(Strip(delivered));
    CountIsCappedTotal(delivered, player, FIRST_HUNT);
    TotalIgnoresOrder(Messages(sent), Messages(delivered), player, FIRST_HUNT);
    MessagesArePlain(sent);
    OtherKillsNone(Messages(sent), player);
    OtherKillsAmong(sent, player);
    UnpublishedNone(ops, player);
  }
}
