// The cached projection as the replay with quests hidden, and what a sync achieves.
module QuestCache {
  import opened Wrappers
  import opened Numerals
  import opened Quest
  import opened QuestProofs

  // ---- The cache -------------------------------------------------------------------------

  /** The quests deleted from a player's cache since it was last rebuilt. */
  ghost function Hidden(ops: seq<Op>, player: string): set<string> {
    if ops == [] then {}
    else
      var front, last := ops[..|ops| - 1], ops[|ops| - 1];
      var before := Hidden(front, player);
      match last
      case Deliver(e) =>
        if e.playerId == player && Decide(StreamOf(Run(EMPTY, front), player), e).Append? then {} else before
      case Delete(p, questId) => if p == player then before + {questId} else before
      case Rebuild(p) => if p == player then {} else before
      case Rehydrate(p) => if p == player then {} else before
  }

  lemma {:induction false} WithoutTwice(projection: seq<Progress>, a: set<string>, b: set<string>)
    ensures Without(Without(projection, a), b) == Without(projection, a + b)
  {
    if projection != [] {
      WithoutTwice(projection[1..], a, b);
      var rest := Without(projection[1..], a);
      if projection[0].questId in a {
        assert Without(projection, a) == rest;
      } else {
        assert Without(projection, a)[1..] == rest;
      }
    }
  }

  lemma {:induction false} WithoutNone(projection: seq<Progress>)
    ensures Without(projection, {}) == projection
  {
    if projection != [] {
      WithoutNone(projection[1..]);
    }
  }

  lemma StepCache(s: Store, op: Op, player: string)
    ensures Cached(Step(s, op), player) ==
      match op
      case Deliver(e) =>
        if e.playerId == player && Decide(StreamOf(s, player), e).Append? then Replay(StreamOf(Step(s, op), player))
        else Cached(s, player)
      case Delete(p, questId) => if p == player then Without(Cached(s, player), {questId}) else Cached(s, player)
      case Rebuild(p) => if p == player then Replay(StreamOf(s, player)) else Cached(s, player)
      case Rehydrate(p) => if p == player then Replay(StreamOf(s, player)) else Cached(s, player)
  {
    hide Decide, Replay, Without;
  }

  /** In every run the cache is the replayed stream with the hidden quests left out: it is stale
      only through deletions, and any append, rebuild or rehydration heals it. */
  lemma {:induction false} CacheIsReplayWithoutHidden(ops: seq<Op>, player: string)
    ensures Cached(Run(EMPTY, ops), player)
         == Without(Replay(StreamOf(Run(EMPTY, ops), player)), Hidden(ops, player))
  {
    if ops == [] {
      assert StreamOf(EMPTY, player) == [];
    } else {
      var front, last := ops[..|ops| - 1], ops[|ops| - 1];
      var s := Run(EMPTY, front);
      CacheIsReplayWithoutHidden(front, player);
      StepCache(s, last, player);
      StepStreams(s, last, player);
      hide Step, Decide, Replay, Without;
      assert StreamOf(s, player) + [] == StreamOf(s, player);
      WithoutNone(Replay(StreamOf(Run(EMPTY, ops), player)));
      if last.Delete? {
        WithoutTwice(Replay(StreamOf(s, player)), Hidden(front, player), {last.questId});
      }
    }
  }

  // ---- Quests after a run ------------------------------------------------------------------

  /** In every run, whatever the counts are, a quest is rewarded at most once, and rests Rewarded
      exactly when its count meets its requirement and Active otherwise. */
  lemma RewardedExactlyWhenMet(ops: seq<Op>, player: string, q: string)
    ensures var stream := StreamOf(Run(EMPTY, ops), player);
            && Rewards(stream, q) == (if Count(stream, q) >= Required(q) then 1 else 0)
            && StatusOf(stream, q) == (if Count(stream, q) >= Required(q) then Rewarded else Active)
  {
    ReachableOk(ops);
    var stream := StreamOf(Run(EMPTY, ops), player);
    assert StreamOk(stream, player);
    assert QuestOk(stream, q);
  }

  /** The count addition in apply stays within a 32-bit int whenever the event's count is at most
      INT_MAX less the largest requirement. */
  lemma AdditionFitsInt32(ops: seq<Op>, e: Fact)
    requires NonNegative(ops) && 0 <= e.count <= 0x7fff_ffff - 5
    requires RuleFor(e).Some?
    requires StatusOf(StreamOf(Run(EMPTY, ops), e.playerId), RuleFor(e).value.questId) != Rewarded
    ensures 0 <= Count(StreamOf(Run(EMPTY, ops), e.playerId), RuleFor(e).value.questId)
        + RuleFor(e).value.delta <= 0x7fff_ffff
  {
    hide Run, StreamOf, ProgressOf, Rewards;
    var q := RuleFor(e).value.questId;
    RewardedExactlyWhenMet(ops, e.playerId, q);
    CountsNotNegative(ops, e.playerId, q);
  }

  // ---- Sync ---------------------------------------------------------------------------------

  lemma SyncStream(s: Store, player: string, n: int, now: int)
    requires n > 0
    ensures var e := SnapshotFact(player, n, now);
            StreamOf(Sync(s, player, n, now).0, player)
                == StreamOf(s, player) + Appended(Decide(StreamOf(s, player), e))
    ensures RuleFor(SnapshotFact(player, n, now)) == Some(Rule(FIRST_HUNT, n, 3))
  {
    hide Decide, Replay;
    assert StreamOf(s, player) + [] == StreamOf(s, player);
  }

  /** A sync answers the player's cache as it stands afterwards; one without kills leaves the store alone. */
  lemma SyncAnswersTheCache(s: Store, player: string, n: int, now: int)
    ensures var (t, answer) := Sync(s, player, n, now); answer == Cached(t, player) && (n <= 0 ==> t == s)
  {
    hide Replay, FindProgress, NextCount, Seen, Event, ToText;
  }

  /** After sync(n) the first hunt has reached n kills exactly when it had before or no stored
      event already bears the snapshot's event id. */
  lemma SyncReachesExactlyWhen(s: Store, player: string, n: int, now: int)
    requires StoreOk(s) && n > 0
    ensures Count(StreamOf(Sync(s, player, n, now).0, player), FIRST_HUNT) >= n
       <==> Count(StreamOf(s, player), FIRST_HUNT) >= n
            || !Seen(StreamOf(s, player), SnapshotFact(player, n, now).eventId)
  {
    var stream := StreamOf(s, player);
    var e := SnapshotFact(player, n, now);
    SyncStream(s, player, n, now);
    AbsorbedBecause(stream, e);
    assert StreamOk(stream, player) && QuestOk(stream, FIRST_HUNT);
    hide RuleFor, ProgressOf, Rewards, Decide, SnapshotFact, Sync, Seen;
    if Decide(stream, e).Append? {
      AppendEffect(stream, e, FIRST_HUNT);
    } else {
      assert stream + [] == stream;
    }
  }

  /** The id the game edge gives a kill sent with an idempotency key. */
  function EdgeEventId(player: string, key: string): string {
    player + "-" + key
  }

  lemma OneKill(kill: Fact)
    requires kill.kind == "MonsterKilled" && kill.value == "wolf" && kill.count == 1
    ensures var s := Run(EMPTY, [Deliver(kill)]);
            StoreOk(s) && Count(StreamOf(s, kill.playerId), FIRST_HUNT) == 1
            && Seen(StreamOf(s, kill.playerId), kill.eventId)
  {
    var ops := [Deliver(kill)];
    assert ops[..0] == [];
    assert StreamOf(EMPTY, kill.playerId) == [] && ProgressOf([], FIRST_HUNT) == None;
    assert RuleFor(kill) == Some(Rule(FIRST_HUNT, 1, 3));
    ReachableOk(ops);
    StepStreams(EMPTY, ops[0], kill.playerId);
    hide RuleFor, ProgressOf, Rewards, Decide, Step, Seen;
    NothingSeen(kill.eventId);
    AbsorbedBecause([], kill);
    AppendShape([], kill);
    AppendEffect([], kill, FIRST_HUNT);
    var events := Appended(Decide([], kill));
    assert [] + events == events;
    SeenFirst(events, kill.eventId);
  }

  lemma NothingSeen(id: string)
    ensures !Seen([], id)
  {
  }

  lemma SeenFirst(stream: seq<Stored>, id: string)
    requires stream != [] && stream[0].sourceEventId == id
    ensures Seen(stream, id)
  {
  }

  /** The condition can fail: a kill sent with the key "snapshot-<n>" takes the snapshot's id, and
      the later sync(n) is then dropped as already applied. */
  lemma KillKeyCanBlockSync(player: string, n: int, now: int)
    requires n > 1
    ensures var kill := Fact(EdgeEventId(player, "snapshot-" + ToText(n)), player, "MonsterKilled", "wolf", 1, now);
            var s := Run(EMPTY, [Deliver(kill)]);
            Count(StreamOf(Sync(s, player, n, now).0, player), FIRST_HUNT) < n
  {
    var kill := Fact(EdgeEventId(player, "snapshot-" + ToText(n)), player, "MonsterKilled", "wolf", 1, now);
    assert kill.eventId == SnapshotFact(player, n, now).eventId;
    hide Run, Sync, SnapshotFact, Seen, Count, StoreOk;
    OneKill(kill);
    SyncReachesExactlyWhen(Run(EMPTY, [Deliver(kill)]), player, n, now);
  }

  /** No other message uses the event id of the player's snapshot n, except larger snapshots. */
  ghost predicate SnapshotIdIsFree(ops: seq<Op>, player: string, n: int)
    requires n > 0
  {
    forall i | 0 <= i < |ops| ::
      ops[i].Deliver? && ops[i].e.playerId == player && ops[i].e.eventId == SnapshotFact(player, n, 0).eventId
      ==> IsSnapshot(ops[i].e) && ops[i].e.count >= n
  }

  lemma {:induction false} SnapshotSeenIsCounted(ops: seq<Op>, player: string, n: int)
    requires NoNegativeKills(ops) && n > 0 && SnapshotIdIsFree(ops, player, n)
    requires Seen(StreamOf(Run(EMPTY, ops), player), SnapshotFact(player, n, 0).eventId)
    ensures Count(StreamOf(Run(EMPTY, ops), player), FIRST_HUNT) >= n
  {
    var id := SnapshotFact(player, n, 0).eventId;
    hide SnapshotFact, Count, RuleFor, Decide, Step;
    if ops != [] {
      var front, last := ops[..|ops| - 1], ops[|ops| - 1];
      var stream := StreamOf(Run(EMPTY, front), player);
      ReachableOk(front);
      assert StreamOk(stream, player) && QuestOk(stream, FIRST_HUNT);
      StepStreams(Run(EMPTY, front), last, player);
      assert stream + [] == stream;
      if Seen(stream, id) {
        SnapshotSeenIsCounted(front, player, n);
        if last.Deliver? && last.e.playerId == player {
          DecideKeepsQuest(stream, last.e, FIRST_HUNT);
          LowersHasRule(last.e);
          if RuleFor(last.e).Some? {
            RuleQuest(last.e);
          }
        }
      } else {
        StoredNow(stream, last.e, id);
        AppendEffect(stream, last.e, FIRST_HUNT);
        SnapshotCounts(stream, last.e);
      }
    }
  }

  lemma StoredNow(stream: seq<Stored>, e: Fact, id: string)
    requires !Seen(stream, id) && Seen(stream + Appended(Decide(stream, e)), id)
    ensures Decide(stream, e).Append? && e.eventId == id
  {
    assert stream + [] == stream;
    if Decide(stream, e).Append? {
      AppendShape(stream, e);
    }
  }

  lemma SnapshotCounts(stream: seq<Stored>, e: Fact)
    requires IsSnapshot(e)
    ensures RuleFor(e).Some? && RuleFor(e).value.questId == FIRST_HUNT
    ensures NextCount(e, RuleFor(e).value, Count(stream, FIRST_HUNT)) >= e.count
  {
  }

  /** In every run without negative kills that keeps snapshot ids to snapshots, sync(n) brings the
      first hunt to n. */
  lemma SyncReaches(ops: seq<Op>, player: string, n: int, now: int)
    requires NoNegativeKills(ops) && n > 0 && SnapshotIdIsFree(ops, player, n)
    ensures Count(StreamOf(Sync(Run(EMPTY, ops), player, n, now).0, player), FIRST_HUNT) >= n
  {
    ReachableOk(ops);
    assert SnapshotFact(player, n, now).eventId == SnapshotFact(player, n, 0).eventId;
    hide Run, Sync, SnapshotFact, Seen, Count, StoreOk, SnapshotIdIsFree;
    if Seen(StreamOf(Run(EMPTY, ops), player), SnapshotFact(player, n, 0).eventId) {
      SnapshotSeenIsCounted(ops, player, n);
    }
    SyncReachesExactlyWhen(Run(EMPTY, ops), player, n, now);
  }
}
