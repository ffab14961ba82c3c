// What the owner answers to a message and what it stores for it, spelled out: counts, rewards, the
// completed and the reconciled quest, the events and the progress shown.
module QuestAnswers {
  import opened Wrappers
  import opened Numerals
  import opened Quest
  import opened QuestProofs
  import opened QuestOrder

  // ---- The answer ---------------------------------------------------------------------------------

  /** A Reconciled event of quest q was added to the stream. */
  ghost predicate Reconciles(before: seq<Stored>, after: seq<Stored>, q: string) {
    exists i | |before| <= i < |after| :: after[i].kind == Reconciled && after[i].questId == q
  }

  /** The message is new, counts for a quest that is rewarded already, and is no snapshot. */
  ghost predicate FindsRewarded(stream: seq<Stored>, e: Fact) {
    && !IsSnapshot(e) && RuleFor(e).Some? && StatusOf(stream, RuleFor(e).value.questId) == Rewarded
    && forall i | 0 <= i < |stream| :: stream[i].sourceEventId != e.eventId
  }

  lemma ReconciledAmong(before: seq<Stored>, events: seq<Stored>, q: string)
    ensures Reconciles(before, before + events, q) <==>
            exists i | 0 <= i < |events| :: events[i].kind == Reconciled && events[i].questId == q
  {
    var after := before + events;
    if i :| 0 <= i < |events| && events[i].kind == Reconciled && events[i].questId == q {
      assert after[|before| + i] == events[i];
    }
    if i :| |before| <= i < |after| && after[i].kind == Reconciled && after[i].questId == q {
      assert after[i] == events[i - |before|];
    }
  }

  lemma RuleNamesAQuest(e: Fact)
    ensures RuleFor(e).Some? ==> RuleFor(e).value.questId != ""
  {
  }

  /** What an appending decision adds, as the answer tells it. */
  lemma AppendTells(stream: seq<Stored>, e: Fact)
    requires Decide(stream, e).Append?
    ensures var d := Decide(stream, e);
            var after := stream + d.events;
            && d.questId != "" && d.events != []
            && (forall q :: Rewards(after, q) == Rewards(stream, q) + if d.completes && q == d.questId then 1 else 0)
            && (forall q :: Reconciles(stream, after, q) <==> IsSnapshot(e) && q == d.questId)
  {
    hide Decide, RuleFor, Rewards, Count, NextCount, StatusOf, IsSnapshot, Reconciles, ProgressOf;
    AppendShape(stream, e);
    RuleNamesAQuest(e);
    var d := Decide(stream, e);
    forall q
      ensures Rewards(stream + d.events, q)
           == Rewards(stream, q) + if d.completes && q == d.questId then 1 else 0
      ensures Reconciles(stream, stream + d.events, q) <==> IsSnapshot(e) && q == d.questId
    {
      AppendEffect(stream, e, q);
      ReconciledAmong(stream, d.events, q);
      if IsSnapshot(e) {
        assert d.events[0].kind == Reconciled && d.events[0].questId == d.questId;
      }
    }
  }

  lemma NothingAddedTells(stream: seq<Stored>)
    ensures forall q :: !Reconciles(stream, stream, q)
  {
  }

  /** What an answer says of a quest whose stream went from before to after. */
  ghost predicate Tells(answer: Evaluation, before: seq<Stored>, after: seq<Stored>, q: string) {
    && Rewards(before, q) <= Rewards(after, q) <= Rewards(before, q) + 1
    && (q != "" ==> (answer.completedQuestId == q <==> Rewards(after, q) == Rewards(before, q) + 1))
    && (q != "" ==> (answer.reconciledQuestId == q <==> Reconciles(before, after, q)))
  }

  lemma AppendAnswers(s: Store, e: Fact)
    requires Decide(StreamOf(s, e.playerId), e).Append?
    ensures var (t, answer) := Apply(s, e);
            var before, after := StreamOf(s, e.playerId), StreamOf(t, e.playerId);
            && before < after && answer.projection == Cached(t, e.playerId) == Replay(after)
            && (forall q :: Tells(answer, before, after, q))
            && (answer.rewardGranted <==> answer.completedQuestId != "")
            && (answer.rewardGranted ==>
                  Rewards(after, answer.completedQuestId) > Rewards(before, answer.completedQuestId))
            && (!answer.rewardGranted ==> forall q :: Rewards(after, q) == Rewards(before, q))
  {
    hide Replay, Rewards, Reconciles, Decide, IsSnapshot;
    AppendTells(StreamOf(s, e.playerId), e);
    var d := Decide(StreamOf(s, e.playerId), e);
    assert StreamOf(Apply(s, e).0, e.playerId) == StreamOf(s, e.playerId) + d.events;
  }

  lemma OtherwiseAnswers(s: Store, e: Fact)
    requires !Decide(StreamOf(s, e.playerId), e).Append?
    ensures var (t, answer) := Apply(s, e);
            var before := StreamOf(s, e.playerId);
            && StreamOf(t, e.playerId) == before && t.projections == s.projections
            && answer == Evaluation(if FindsRewarded(before, e) then Replay(before) else Cached(s, e.playerId), "", "",
                                    false)
            && (forall q :: Tells(answer, before, before, q))
  {
    hide Replay, Rewards, Decide, FindsRewarded, Cached;
    WhenRewarded(StreamOf(s, e.playerId), e);
    NothingAddedTells(StreamOf(s, e.playerId));
    hide Reconciles;
  }

  /** The answer names a quest as completed exactly when its rewards rise, grants a reward exactly when some
      quest's rewards rise, names a quest as reconciled exactly when a Reconciled event of it is stored, and
      shows the new cache when something was stored. */
  lemma AnswerTellsWhatHappened(s: Store, e: Fact)
    ensures var (t, answer) := Apply(s, e);
            var before, after := StreamOf(s, e.playerId), StreamOf(t, e.playerId);
            && before <= after
            && (forall q :: Tells(answer, before, after, q))
            && (answer.rewardGranted <==> exists q :: Rewards(after, q) > Rewards(before, q))
            && (answer.rewardGranted <==> answer.completedQuestId != "")
            && answer.projection == (if after != before then Cached(t, e.playerId)
                                     else if FindsRewarded(before, e) then Replay(before)
                                     else Cached(s, e.playerId))
            && (after != before ==> Cached(t, e.playerId) == Replay(after))
            && (after == before ==> t.projections == s.projections)
  {
    hide Replay, Rewards, Tells, Decide, Cached, FindsRewarded, Apply;
    var (t, answer) := Apply(s, e);
    var before, after := StreamOf(s, e.playerId), StreamOf(t, e.playerId);
    if Decide(before, e).Append? {
      AppendAnswers(s, e);
      assert before <= after && after != before;
    } else {
      OtherwiseAnswers(s, e);
    }
  }

  lemma WhenRewarded(stream: seq<Stored>, e: Fact)
    ensures Decide(stream, e) == AlreadyRewarded <==> FindsRewarded(stream, e)
  {
    hide Replay, FindProgress, RuleFor, NextCount, Event;
  }

  // ---- What counts for what ---------------------------------------------------------------------------

  /** What the message makes of a quest's count; None when it does not count for the quest. */
  ghost function CountAfter(e: Fact, q: string, before: int): Option<int> {
    if q == "first-hunt" && e.kind == "MonsterKilled" && e.value == "wolf" then Some(Min(3, before + e.count))
    else if q == "first-hunt" && e.kind == "SnapshotKillCount" then Some(if before >= e.count then before else e.count)
    else if q == "herb-gathering" && e.kind == "ItemCollected" && e.value == "healing-herb"
    then Some(Min(5, before + e.count))
    else if q == "visit-ruins" && e.kind == "AreaEntered" && e.value == "ruins" then Some(Min(1, before + 1))
    else None
  }

  lemma RuleCounts(e: Fact, q: string, before: int)
    ensures CountAfter(e, q, before)
         == if RuleFor(e).Some? && RuleFor(e).value.questId == q then Some(NextCount(e, RuleFor(e).value, before))
            else None
    ensures RuleFor(e).Some? ==> RuleFor(e).value.required == Required(RuleFor(e).value.questId)
  {
  }

  /** A new message makes of every quest that is not rewarded what its kind says: wolves count up to three and
      herbs up to five by their number, entering the ruins counts once, and a snapshot raises the first hunt,
      rewarded or not; any other message, and one whose id is stored, changes no quest. */
  lemma MessageCounts(stream: seq<Stored>, e: Fact, q: string)
    ensures var after := stream + Appended(Decide(stream, e));
            Count(after, q)
            == if Seen(stream, e.eventId) || CountAfter(e, q, Count(stream, q)) == None
                  || (StatusOf(stream, q) == Rewarded && e.kind != "SnapshotKillCount") then Count(stream, q)
               else CountAfter(e, q, Count(stream, q)).value
  {
    hide Decide, RuleFor, Rewards, NextCount, CountAfter, Seen, ProgressOf;
    AbsorbedBecause(stream, e);
    RuleCounts(e, q, Count(stream, q));
    if Decide(stream, e).Append? {
      AppendShape(stream, e);
      AppendEffect(stream, e, q);
      hide Replay;
    } else {
      assert stream + [] == stream;
    }
  }

  // ---- The events stored -----------------------------------------------------------------------------------

  /** One stored event of a message, spelled out. */
  ghost function StoredAs(e: Fact, q: string, kind: Kind, name: string, delta: int, count: int, version: nat): Stored {
    Stored(e.eventId + ":" + name, e.playerId, q, kind, e.eventId, delta, count, Required(q), version, e.occurredAt)
  }

  /** What a message that is stored adds to the stream: the change of its quest's count, and when that reaches
      the requirement of a quest not yet rewarded, its completion and its reward. */
  lemma StoredEventsAre(stream: seq<Stored>, e: Fact)
    requires Decide(stream, e).Append?
    ensures var d, n := Decide(stream, e), |stream|;
            var q := d.questId;
            var count := Count(stream + d.events, q);
            var change := if e.kind == "SnapshotKillCount" then Reconciled else Progressed;
            var name := if e.kind == "SnapshotKillCount" then "QuestReconciled" else "QuestProgressed";
            && count != Count(stream, q)
            && d.events
               == [StoredAs(e, q, change, name, count - Count(stream, q), count, n + 1)]
                  + if count >= Required(q) && StatusOf(stream, q) == Active then
                      [StoredAs(e, q, Completed, "QuestCompleted", 0, count, n + 2),
                       StoredAs(e, q, RewardGranted, "QuestRewardGranted", 0, count, n + 3)]
                    else []
  {
    hide Decide, RuleFor, Rewards, NextCount, ProgressOf, Required;
    AppendShape(stream, e);
    RuleCounts(e, Decide(stream, e).questId, 0);
    AppendEffect(stream, e, Decide(stream, e).questId);
    hide Replay, Count;
  }

  /** The progress that a stored message leaves of its quest. */
  lemma StoredProgressIs(stream: seq<Stored>, e: Fact)
    requires StreamOk(stream, e.playerId) && Decide(stream, e).Append?
    ensures var d := Decide(stream, e);
            var after, q := stream + d.events, d.questId;
            ProgressOf(after, q)
            == Some(Progress(e.playerId, q, StatusOf(after, q), Count(after, q), Required(q), e.eventId, |after|,
                             e.occurredAt))
  {
    hide Decide, RuleFor, Rewards, NextCount, ProgressOf, Required, QuestOk;
    var d := Decide(stream, e);
    var q := d.questId;
    AppendShape(stream, e);
    RuleCounts(e, q, 0);
    PlayerOf(stream, e.playerId, q);
    if d.completes {
      var s1, s2 := stream + [d.events[0]], stream + [d.events[0]] + [d.events[1]];
      AfterEvent(stream, d.events[0], q);
      AfterEvent(s1, d.events[1], q);
      AfterEvent(s2, d.events[2], q);
      assert stream + d.events == s2 + [d.events[2]];
    } else {
      AfterEvent(stream, d.events[0], q);
      assert d.events == [d.events[0]];
    }
  }

  /** The progress of a quest is its stream's player's. */
  lemma {:induction false} PlayerOf(stream: seq<Stored>, player: string, q: string)
    requires forall i | 0 <= i < |stream| :: stream[i].playerId == player
    ensures ProgressOf(stream, q).Some? ==>
              ProgressOf(stream, q).value.playerId == player && ProgressOf(stream, q).value.questId == q
  {
    hide ProgressOf, Rewards;
    if stream == [] {
      NoProgress(q);
    } else {
      var front, last := stream[..|stream| - 1], stream[|stream| - 1];
      assert stream == front + [last];
      PlayerOf(front, player, q);
      AfterEvent(front, last, q);
    }
  }

  lemma NoProgress(q: string)
    ensures ProgressOf([], q) == None
  {
  }

  // ---- Replay, field by field ------------------------------------------------------------------------------

  /** The last event of the quest that marks its status, read as a status. */
  function LastStatus(stream: seq<Stored>, q: string): Status {
    if stream == [] then Active
    else
      var last := stream[|stream| - 1];
      if last.questId == q && last.kind == Completed then QuestCompleted
      else if last.questId == q && last.kind == RewardGranted then Rewarded
      else LastStatus(stream[..|stream| - 1], q)
  }

  /** The count that the last event of the quest with a count states. */
  function LastCount(stream: seq<Stored>, q: string): int {
    if stream == [] then 0
    else
      var last := stream[|stream| - 1];
      if last.questId == q && (last.kind == Progressed || last.kind == Reconciled) then last.currentCount
      else LastCount(stream[..|stream| - 1], q)
  }

  /** The quest's last event of any kind. */
  function LastEvent(stream: seq<Stored>, q: string): Option<Stored> {
    if stream == [] then None
    else if stream[|stream| - 1].questId == q then Some(stream[|stream| - 1])
    else LastEvent(stream[..|stream| - 1], q)
  }

  /** Replaying any stream shows of a quest the last status marked, the last count stated, and the source,
      version and time of its last event; and nothing of a quest without events. */
  lemma {:induction false} ReplayShowsTheLast(stream: seq<Stored>, q: string)
    ensures match LastEvent(stream, q)
            case None => ProgressOf(stream, q) == None
            case Some(last) =>
              ProgressOf(stream, q).Some? && var p := ProgressOf(stream, q).value;
                p.status == LastStatus(stream, q) && p.currentCount == LastCount(stream, q)
                && p.lastSourceEventId == last.sourceEventId && p.version == last.version
                && p.updatedAt == last.createdAt
    ensures LastEvent(stream, q) == None ==> LastStatus(stream, q) == Active && LastCount(stream, q) == 0
  {
    hide ProgressOf, Rewards;
    if stream == [] {
      NoProgress(q);
    } else {
      var front, last := stream[..|stream| - 1], stream[|stream| - 1];
      assert stream == front + [last];
      ReplayShowsTheLast(front, q);
      AfterEvent(front, last, q);
    }
  }

  // ---- Counts are the sums of what was stored -----------------------------------------------------------------

  /** The changes stored for a quest, added up. */
  function Changes(stream: seq<Stored>, q: string): int {
    if stream == [] then 0
    else
      var last := stream[|stream| - 1];
      Changes(stream[..|stream| - 1], q) + if last.questId == q then last.delta else 0
  }

  lemma ChangesOneMore(stream: seq<Stored>, e: Stored, q: string)
    ensures Changes(stream + [e], q) == Changes(stream, q) + if e.questId == q then e.delta else 0
  {
    assert (stream + [e])[..|stream|] == stream;
  }

  lemma AppendedChanges(stream: seq<Stored>, e: Fact, q: string)
    requires Changes(stream, q) == Count(stream, q)
    ensures var after := stream + Appended(Decide(stream, e)); Changes(after, q) == Count(after, q)
  {
    hide Decide, Changes, Count, StatusOf, Required;
    if Decide(stream, e).Append? {
      StoredEventsAre(stream, e);
      OthersKeepCount(stream, e, q);
      var events := Decide(stream, e).events;
      ChangesOneMore(stream, events[0], q);
      if |events| == 3 {
        var s1 := stream + [events[0]];
        ChangesOneMore(s1, events[1], q);
        ChangesOneMore(s1 + [events[1]], events[2], q);
        assert stream + events == s1 + [events[1]] + [events[2]];
      } else {
        assert events == [events[0]];
      }
    } else {
      assert stream + [] == stream;
    }
  }

  lemma OthersKeepCount(stream: seq<Stored>, e: Fact, q: string)
    requires Decide(stream, e).Append?
    ensures q != Decide(stream, e).questId ==> Count(stream + Decide(stream, e).events, q) == Count(stream, q)
  {
    hide Decide, RuleFor, Rewards, NextCount, ProgressOf;
    AppendEffect(stream, e, q);
  }

  /** In every run a quest's count is the sum of the changes its stream stores, whatever the counts are. */
  lemma {:induction false} CountIsSumOfChanges(ops: seq<Op>, player: string, q: string)
    ensures var stream := StreamOf(Run(EMPTY, ops), player); Count(stream, q) == Changes(stream, q)
  {
    hide Step, Decide, Count, Changes;
    if ops == [] {
      NothingChanged(q);
    } else {
      var front, last := ops[..|ops| - 1], ops[|ops| - 1];
      var stream := StreamOf(Run(EMPTY, front), player);
      CountIsSumOfChanges(front, player, q);
      StepStreams(Run(EMPTY, front), last, player);
      if last.Deliver? && last.e.playerId == player {
        AppendedChanges(stream, last.e, q);
      } else {
        assert stream + [] == stream;
      }
    }
  }

  lemma NothingChanged(q: string)
    ensures Count([], q) == 0 && Changes([], q) == 0
  {
    assert ProgressOf([], q) == None;
  }

  // ---- Maintenance --------------------------------------------------------------------------------------------

  /** Taking quests out of a projection hides exactly these. */
  lemma {:induction false} WithoutHides(projection: seq<Progress>, hidden: set<string>, q: string)
    ensures FindProgress(Without(projection, hidden), q)
         == if q in hidden then None else FindProgress(projection, q)
  {
    if projection != [] {
      var first, rest := projection[0], projection[1..];
      WithoutHides(rest, hidden, q);
      if first.questId !in hidden {
        assert Without(projection, hidden)[0] == first && Without(projection, hidden)[1..] == Without(rest, hidden);
      } else {
        assert Without(projection, hidden) == Without(rest, hidden);
      }
    }
  }

  /** Deleting a player's quest hides it from that player's cache, and nothing else changes. */
  lemma DeletionHides(s: Store, player: string, questId: string, p: string, q: string)
    ensures var t := DeleteProjection(s, player, questId);
            && FindProgress(Cached(t, p), q)
               == (if p == player && q == questId then None else FindProgress(Cached(s, p), q))
            && t.streams == s.streams && t.rehydrations == s.rehydrations
  {
    hide Without;
    WithoutHides(Cached(s, player), {questId}, q);
  }

  /** How often a run rehydrates the player's owner. */
  function Rehydrations(ops: seq<Op>, player: string): nat {
    if ops == [] then 0
    else
      var last := ops[|ops| - 1];
      Rehydrations(ops[..|ops| - 1], player) + if last == Rehydrate(player) then 1 else 0
  }

  /** In every run the counter of a player counts the rehydrations of its owner. */
  lemma {:induction false} RehydrationsAreCounted(ops: seq<Op>, player: string)
    ensures var s := Run(EMPTY, ops);
            (if player in s.rehydrations then s.rehydrations[player] else 0) == Rehydrations(ops, player)
  {
    hide Decide, Replay, Without;
    if ops != [] {
      RehydrationsAreCounted(ops[..|ops| - 1], player);
    }
  }
}
