// quest_event_store_t: the maps updated in place.
module QuestStore {
  import opened Wrappers
  import opened Quest

  class QuestEventStore {
    var streams: map<string, seq<Stored>>
    var projections: map<string, seq<Progress>>
    var rehydrations: map<string, nat>

    ghost function Contents(): Store
      reads this
    {
      Store(streams, projections, rehydrations)
    }

    constructor ()
      ensures Contents() == EMPTY
    {
      streams, projections, rehydrations := map[], map[], map[];
    }

    method Apply(e: Fact) returns (r: Evaluation)
      modifies this
      ensures Contents() == Quest.Apply(old(Contents()), e).0 && r == Quest.Apply(old(Contents()), e).1
    {
      hide Replay, FindProgress, RuleFor, NextCount, Seen, IsSnapshot, Event, Update, IndexOf;
      if e.playerId !in streams {
        streams := streams[e.playerId := []];
      }
      var stream := streams[e.playerId];
      assert streams == old(streams)[e.playerId := stream] && stream == StreamOf(old(Contents()), e.playerId);
      ghost var decision := Decide(stream, e);
      if Seen(stream, e.eventId) {
        assert decision == AlreadyApplied;
        return Evaluation(CachedProjection(e.playerId), "", "", false);
      }
      var rule := RuleFor(e);
      if rule == None {
        assert decision == NoRule;
        return Evaluation(CachedProjection(e.playerId), "", "", false);
      }
      var projection := ReplayStream(e.playerId);
      var current := FindProgress(projection, rule.value.questId);
      var previousCount := if current.Some? then current.value.currentCount else 0;
      var previousStatus := if current.Some? then current.value.status else Active;
      var reconciliation := IsSnapshot(e);
      if !reconciliation && previousStatus == Rewarded {
        assert decision == AlreadyRewarded;
        return Evaluation(projection, "", "", false);
      }
      var nextCount := NextCount(e, rule.value, previousCount);
      if nextCount == previousCount {
        assert decision == NoChange;
        return Evaluation(CachedProjection(e.playerId), "", "", false);
      }
      var appended := [Event(stream, 0, if reconciliation then Reconciled else Progressed, e, rule.value,
                             nextCount - previousCount, nextCount)];
      var completes := nextCount >= rule.value.required && previousStatus == Active;
      if completes {
        appended := appended + [Event(stream, 1, Completed, e, rule.value, 0, nextCount)];
        appended := appended + [Event(stream, 2, RewardGranted, e, rule.value, 0, nextCount)];
      }
      assert decision == Append(appended, rule.value.questId, completes);
      var updated := AppendAll(e.playerId, appended);
      r := Evaluation(updated, if completes then rule.value.questId else "",
                      if reconciliation then rule.value.questId else "", completes);
    }

    /** Appends to the player's stream and caches its replay. */
    method AppendAll(player: string, appended: seq<Stored>) returns (updated: seq<Progress>)
      requires player in streams
      modifies this
      ensures updated == Replay(old(streams)[player] + appended)
      ensures streams == old(streams)[player := old(streams)[player] + appended]
      ensures projections == old(projections)[player := updated] && rehydrations == old(rehydrations)
    {
      hide Replay;
      streams := streams[player := streams[player] + appended];
      updated := ReplayStream(player);
      projections := projections[player := updated];
    }

    function CachedProjection(player: string): seq<Progress>
      reads this
    {
      if player in projections then projections[player] else []
    }

    /** The fold over the stored events, one progress entry per quest in order of appearance. */
    method ReplayStream(player: string) returns (projection: seq<Progress>)
      ensures projection == Replay(StreamOf(Contents(), player))
    {
      projection := [];
      if player !in streams {
        return;
      }
      var stream := streams[player];
      for i := 0 to |stream|
        invariant projection == Replay(stream[..i])
      {
        var stored := stream[i];
        var found := IndexOf(projection, stored.questId);
        if found == |projection| {
          projection := projection + [NewProgress(stored)];
        }
        projection := projection[found := Update(projection[found], stored)];
        assert stream[..i + 1][..i] == stream[..i];
      }
      assert stream[..|stream|] == stream;
    }

    method DeleteProjection(player: string, questId: string)
      modifies this
      ensures Contents() == Quest.DeleteProjection(old(Contents()), player, questId)
    {
      projections := projections[player := Without(CachedProjection(player), {questId})];
    }

    method RebuildProjection(player: string) returns (rebuilt: seq<Progress>)
      modifies this
      ensures Contents() == Quest.RebuildProjection(old(Contents()), player)
      ensures rebuilt == Replay(StreamOf(old(Contents()), player))
    {
      rebuilt := ReplayStream(player);
      projections := projections[player := rebuilt];
    }

    method RehydrateOwner(player: string) returns (count: nat)
      modifies this
      ensures Contents() == Quest.RehydrateOwner(old(Contents()), player)
      ensures count == Contents().rehydrations[player]
    {
      var replayed := ReplayStream(player);
      projections := projections[player := replayed];
      count := (if player in rehydrations then rehydrations[player] else 0) + 1;
      rehydrations := rehydrations[player := count];
    }

    method Sync(player: string, snapshotKillCount: int, now: int) returns (projection: seq<Progress>)
      modifies this
      ensures (Contents(), projection) == Quest.Sync(old(Contents()), player, snapshotKillCount, now)
    {
      if snapshotKillCount > 0 {
        var evaluation := Apply(SnapshotFact(player, snapshotKillCount, now));
        return evaluation.projection;
      }
      projection := CachedProjection(player);
    }
  }
}
