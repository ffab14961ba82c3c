// GameQuest's quest event store: an append-only stream per player, replayed into progress,
// with a cached projection and deduplication by source event id.
module Quest {
  import opened Wrappers
  import opened Numerals

  const FIRST_HUNT := "first-hunt"
  const HERB_GATHERING := "herb-gathering"
  const VISIT_RUINS := "visit-ruins"

  datatype Fact = Fact(eventId: string, playerId: string, kind: string, value: string, count: int, occurredAt: int)

  datatype Kind = Progressed | Reconciled | Completed | RewardGranted

  datatype Stored = Stored(
    eventId: string, playerId: string, questId: string, kind: Kind, sourceEventId: string,
    delta: int, currentCount: int, requiredCount: int, version: nat, createdAt: int)

  datatype Status = Active | QuestCompleted | Rewarded

  datatype Progress = Progress(
    playerId: string, questId: string, status: Status, currentCount: int, requiredCount: int,
    lastSourceEventId: string, version: nat, updatedAt: int)

  datatype Rule = Rule(questId: string, delta: int, required: int)

  function RuleFor(e: Fact): Option<Rule> {
    if e.kind == "MonsterKilled" && e.value == "wolf" then Some(Rule(FIRST_HUNT, e.count, 3))
    else if e.kind == "SnapshotKillCount" then Some(Rule(FIRST_HUNT, e.count, 3))
    else if e.kind == "ItemCollected" && e.value == "healing-herb" then Some(Rule(HERB_GATHERING, e.count, 5))
    else if e.kind == "AreaEntered" && e.value == "ruins" then Some(Rule(VISIT_RUINS, 1, 1))
    else None
  }

  predicate IsSnapshot(e: Fact) {
    e.kind == "SnapshotKillCount"
  }

  // ---- Replay --------------------------------------------------------------------------

  function IndexOf(projection: seq<Progress>, questId: string): (i: nat)
    ensures i <= |projection| && (i < |projection| ==> projection[i].questId == questId)
  {
    if projection == [] || projection[0].questId == questId then 0 else 1 + IndexOf(projection[1..], questId)
  }

  function FindProgress(projection: seq<Progress>, questId: string): Option<Progress> {
    var i := IndexOf(projection, questId);
    if i == |projection| then None else Some(projection[i])
  }

  function NewProgress(e: Stored): Progress {
    Progress(e.playerId, e.questId, Active, 0, 0, "", 0, 0)
  }

  function Update(p: Progress, e: Stored): Progress {
    var q := match e.kind
      case Progressed => p.(currentCount := e.currentCount, requiredCount := e.requiredCount)
      case Reconciled => p.(currentCount := e.currentCount, requiredCount := e.requiredCount)
      case Completed => p.(status := QuestCompleted)
      case RewardGranted => p.(status := Rewarded);
    q.(lastSourceEventId := e.sourceEventId, version := e.version, updatedAt := e.createdAt)
  }

  function ReplayOne(projection: seq<Progress>, e: Stored): seq<Progress> {
    var i := IndexOf(projection, e.questId);
    if i == |projection| then projection + [Update(NewProgress(e), e)]
    else projection[i := Update(projection[i], e)]
  }

  function Replay(stream: seq<Stored>): seq<Progress> {
    if stream == [] then [] else ReplayOne(Replay(stream[..|stream| - 1]), stream[|stream| - 1])
  }

  // ---- One gameplay event ----------------------------------------------------------------

  datatype Decision =
    | AlreadyApplied
    | NoRule
    | AlreadyRewarded
    | NoChange
    | Append(events: seq<Stored>, questId: string, completes: bool)

  predicate Seen(stream: seq<Stored>, eventId: string) {
    exists i | 0 <= i < |stream| :: stream[i].sourceEventId == eventId
  }

  function Event(stream: seq<Stored>, ahead: nat, kind: Kind, e: Fact, rule: Rule, delta: int, count: int): Stored {
    var name := match kind
      case Progressed => "QuestProgressed"
      case Reconciled => "QuestReconciled"
      case Completed => "QuestCompleted"
      case RewardGranted => "QuestRewardGranted";
    Stored(e.eventId + ":" + name, e.playerId, rule.questId, kind, e.eventId, delta, count, rule.required,
           |stream| + ahead + 1, e.occurredAt)
  }

  function NextCount(e: Fact, rule: Rule, previous: int): int {
    if IsSnapshot(e) then (if previous >= e.count then previous else e.count)
    else (if previous + rule.delta <= rule.required then previous + rule.delta else rule.required)
  }

  /** What apply does to the stream of the event's player. */
  function Decide(stream: seq<Stored>, e: Fact): Decision {
    if Seen(stream, e.eventId) then AlreadyApplied else
    var found := RuleFor(e);
    if found == None then NoRule else
    var rule := found.value;
    var current := FindProgress(Replay(stream), rule.questId);
    var previous := if current.Some? then current.value.currentCount else 0;
    var status := if current.Some? then current.value.status else Active;
    if !IsSnapshot(e) && status == Rewarded then AlreadyRewarded else
    var next := NextCount(e, rule, previous);
    if next == previous then NoChange else
    var first := Event(stream, 0, if IsSnapshot(e) then Reconciled else Progressed, e, rule, next - previous, next);
    if next >= rule.required && status == Active then
      Append([first, Event(stream, 1, Completed, e, rule, 0, next), Event(stream, 2, RewardGranted, e, rule, 0, next)],
             rule.questId, true)
    else Append([first], rule.questId, false)
  }

  datatype Store = Store(
    streams: map<string, seq<Stored>>, projections: map<string, seq<Progress>>, rehydrations: map<string, nat>)

  const EMPTY := Store(map[], map[], map[])

  function StreamOf(s: Store, player: string): seq<Stored> {
    if player in s.streams then s.streams[player] else []
  }

  function Cached(s: Store, player: string): seq<Progress> {
    if player in s.projections then s.projections[player] else []
  }

  datatype Evaluation = Evaluation(
    projection: seq<Progress>, completedQuestId: string, reconciledQuestId: string, rewardGranted: bool)

  function Apply(s: Store, e: Fact): (Store, Evaluation) {
    var stream := StreamOf(s, e.playerId);
    match Decide(stream, e)
    case Append(events, questId, completes) =>
      var updated := Replay(stream + events);
      (s.(streams := s.streams[e.playerId := stream + events], projections := s.projections[e.playerId := updated]),
       Evaluation(updated, if completes then questId else "", if IsSnapshot(e) then questId else "", completes))
    case AlreadyRewarded =>
      (s.(streams := s.streams[e.playerId := stream]), Evaluation(Replay(stream), "", "", false))
    case _ =>
      (s.(streams := s.streams[e.playerId := stream]), Evaluation(Cached(s, e.playerId), "", "", false))
  }

  function Without(projection: seq<Progress>, hidden: set<string>): seq<Progress> {
    if projection == [] then []
    else (if projection[0].questId in hidden then [] else [projection[0]]) + Without(projection[1..], hidden)
  }

  function DeleteProjection(s: Store, player: string, questId: string): Store {
    s.(projections := s.projections[player := Without(Cached(s, player), {questId})])
  }

  function RebuildProjection(s: Store, player: string): Store {
    s.(projections := s.projections[player := Replay(StreamOf(s, player))])
  }

  function RehydrateOwner(s: Store, player: string): Store {
    var count := if player in s.rehydrations then s.rehydrations[player] else 0;
    RebuildProjection(s, player).(rehydrations := s.rehydrations[player := count + 1])
  }

  /** The owner's sync: a positive snapshot count is applied as an event named after it. */
  function SnapshotFact(player: string, count: int, now: int): Fact
    requires count > 0
  {
    Fact(player + "-snapshot-" + ToText(count), player, "SnapshotKillCount", "kills", count, now)
  }

  function Sync(s: Store, player: string, count: int, now: int): (Store, seq<Progress>) {
    if count > 0 then
      var (after, evaluation) := Apply(s, SnapshotFact(player, count, now));
      (after, evaluation.projection)
    else (s, Cached(s, player))
  }
}
