// The shared Redis document and its lock, stepped as acquire, load, compute, save, release by any
// number of concurrent callers.
module StateStore {
  import opened Wrappers

  const LOCK_MS := 30000

  /** A lock key set with NX PX: its owner's token and the time Redis drops it. */
  datatype Lock = Lock(token: nat, expiry: int)

  /** The function of one update call: None where it throws. A read never saves and is a function
      that returns None. */
  type Update<!S> = S -> Option<S>

  /** Where one caller stands inside update. Its token is fresh for every call; since is the time at
      which Redis set its lock. */
  datatype Caller<!S> =
    | Idle
    | Acquiring(token: nat, f: Update<S>)
    | Locked(token: nat, f: Update<S>, since: int)
    | Loaded(token: nat, f: Update<S>, doc: S, since: int)
    | Computed(token: nat, doc: S, since: int)
    | Releasing(token: nat)
    | Crashed

  datatype Outcome = Pending | Done | Failed

  /** One acquisition of the lock, in acquisition order. */
  datatype Entry<!S> = Entry(caller: nat, token: nat, f: Update<S>, outcome: Outcome)

  datatype System<!S> = System(
    lock: Option<Lock>, doc: S, callers: map<nat, Caller<S>>, now: int, nextToken: nat, history: seq<Entry<S>>)

  datatype Label<!S> =
    | Call(p: nat, f: Update<S>)
    | GiveUp(p: nat)            // ten seconds without the lock
    | Acquire(p: nat)
    | AcquireUnanswered(p: nat) // the lock was set but the reply was lost: the constructor throws
    | Load(p: nat)
    | Compute(p: nat)
    | Save(p: nat)              // the document is stored, whether or not the reply arrives
    | Fail(p: nat)              // load or save throws without having stored anything
    | Release(p: nat)
    | ReleaseUnanswered(p: nat) // the destructor swallows the error and the lock stays
    | Crash(p: nat)
    | Tick(ms: nat)
    | Expire

  function At<S>(s: System<S>, p: nat): Caller<S> {
    if p in s.callers then s.callers[p] else Idle
  }

  function Move<S>(s: System<S>, p: nat, c: Caller<S>): System<S> {
    s.(callers := s.callers[p := c])
  }

  /** Marks the acquisition made with this token. */
  function Mark<S>(history: seq<Entry<S>>, token: nat, outcome: Outcome): seq<Entry<S>> {
    if history == [] then []
    else
      var last := history[|history| - 1];
      if last.token == token then history[..|history| - 1] + [last.(outcome := outcome)]
      else Mark(history[..|history| - 1], token, outcome) + [last]
  }

  predicate Working<S>(c: Caller<S>) {
    c.Locked? || c.Loaded? || c.Computed?
  }

  /** The step a label takes; None when it is not enabled. */
  function Next<S>(s: System<S>, step: Label<S>): Option<System<S>> {
    match step
    case Call(p, f) =>
      if At(s, p).Idle? then Some(Move(s, p, Acquiring(s.nextToken, f)).(nextToken := s.nextToken + 1)) else None
    case GiveUp(p) =>
      if At(s, p).Acquiring? then Some(Move(s, p, Idle)) else None
    case Acquire(p) =>
      var c := At(s, p);
      if c.Acquiring? && s.lock.None? then
        Some(Move(s, p, Locked(c.token, c.f, s.now)).(
          lock := Some(Lock(c.token, s.now + LOCK_MS)), history := s.history + [Entry(p, c.token, c.f, Pending)]))
      else None
    case AcquireUnanswered(p) =>
      var c := At(s, p);
      if c.Acquiring? && s.lock.None? then Some(Move(s, p, Idle).(lock := Some(Lock(c.token, s.now + LOCK_MS))))
      else None
    case Load(p) =>
      var c := At(s, p);
      if c.Locked? then Some(Move(s, p, Loaded(c.token, c.f, s.doc, c.since))) else None
    case Compute(p) =>
      var c := At(s, p);
      if !c.Loaded? then None else
      var result := c.f(c.doc);
      if result.Some? then Some(Move(s, p, Computed(c.token, result.value, c.since)))
      else Some(Move(s, p, Releasing(c.token)).(history := Mark(s.history, c.token, Done)))
    case Save(p) =>
      var c := At(s, p);
      if c.Computed? then Some(Move(s, p, Releasing(c.token)).(doc := c.doc, history := Mark(s.history, c.token, Done)))
      else None
    case Fail(p) =>
      var c := At(s, p);
      if Working(c) then Some(Move(s, p, Releasing(c.token)).(history := Mark(s.history, c.token, Failed))) else None
    case Release(p) =>
      var c := At(s, p);
      if c.Releasing? then Some(Move(s, p, Idle).(lock := CompareAndDelete(s.lock, c.token))) else None
    case ReleaseUnanswered(p) =>
      if At(s, p).Releasing? then Some(Move(s, p, Idle)) else None
    case Crash(p) =>
      var c := At(s, p);
      Some(Move(s, p, Crashed).(history := if Working(c) then Mark(s.history, c.token, Failed) else s.history))
    case Tick(ms) => Some(s.(now := s.now + ms))
    case Expire =>
      if s.lock.Some? && s.lock.value.expiry <= s.now then Some(s.(lock := None)) else None
  }

  /** The release script: delete the lock key only if it still holds the caller's token. */
  function CompareAndDelete(lock: Option<Lock>, token: nat): Option<Lock> {
    if lock.Some? && lock.value.token == token then None else lock
  }

  function Start<S>(doc: S): System<S> {
    System(None, doc, map[], 0, 0, [])
  }

  /** The state a list of steps leads to; None when one of them is not enabled. */
  function Execute<S>(doc: S, steps: seq<Label<S>>): Option<System<S>> {
    if steps == [] then Some(Start(doc))
    else
      var before := Execute(doc, steps[..|steps| - 1]);
      if before == None then None else Next(before.value, steps[|steps| - 1])
  }

  // ---- Tokens: what holds even when locks expire --------------------------------------------

  function TokenOf<S>(c: Caller<S>): Option<nat> {
    match c
    case Idle => None
    case Crashed => None
    case Acquiring(token, _) => Some(token)
    case Locked(token, _, _) => Some(token)
    case Loaded(token, _, _, _) => Some(token)
    case Computed(token, _, _) => Some(token)
    case Releasing(token) => Some(token)
  }

  ghost predicate CallersUnique<S>(s: System<S>) {
    && (forall p :: TokenOf(At(s, p)).Some? ==> TokenOf(At(s, p)).value < s.nextToken)
    && (forall p, q :: p != q && TokenOf(At(s, p)).Some? ==> TokenOf(At(s, p)) != TokenOf(At(s, q)))
  }

  ghost predicate TokensUnique<S>(s: System<S>) {
    && CallersUnique(s)
    && (s.lock.Some? ==> s.lock.value.token < s.nextToken)
    && (forall i | 0 <= i < |s.history| :: s.history[i].token < s.nextToken)
  }

  /** A caller that moves keeps its token, drops it, or takes the next fresh one. */
  lemma MoveKeepsUnique<S>(s: System<S>, t: System<S>, p: nat, c: Caller<S>)
    requires CallersUnique(s) && t.callers == s.callers[p := c]
    requires (t.nextToken == s.nextToken && (TokenOf(c) == None || TokenOf(c) == TokenOf(At(s, p))))
             || (t.nextToken == s.nextToken + 1 && TokenOf(c) == Some(s.nextToken))
    ensures CallersUnique(t)
  {
    assert At(t, p) == c;
    assert forall q :: q != p ==> At(t, q) == At(s, q);
  }

  lemma {:induction false} MarkKeeps<S>(history: seq<Entry<S>>, token: nat, outcome: Outcome)
    ensures |Mark(history, token, outcome)| == |history|
    ensures forall i | 0 <= i < |history| ::
              Mark(history, token, outcome)[i] == history[i].(outcome := Mark(history, token, outcome)[i].outcome)
    ensures forall i | 0 <= i < |history| && history[i].token != token :: Mark(history, token, outcome)[i] == history[i]
  {
    if history != [] && history[|history| - 1].token != token {
      MarkKeeps(history[..|history| - 1], token, outcome);
    }
  }

  lemma StepKeepsUnique<S>(s: System<S>, step: Label<S>)
    requires CallersUnique(s) && Next(s, step).Some?
    ensures CallersUnique(Next(s, step).value)
  {
    var t := Next(s, step).value;
    hide CallersUnique, Mark, CompareAndDelete;
    match step
    case Tick(_) => SameCallers(s, t);
    case Expire => SameCallers(s, t);
    case Call(p, _) => MoveKeepsUnique(s, t, p, At(t, p));
    case GiveUp(p) => MoveKeepsUnique(s, t, p, Idle);
    case Acquire(p) => MoveKeepsUnique(s, t, p, At(t, p));
    case AcquireUnanswered(p) => MoveKeepsUnique(s, t, p, Idle);
    case Load(p) => MoveKeepsUnique(s, t, p, At(t, p));
    case Compute(p) => MoveKeepsUnique(s, t, p, At(t, p));
    case Save(p) => MoveKeepsUnique(s, t, p, At(t, p));
    case Fail(p) => MoveKeepsUnique(s, t, p, At(t, p));
    case Release(p) => MoveKeepsUnique(s, t, p, Idle);
    case ReleaseUnanswered(p) => MoveKeepsUnique(s, t, p, Idle);
    case Crash(p) => MoveKeepsUnique(s, t, p, Crashed);
  }

  lemma SameCallers<S>(s: System<S>, t: System<S>)
    requires CallersUnique(s) && t.callers == s.callers && t.nextToken == s.nextToken
    ensures CallersUnique(t)
  {
    assert forall p :: At(t, p) == At(s, p);
  }

  lemma StepKeepsTokens<S>(s: System<S>, step: Label<S>)
    requires TokensUnique(s) && Next(s, step).Some?
    ensures TokensUnique(Next(s, step).value)
  {
    StepKeepsUnique(s, step);
    match step
    case Compute(p) => MarkKeeps(s.history, TokenOf(At(s, p)).value, Done);
    case Save(p) => MarkKeeps(s.history, TokenOf(At(s, p)).value, Done);
    case Fail(p) => MarkKeeps(s.history, TokenOf(At(s, p)).value, Failed);
    case Crash(p) => if Working(At(s, p)) { MarkKeeps(s.history, TokenOf(At(s, p)).value, Failed); }
    case Acquire(p) => assert TokenOf(At(s, p)).Some?;
    case AcquireUnanswered(p) => assert TokenOf(At(s, p)).Some?;
    case _ =>
  }

  lemma {:induction false} RunKeepsTokens<S>(doc: S, steps: seq<Label<S>>)
    requires Execute(doc, steps).Some?
    ensures TokensUnique(Execute(doc, steps).value)
  {
    hide Next, TokensUnique;
    if steps == [] {
      StartTokens(doc);
    } else {
      var before := Execute(doc, steps[..|steps| - 1]).value;
      RunKeepsTokens(doc, steps[..|steps| - 1]);
      StepKeepsTokens(before, steps[|steps| - 1]);
    }
  }

  lemma StartTokens<S>(doc: S)
    ensures TokensUnique(Start(doc))
  {
  }

  /** A release never removes another caller's lock, in any run, expired locks included. */
  lemma ReleaseSparesOthers<S>(doc: S, steps: seq<Label<S>>, p: nat, q: nat)
    requires Execute(doc, steps).Some?
    requires var s := Execute(doc, steps).value;
             p != q && At(s, p).Releasing? && s.lock.Some? && TokenOf(At(s, q)) == Some(s.lock.value.token)
    ensures Next(Execute(doc, steps).value, Release(p)).value.lock == Execute(doc, steps).value.lock
  {
    RunKeepsTokens(doc, steps);
    hide Execute;
  }

  // ---- How acquisitions end -----------------------------------------------------------------

  /** Every acquisition has its own token and its caller, and is pending exactly while that caller works on
      it; a caller that waits has not acquired yet. */
  ghost predicate OutcomesKnown<S>(s: System<S>) {
    && (forall i, j | 0 <= i < j < |s.history| :: s.history[i].token != s.history[j].token)
    && (forall i, p | 0 <= i < |s.history| && TokenOf(At(s, p)) == Some(s.history[i].token) ::
          s.history[i].caller == p && !At(s, p).Acquiring?)
    && (forall i | 0 <= i < |s.history| ::
          s.history[i].outcome == Pending
          <==> Working(At(s, s.history[i].caller))
               && TokenOf(At(s, s.history[i].caller)) == Some(s.history[i].token))
  }

  lemma {:induction false} MarkHits<S>(history: seq<Entry<S>>, token: nat, outcome: Outcome, i: nat)
    requires i < |history| && history[i].token == token
    requires forall j | i < j < |history| :: history[j].token != token
    ensures |Mark(history, token, outcome)| == |history|
    ensures Mark(history, token, outcome)[i] == history[i].(outcome := outcome)
  {
    if i < |history| - 1 {
      MarkHits(history[..|history| - 1], token, outcome, i);
    }
  }

  /** A working caller stops working, and its acquisition is marked. */
  lemma MarkingKnown<S>(s: System<S>, t: System<S>, p: nat, c: Caller<S>, outcome: Outcome)
    requires OutcomesKnown(s) && TokensUnique(s) && Working(At(s, p)) && !Working(c) && !c.Acquiring?
    requires TokenOf(c) == None || TokenOf(c) == TokenOf(At(s, p))
    requires t.callers == s.callers[p := c] && outcome != Pending
    requires t.history == Mark(s.history, TokenOf(At(s, p)).value, outcome)
    ensures OutcomesKnown(t)
  {
    var token := TokenOf(At(s, p)).value;
    MarkKeeps(s.history, token, outcome);
    hide Mark;
    assert At(t, p) == c && forall q :: q != p ==> At(t, q) == At(s, q);
    forall i | 0 <= i < |s.history|
      ensures t.history[i].outcome == Pending
         <==> Working(At(t, t.history[i].caller))
              && TokenOf(At(t, t.history[i].caller)) == Some(t.history[i].token)
    {
      if s.history[i].token == token {
        MarkHits(s.history, token, outcome, i);
      }
    }
  }

  /** A step of a caller that neither begins nor ends its work on an acquisition. */
  lemma MovingKnown<S>(s: System<S>, t: System<S>, p: nat, c: Caller<S>)
    requires OutcomesKnown(s) && TokensUnique(s) && t.history == s.history && t.callers == s.callers[p := c]
    requires TokenOf(c) == None || TokenOf(c) == TokenOf(At(s, p)) || TokenOf(c) == Some(s.nextToken)
    requires c.Acquiring? ==> TokenOf(c) == Some(s.nextToken)
    requires if Working(At(s, p)) then Working(c) && TokenOf(c) == TokenOf(At(s, p)) else !Working(c)
    ensures OutcomesKnown(t)
  {
    assert At(t, p) == c && forall q :: q != p ==> At(t, q) == At(s, q);
  }

  lemma AcquiringKnown<S>(s: System<S>, p: nat)
    requires OutcomesKnown(s) && TokensUnique(s) && Next(s, Acquire(p)).Some?
    ensures OutcomesKnown(Next(s, Acquire(p)).value)
  {
    var t := Next(s, Acquire(p)).value;
    assert At(t, p) == Locked(At(s, p).token, At(s, p).f, s.now);
    assert forall q :: q != p ==> At(t, q) == At(s, q);
  }

  lemma StepKeepsKnown<S>(s: System<S>, step: Label<S>)
    requires OutcomesKnown(s) && TokensUnique(s) && Next(s, step).Some?
    ensures OutcomesKnown(Next(s, step).value)
  {
    hide OutcomesKnown, TokensUnique, Mark, CompareAndDelete;
    var t := Next(s, step).value;
    match step
    case Tick(_) => StandingKnown(s, t);
    case Expire => StandingKnown(s, t);
    case Acquire(p) => AcquiringKnown(s, p);
    case Compute(p) =>
      if At(t, p).Computed? {
        MovingKnown(s, t, p, At(t, p));
      } else {
        MarkingKnown(s, t, p, At(t, p), Done);
      }
    case Save(p) => MarkingKnown(s, t, p, At(t, p), Done);
    case Fail(p) => MarkingKnown(s, t, p, At(t, p), Failed);
    case Crash(p) =>
      if Working(At(s, p)) {
        MarkingKnown(s, t, p, At(t, p), Failed);
      } else {
        MovingKnown(s, t, p, At(t, p));
      }
    case _ => MovingKnown(s, t, step.p, At(t, step.p));
  }

  lemma StandingKnown<S>(s: System<S>, t: System<S>)
    requires OutcomesKnown(s) && t.history == s.history && t.callers == s.callers
    ensures OutcomesKnown(t)
  {
    assert forall p :: At(t, p) == At(s, p);
  }

  /** In every run, expired locks included, an acquisition is pending exactly while its caller works on it:
      whoever saved, threw, failed or crashed has an outcome. */
  lemma {:induction false} OutcomesAreKnown<S>(doc: S, steps: seq<Label<S>>)
    requires Execute(doc, steps).Some?
    ensures OutcomesKnown(Execute(doc, steps).value)
  {
    hide Next, OutcomesKnown, TokensUnique;
    if steps == [] {
      NothingKnown(doc);
    } else {
      OutcomesAreKnown(doc, steps[..|steps| - 1]);
      RunKeepsTokens(doc, steps[..|steps| - 1]);
      StepKeepsKnown(Execute(doc, steps[..|steps| - 1]).value, steps[|steps| - 1]);
    }
  }

  lemma NothingKnown<S>(doc: S)
    ensures OutcomesKnown(Start(doc))
  {
  }

  // ---- Atomicity while callers do not overlap ---------------------------------------------------

  /** A caller acquires the lock while another is still between acquiring and saving. */
  ghost predicate Overlaps<S>(s: System<S>, step: Label<S>) {
    step.Acquire? && exists q :: q != step.p && Working(At(s, q))
  }

  ghost predicate NoOverlap<S>(doc: S, steps: seq<Label<S>>)
    requires Execute(doc, steps).Some?
  {
    steps == [] ||
    var front := steps[..|steps| - 1];
    NoOverlap(doc, front) && !Overlaps(Execute(doc, front).value, steps[|steps| - 1])
  }

  /** The functions of the finished calls, one after another, in acquisition order. A function that
      throws and a call that failed or crashed before storing are skipped. */
  function InOrder<S>(doc: S, history: seq<Entry<S>>): S {
    if history == [] then doc
    else
      var before := InOrder(doc, history[..|history| - 1]);
      var last := history[|history| - 1];
      if last.outcome.Done? && last.f(before).Some? then last.f(before).value else before
  }

  /** The caller's entry is the last, and it sees the document that everything before it made. */
  ghost predicate InTurn<S>(s: System<S>, c: Caller<S>) {
    && s.history != []
    && var last := s.history[|s.history| - 1];
       && TokenOf(c) == Some(last.token) && last.outcome == Pending
       && (c.Locked? ==> c.f == last.f)
       && (c.Loaded? ==> c.f == last.f && c.doc == s.doc)
       && (c.Computed? ==> last.f(s.doc) == Some(c.doc))
  }

  ghost predicate Serial<S>(doc: S, s: System<S>) {
    && s.doc == InOrder(doc, s.history)
    && forall p :: Working(At(s, p)) ==> InTurn(s, At(s, p))
  }

  lemma OneMore<S>(doc: S, history: seq<Entry<S>>, e: Entry<S>)
    ensures InOrder(doc, history + [e])
         == var before := InOrder(doc, history);
            if e.outcome.Done? && e.f(before).Some? then e.f(before).value else before
  {
    assert (history + [e])[..|history|] == history;
  }

  lemma MarkLast<S>(doc: S, history: seq<Entry<S>>, token: nat, outcome: Outcome)
    requires history != [] && history[|history| - 1].token == token && history[|history| - 1].outcome == Pending
    ensures var last := history[|history| - 1];
            InOrder(doc, Mark(history, token, outcome))
            == if outcome.Done? && last.f(InOrder(doc, history)).Some? then last.f(InOrder(doc, history)).value
               else InOrder(doc, history)
  {
    var front, last := history[..|history| - 1], history[|history| - 1];
    assert history == front + [last];
    OneMore(doc, front, last);
    OneMore(doc, front, last.(outcome := outcome));
  }

  /** A step that keeps document and history, and makes nobody work. */
  lemma QuietStep<S>(doc: S, s: System<S>, t: System<S>)
    requires Serial(doc, s) && t.doc == s.doc && t.history == s.history
    requires forall q :: Working(At(t, q)) ==> At(t, q) == At(s, q)
    ensures Serial(doc, t)
  {
    hide InOrder;
  }

  /** A step of p while nobody else works; afterwards it is in turn or no longer working. */
  lemma TurnStep<S>(doc: S, s: System<S>, t: System<S>, p: nat, c: Caller<S>)
    requires forall q :: q != p ==> !Working(At(s, q))
    requires t.callers == s.callers[p := c] && t.doc == InOrder(doc, t.history)
    requires Working(c) ==> InTurn(t, c)
    ensures Serial(doc, t)
  {
    hide InOrder;
    assert At(t, p) == c;
    assert forall q :: q != p ==> At(t, q) == At(s, q);
  }

  /** While one caller is in turn, no other works. */
  lemma OnlyOneWorks<S>(doc: S, s: System<S>, p: nat)
    requires CallersUnique(s) && Serial(doc, s) && Working(At(s, p))
    ensures InTurn(s, At(s, p)) && forall q :: q != p ==> !Working(At(s, q))
  {
    hide InOrder, CallersUnique;
    OtherTokens(s, p);
    assert InTurn(s, At(s, p));
  }

  lemma OtherTokens<S>(s: System<S>, p: nat)
    requires CallersUnique(s) && TokenOf(At(s, p)).Some?
    ensures forall q :: q != p ==> TokenOf(At(s, q)) != TokenOf(At(s, p))
  {
  }

  lemma QuietLabel<S>(doc: S, s: System<S>, step: Label<S>)
    requires Serial(doc, s) && Next(s, step).Some?
    requires step.Call? || step.GiveUp? || step.AcquireUnanswered? || step.Release? || step.ReleaseUnanswered?
             || step.Tick? || step.Expire? || (step.Crash? && !Working(At(s, step.p)))
    ensures Serial(doc, Next(s, step).value)
  {
    hide Serial, CompareAndDelete, Mark;
    QuietStep(doc, s, Next(s, step).value);
  }

  lemma AcquireLabel<S>(doc: S, s: System<S>, p: nat)
    requires Serial(doc, s) && Next(s, Acquire(p)).Some? && !Overlaps(s, Acquire(p))
    ensures Serial(doc, Next(s, Acquire(p)).value)
  {
    hide InOrder;
    var t := Next(s, Acquire(p)).value;
    var e := Entry(p, At(s, p).token, At(s, p).f, Pending);
    OneMore(doc, s.history, e);
    assert t.history[|t.history| - 1] == e;
    TurnStep(doc, s, t, p, At(t, p));
  }

  lemma LoadLabel<S>(doc: S, s: System<S>, p: nat)
    requires CallersUnique(s) && Serial(doc, s) && Next(s, Load(p)).Some?
    ensures Serial(doc, Next(s, Load(p)).value)
  {
    hide InOrder, CallersUnique;
    OnlyOneWorks(doc, s, p);
    TurnStep(doc, s, Next(s, Load(p)).value, p, Loaded(At(s, p).token, At(s, p).f, s.doc, At(s, p).since));
  }

  lemma ComputeLabel<S>(doc: S, s: System<S>, p: nat)
    requires CallersUnique(s) && Serial(doc, s) && Next(s, Compute(p)).Some?
    ensures Serial(doc, Next(s, Compute(p)).value)
  {
    hide InOrder, CallersUnique, Mark;
    var c, t := At(s, p), Next(s, Compute(p)).value;
    OnlyOneWorks(doc, s, p);
    MarkLast(doc, s.history, c.token, Done);
    TurnStep(doc, s, t, p, At(t, p));
  }

  /** Save, and the two ways of ending without a save. */
  lemma EndLabel<S>(doc: S, s: System<S>, step: Label<S>)
    requires CallersUnique(s) && Serial(doc, s) && Next(s, step).Some?
    requires step.Save? || step.Fail? || (step.Crash? && Working(At(s, step.p)))
    ensures Serial(doc, Next(s, step).value)
  {
    hide InOrder, CallersUnique, Mark;
    var c, t := At(s, step.p), Next(s, step).value;
    OnlyOneWorks(doc, s, step.p);
    MarkLast(doc, s.history, TokenOf(c).value, if step.Save? then Done else Failed);
    TurnStep(doc, s, t, step.p, At(t, step.p));
  }

  lemma StepKeepsSerial<S>(doc: S, s: System<S>, step: Label<S>)
    requires CallersUnique(s) && Serial(doc, s) && Next(s, step).Some? && !Overlaps(s, step)
    ensures Serial(doc, Next(s, step).value)
  {
    hide CallersUnique, Serial, Overlaps, CompareAndDelete;
    match step
    case Acquire(p) => AcquireLabel(doc, s, p);
    case Load(p) => LoadLabel(doc, s, p);
    case Compute(p) => ComputeLabel(doc, s, p);
    case Save(p) => EndLabel(doc, s, step);
    case Fail(p) => EndLabel(doc, s, step);
    case Crash(p) =>
      if Working(At(s, p)) {
        EndLabel(doc, s, step);
      } else {
        QuietLabel(doc, s, step);
      }
    case _ => QuietLabel(doc, s, step);
  }

  lemma {:induction false} RunKeepsSerial<S>(doc: S, steps: seq<Label<S>>)
    requires Execute(doc, steps).Some? && NoOverlap(doc, steps)
    ensures Serial(doc, Execute(doc, steps).value) && CallersUnique(Execute(doc, steps).value)
  {
    hide Next, CallersUnique, Overlaps, InOrder;
    RunKeepsTokens(doc, steps);
    if steps == [] {
      NothingYet(doc);
    } else {
      var front := steps[..|steps| - 1];
      RunKeepsSerial(doc, front);
      StepKeepsSerial(doc, Execute(doc, front).value, steps[|steps| - 1]);
    }
  }

  lemma NothingYet<S>(doc: S)
    ensures Serial(doc, Start(doc))
  {
  }

  /** In every run in which nobody acquires while another caller works, locks may expire or not, the
      document is the finished calls' functions applied one after another in the order the lock was
      acquired, and nobody else works while one caller does. */
  lemma UpdatesAreAtomic<S>(doc: S, steps: seq<Label<S>>)
    requires Execute(doc, steps).Some? && NoOverlap(doc, steps)
    ensures var s := Execute(doc, steps).value;
            && s.doc == InOrder(doc, s.history)
            && forall p, q :: Working(At(s, p)) && Working(At(s, q)) ==> p == q
  {
    hide Execute, InOrder, NoOverlap, CallersUnique;
    RunKeepsSerial(doc, steps);
    var s := Execute(doc, steps).value;
    forall p, q | Working(At(s, p)) && Working(At(s, q)) ensures p == q {
      OnlyOneWorks(doc, s, p);
    }
  }

  // ---- What keeps callers from overlapping ----------------------------------------------------------

  /** The lock expires under a caller that is still between acquiring and saving. */
  ghost predicate ExpiresUnderHolder<S>(s: System<S>, step: Label<S>) {
    step.Expire? && s.lock.Some?
    && exists p :: Working(At(s, p)) && TokenOf(At(s, p)) == Some(s.lock.value.token)
  }

  ghost predicate LocksHold<S>(doc: S, steps: seq<Label<S>>)
    requires Execute(doc, steps).Some?
  {
    steps == [] ||
    var front := steps[..|steps| - 1];
    LocksHold(doc, front) && !ExpiresUnderHolder(Execute(doc, front).value, steps[|steps| - 1])
  }

  ghost predicate HoldersLocked<S>(s: System<S>) {
    forall p :: Working(At(s, p)) ==> s.lock.Some? && TokenOf(At(s, p)) == Some(s.lock.value.token)
  }

  lemma StepKeepsHolders<S>(s: System<S>, step: Label<S>)
    requires CallersUnique(s) && HoldersLocked(s) && Next(s, step).Some? && !ExpiresUnderHolder(s, step)
    ensures HoldersLocked(Next(s, step).value) && !Overlaps(s, step)
  {
    hide Mark;
    var t := Next(s, step).value;
    if step.Tick? || step.Expire? {
      assert forall q :: At(t, q) == At(s, q);
    } else {
      assert forall q :: q != step.p ==> At(t, q) == At(s, q);
    }
  }

  lemma {:induction false} HeldLocksDoNotOverlap<S>(doc: S, steps: seq<Label<S>>)
    requires Execute(doc, steps).Some? && LocksHold(doc, steps)
    ensures NoOverlap(doc, steps) && HoldersLocked(Execute(doc, steps).value)
  {
    hide Next, CallersUnique, Overlaps, ExpiresUnderHolder, HoldersLocked;
    if steps == [] {
      NobodyYet(doc);
    } else {
      var front := steps[..|steps| - 1];
      HeldLocksDoNotOverlap(doc, front);
      RunKeepsTokens(doc, front);
      StepKeepsHolders(Execute(doc, front).value, steps[|steps| - 1]);
    }
  }

  lemma NobodyYet<S>(doc: S)
    ensures HoldersLocked(Start(doc)) && LockTimes(Start(doc))
  {
  }

  function Since<S>(c: Caller<S>): int
    requires Working(c)
  {
    match c
    case Locked(_, _, since) => since
    case Loaded(_, _, _, since) => since
    case Computed(_, _, since) => since
  }

  /** Every working caller is younger than the lock's 30 seconds. */
  ghost predicate InTime<S>(s: System<S>) {
    forall p :: Working(At(s, p)) ==> s.now < Since(At(s, p)) + 30000
  }

  /** Nobody works for 30 seconds or longer at any moment of the run. */
  ghost predicate Timely<S>(doc: S, steps: seq<Label<S>>)
    requires Execute(doc, steps).Some?
  {
    InTime(Execute(doc, steps).value) && (steps == [] || Timely(doc, steps[..|steps| - 1]))
  }

  ghost predicate LockTimes<S>(s: System<S>) {
    forall p :: Working(At(s, p)) && s.lock.Some? && TokenOf(At(s, p)) == Some(s.lock.value.token)
                ==> s.lock.value.expiry == Since(At(s, p)) + LOCK_MS
  }

  lemma StepKeepsTimes<S>(s: System<S>, step: Label<S>)
    requires CallersUnique(s) && LockTimes(s) && Next(s, step).Some?
    ensures LockTimes(Next(s, step).value)
  {
    hide Mark;
    var t := Next(s, step).value;
    if step.Tick? || step.Expire? {
      assert forall q :: At(t, q) == At(s, q);
    } else {
      assert forall q :: q != step.p ==> At(t, q) == At(s, q);
    }
  }

  lemma InTimeHolds<S>(s: System<S>, step: Label<S>)
    requires InTime(s) && LockTimes(s) && Next(s, step).Some?
    ensures !ExpiresUnderHolder(s, step)
  {
  }

  /** Callers that save or give up within the lock's time never lose it. */
  lemma {:induction false} TimelyLocksHold<S>(doc: S, steps: seq<Label<S>>)
    requires Execute(doc, steps).Some? && Timely(doc, steps)
    ensures LocksHold(doc, steps) && LockTimes(Execute(doc, steps).value)
  {
    hide Next, CallersUnique, ExpiresUnderHolder, InTime, LockTimes;
    if steps == [] {
      NobodyYet(doc);
    } else {
      var front := steps[..|steps| - 1];
      TimelyLocksHold(doc, front);
      RunKeepsTokens(doc, front);
      StepKeepsTimes(Execute(doc, front).value, steps[|steps| - 1]);
      TimelyBefore(doc, front);
      InTimeHolds(Execute(doc, front).value, steps[|steps| - 1]);
    }
  }

  lemma TimelyBefore<S>(doc: S, steps: seq<Label<S>>)
    requires Execute(doc, steps).Some? && Timely(doc, steps)
    ensures InTime(Execute(doc, steps).value)
  {
  }

  /** When every caller finishes within 30 seconds of its lock, updates are atomic. */
  lemma TimelyUpdatesAreAtomic<S>(doc: S, steps: seq<Label<S>>)
    requires Execute(doc, steps).Some? && Timely(doc, steps)
    ensures var s := Execute(doc, steps).value; s.doc == InOrder(doc, s.history)
  {
    hide Execute, InOrder, NoOverlap, LocksHold, Timely, HoldersLocked, LockTimes;
    TimelyLocksHold(doc, steps);
    HeldLocksDoNotOverlap(doc, steps);
    UpdatesAreAtomic(doc, steps);
  }

  // ---- What an overlap costs ---------------------------------------------------------------------------

  function Follow<S>(s: System<S>, steps: seq<Label<S>>): Option<System<S>>
    decreases |steps|
  {
    if steps == [] then Some(s)
    else
      var next := Next(s, steps[0]);
      if next == None then None else Follow(next.value, steps[1..])
  }

  lemma {:induction false} FollowExtends<S>(doc: S, front: seq<Label<S>>, steps: seq<Label<S>>)
    requires Execute(doc, front).Some? && Follow(Execute(doc, front).value, steps).Some?
    ensures Execute(doc, front + steps) == Follow(Execute(doc, front).value, steps)
    decreases |steps|
  {
    hide Next;
    if steps == [] {
      assert front + steps == front;
    } else {
      var more := front + [steps[0]];
      assert more[..|more| - 1] == front && more + steps[1..] == front + steps;
      FollowExtends(doc, more, steps[1..]);
    }
  }

  lemma FollowOne<S>(s: System<S>, step: Label<S>, rest: seq<Label<S>>)
    requires Next(s, step).Some?
    ensures Follow(s, [step] + rest) == Follow(Next(s, step).value, rest)
  {
    assert ([step] + rest)[1..] == rest;
  }

  lemma MarkNewest<S>(history: seq<Entry<S>>, e: Entry<S>, outcome: Outcome)
    ensures Mark(history + [e], e.token, outcome) == history + [e.(outcome := outcome)]
  {
    assert (history + [e])[..|history|] == history;
  }

  /** The beginning of an update, with no other caller's step in between. */
  function UpTo<S>(p: nat, f: Update<S>, rest: seq<Label<S>>): seq<Label<S>> {
    [Call(p, f)] + ([Acquire(p)] + ([Load(p)] + rest))
  }

  lemma LoadsAlone<S>(s: System<S>, p: nat, f: Update<S>, rest: seq<Label<S>>) returns (t: System<S>)
    requires s.lock == None && At(s, p).Idle?
    ensures Follow(s, UpTo(p, f, rest)) == Follow(t, rest)
    ensures At(t, p) == Loaded(s.nextToken, f, s.doc, s.now) && t.doc == s.doc
    ensures t.lock.Some? && t.lock.value.token == s.nextToken
    ensures t.history == s.history + [Entry(p, s.nextToken, f, Pending)]
  {
    hide Follow, Mark;
    var s1 := Next(s, Call(p, f)).value;
    var s2 := Next(s1, Acquire(p)).value;
    t := Next(s2, Load(p)).value;
    FollowOne(s2, Load(p), rest);
    FollowOne(s1, Acquire(p), [Load(p)] + rest);
    FollowOne(s, Call(p, f), [Acquire(p)] + ([Load(p)] + rest));
  }

  /** An update whose function does not throw, with no other caller's step in between: the document is what
      the function makes of it, the lock is free again, and the history shows it done. */
  lemma UpdateTakesEffect<S>(s: System<S>, p: nat, f: Update<S>)
    requires s.lock == None && At(s, p).Idle? && f(s.doc).Some?
    ensures var t := Follow(s, UpTo(p, f, [Compute(p)] + ([Save(p)] + ([Release(p)] + []))));
            t.Some? && t.value.doc == f(s.doc).value && t.value.lock == None && At(t.value, p) == Idle
            && t.value.history == s.history + [Entry(p, s.nextToken, f, Done)]
  {
    hide Follow, Mark;
    MarkNewest(s.history, Entry(p, s.nextToken, f, Pending), Done);
    var s3 := LoadsAlone(s, p, f, [Compute(p)] + ([Save(p)] + ([Release(p)] + [])));
    var s4 := Next(s3, Compute(p)).value;
    var s5 := Next(s4, Save(p)).value;
    var s6 := Next(s5, Release(p)).value;
    FollowNone(s6);
    FollowOne(s5, Release(p), []);
    FollowOne(s4, Save(p), [Release(p)] + []);
    FollowOne(s3, Compute(p), [Save(p)] + ([Release(p)] + []));
  }

  /** One whose function throws leaves the document as it was, and the lock free. */
  lemma ThrowingUpdateSavesNothing<S>(s: System<S>, p: nat, f: Update<S>)
    requires s.lock == None && At(s, p).Idle? && f(s.doc) == None
    ensures var t := Follow(s, UpTo(p, f, [Compute(p)] + ([Release(p)] + [])));
            t.Some? && t.value.doc == s.doc && t.value.lock == None && At(t.value, p) == Idle
  {
    hide Follow, Mark;
    var s3 := LoadsAlone(s, p, f, [Compute(p)] + ([Release(p)] + []));
    var s4 := Next(s3, Compute(p)).value;
    var s5 := Next(s4, Release(p)).value;
    FollowNone(s5);
    FollowOne(s4, Release(p), []);
    FollowOne(s3, Compute(p), [Release(p)] + []);
  }

  /** Only a save changes the document; only acquiring, a release and an expiry change the lock. A caller that
      gives up, fails or crashes leaves both alone. */
  lemma OnlySavesStore<S>(s: System<S>, step: Label<S>)
    requires Next(s, step).Some?
    ensures var t := Next(s, step).value;
            && (t.doc != s.doc ==> step.Save?)
            && (t.lock != s.lock ==> step.Acquire? || step.AcquireUnanswered? || step.Release? || step.Expire?)
            && (step.Crash? ==> At(t, step.p) == Crashed)
            && (step.GiveUp? || step.ReleaseUnanswered? || step.AcquireUnanswered? ==> At(t, step.p) == Idle)
            && (step.Fail? ==> At(t, step.p).Releasing?)
  {
    hide Mark, CompareAndDelete;
  }

  /** A lock that nobody will release, its setting unanswered, its release lost or its holder crashed, keeps
      every caller out for the rest of its 30 seconds, and no longer. */
  lemma AbandonedLockExpires<S>(s: System<S>, p: nat, q: nat, ms: nat)
    requires At(s, p).Acquiring? && s.lock == None && At(s, q).Acquiring? && p != q
    ensures forall taken: Label<S> | taken == AcquireUnanswered(p) || taken == Acquire(p) ::
              Next(s, taken).Some?
              && var late := Next(Next(s, taken).value, Tick(ms)).value;
                 && Next(late, Acquire(q)) == None
                 && (Next(late, Expire).Some? <==> ms >= 30000)
                 && (ms >= 30000 ==> Next(Next(late, Expire).value, Acquire(q)).Some?)
  {
    hide Mark;
  }

  /** The steps a working caller still takes to compute its document. */
  function ToComputed<S>(c: Caller<S>, p: nat): seq<Label<S>> {
    match c
    case Locked(_, _, _) => [Load(p)] + ([Compute(p)] + [])
    case Loaded(_, _, _, _) => [Compute(p)] + []
    case _ => []
  }

  /** The second caller runs its whole update, then the first saves what it computed. */
  function Overtake<S>(p: nat, q: nat): seq<Label<S>> {
    [Acquire(q)] + ([Load(q)] + ([Compute(q)] + ([Save(q)] + ([Save(p)] + []))))
  }

  /** p is in turn and the lock is free for q to take. */
  ghost predicate Exposed<S>(doc: S, s: System<S>, p: nat, q: nat) {
    && CallersUnique(s) && Serial(doc, s) && s.lock == None
    && p != q && Working(At(s, p)) && At(s, q).Acquiring?
  }

  /** The function of the caller whose entry is last. */
  function LastF<S>(s: System<S>): Update<S>
    requires s.history != []
  {
    s.history[|s.history| - 1].f
  }

  lemma LoadOnly<S>(doc: S, s: System<S>, p: nat, q: nat)
    requires Exposed(doc, s, p, q) && At(s, p).Locked?
    ensures var t := Next(s, Load(p));
            t.Some? && Exposed(doc, t.value, p, q) && At(t.value, p).Loaded? && At(t.value, q) == At(s, q)
            && t.value.doc == s.doc && t.value.history == s.history
  {
    hide InOrder, CallersUnique, Serial;
    LoadLabel(doc, s, p);
    StepKeepsUnique(s, Load(p));
  }

  lemma ComputeOnly<S>(doc: S, s: System<S>, p: nat, q: nat)
    requires Exposed(doc, s, p, q) && At(s, p).Loaded? && s.history != [] && LastF(s)(s.doc).Some?
    ensures var t := Next(s, Compute(p));
            t.Some? && Exposed(doc, t.value, p, q) && At(t.value, p).Computed? && At(t.value, q) == At(s, q)
            && t.value.doc == s.doc && t.value.history == s.history
  {
    hide InOrder, CallersUnique;
    assert InTurn(s, At(s, p));
    hide Serial;
    ComputeLabel(doc, s, p);
    StepKeepsUnique(s, Compute(p));
  }

  /** A caller in turn whose function does not throw can go on to compute its document. */
  lemma ReachesComputed<S>(doc: S, s: System<S>, p: nat, q: nat)
    requires Exposed(doc, s, p, q) && s.history != [] && LastF(s)(s.doc).Some?
    ensures var t := Follow(s, ToComputed(At(s, p), p));
            t.Some? && Exposed(doc, t.value, p, q) && At(t.value, p).Computed? && At(t.value, q) == At(s, q)
            && t.value.doc == s.doc && t.value.history == s.history
  {
    hide Next, Exposed, Follow;
    WorkingWhen(doc, s, p, q);
    match At(s, p)
    case Locked(_, _, _) =>
      LoadOnly(doc, s, p, q);
      var loaded := Next(s, Load(p)).value;
      ComputeOnly(doc, loaded, p, q);
      FollowOne(s, Load(p), [Compute(p)] + []);
      FollowOne(loaded, Compute(p), []);
      FollowNone(Next(loaded, Compute(p)).value);
    case Loaded(_, _, _, _) =>
      ComputeOnly(doc, s, p, q);
      FollowOne(s, Compute(p), []);
      FollowNone(Next(s, Compute(p)).value);
    case _ => FollowNone(s);
  }

  lemma WorkingWhen<S>(doc: S, s: System<S>, p: nat, q: nat)
    requires Exposed(doc, s, p, q)
    ensures Working(At(s, p)) && s.history != []
  {
    hide InOrder, CallersUnique;
    assert InTurn(s, At(s, p));
  }

  lemma FollowNone<S>(s: System<S>)
    ensures Follow(s, []) == Some(s)
  {
  }

  /** The document that is stored, and what the functions in order would have made. */
  lemma OvertakeOverwrites<S>(doc: S, s: System<S>, p: nat, q: nat)
    requires Exposed(doc, s, p, q) && At(s, p).Computed? && At(s, q).f(s.doc).Some?
    ensures var t := Follow(s, Overtake(p, q));
            var mine := At(s, p).doc;
            var later := At(s, q).f(mine);
            t.Some? && t.value.doc == mine
            && InOrder(doc, t.value.history) == (if later.Some? then later.value else mine)
  {
    hide Follow, InOrder, CallersUnique;
    var c, g := At(s, q), At(s, q).f;
    assert InTurn(s, At(s, p));
    OtherTokens(s, q);
    var front, last := s.history[..|s.history| - 1], s.history[|s.history| - 1];
    assert s.history == front + [last];
    var s1 := Next(s, Acquire(q)).value;
    var s2 := Next(s1, Load(q)).value;
    var s3 := Next(s2, Compute(q)).value;
    var theirs := Entry(q, c.token, g, Pending);
    assert s3.history == front + [last, theirs] && At(s3, q) == Computed(c.token, g(s.doc).value, s.now);
    assert At(s3, p) == At(s, p);
    OneMore(doc, front, last);
    BothSave(doc, s3, p, q, front, last, theirs);
    var late: seq<Label<S>> := [Save(q)] + ([Save(p)] + []);
    FollowOne(s2, Compute(q), late);
    FollowOne(s1, Load(q), [Compute(q)] + late);
    FollowOne(s, Acquire(q), [Load(q)] + ([Compute(q)] + late));
  }

  lemma BothSave<S>(doc: S, s: System<S>, p: nat, q: nat, front: seq<Entry<S>>, mine: Entry<S>, theirs: Entry<S>)
    requires s.history == front + [mine, theirs] && mine.token != theirs.token && p != q
    requires At(s, p).Computed? && At(s, p).token == mine.token && At(s, q).Computed? && At(s, q).token == theirs.token
    requires mine.f(InOrder(doc, front)) == Some(At(s, p).doc)
    ensures var t := Follow(s, [Save(q)] + ([Save(p)] + []));
            var later := theirs.f(At(s, p).doc);
            t.Some? && t.value.doc == At(s, p).doc
            && InOrder(doc, t.value.history) == (if later.Some? then later.value else At(s, p).doc)
  {
    MarkTwo(front, mine, theirs);
    BothInOrder(doc, front, mine, theirs);
    hide Follow, Mark, InOrder;
    var s1 := Next(s, Save(q)).value;
    var s2 := Next(s1, Save(p)).value;
    FollowOne(s1, Save(p), []);
    FollowOne(s, Save(q), [Save(p)] + []);
    FollowNone(s2);
  }

  lemma MarkTwo<S>(front: seq<Entry<S>>, mine: Entry<S>, theirs: Entry<S>)
    requires mine.token != theirs.token
    ensures Mark(front + [mine, theirs], theirs.token, Done) == front + [mine, theirs.(outcome := Done)]
    ensures Mark(front + [mine, theirs.(outcome := Done)], mine.token, Done)
         == front + [mine.(outcome := Done), theirs.(outcome := Done)]
  {
    var done := theirs.(outcome := Done);
    assert (front + [mine, theirs])[..|front| + 1] == front + [mine];
    assert (front + [mine, done])[..|front| + 1] == front + [mine] && (front + [mine])[..|front|] == front;
    assert Mark(front + [mine], mine.token, Done) == front + [mine.(outcome := Done)];
    assert Mark(front + [mine, done], mine.token, Done) == Mark(front + [mine], mine.token, Done) + [done];
  }

  lemma BothInOrder<S>(doc: S, front: seq<Entry<S>>, mine: Entry<S>, theirs: Entry<S>)
    requires mine.f(InOrder(doc, front)).Some?
    ensures var first := mine.f(InOrder(doc, front)).value;
            InOrder(doc, front + [mine.(outcome := Done), theirs.(outcome := Done)])
            == if theirs.f(first).Some? then theirs.f(first).value else first
  {
    hide InOrder;
    var m, t := mine.(outcome := Done), theirs.(outcome := Done);
    OneMore(doc, front, m);
    OneMore(doc, front + [m], t);
    assert front + [m, t] == front + [m] + [t];
  }

  /** Wherever a run lets a second caller acquire while a first works, it can go on so that both finish
      and the first one's document is stored. That is not what the functions in order make exactly
      when the second function changes what the first one made. */
  lemma OverlapCanLose<S>(doc: S, steps: seq<Label<S>>, p: nat, q: nat) returns (rest: seq<Label<S>>)
    requires Execute(doc, steps).Some? && NoOverlap(doc, steps)
    requires var s := Execute(doc, steps).value;
             p != q && Working(At(s, p)) && Next(s, Acquire(q)).Some?
    requires var s := Execute(doc, steps).value;
             s.history != [] ==> LastF(s)(s.doc).Some? && At(s, q).f(s.doc).Some?
    ensures Execute(doc, steps).value.history != [] && Execute(doc, steps + rest).Some?
    ensures var s, end := Execute(doc, steps).value, Execute(doc, steps + rest).value;
            var first := LastF(s)(s.doc).value;
            var both := At(s, q).f(first);
            && end.doc == first
            && (end.doc != InOrder(doc, end.history) <==> both.Some? && both.value != first)
  {
    hide Execute, NoOverlap, Serial, Follow, InOrder, CallersUnique, Overtake, ToComputed;
    var s := Execute(doc, steps).value;
    RunKeepsSerial(doc, steps);
    assert Exposed(doc, s, p, q);
    hide Next, Exposed;
    WorkingWhen(doc, s, p, q);
    ReachesComputed(doc, s, p, q);
    var reach: seq<Label<S>>, over: seq<Label<S>> := ToComputed(At(s, p), p), Overtake(p, q);
    var t := Follow(s, reach).value;
    ComputedIs(doc, t, p, q);
    OvertakeOverwrites(doc, t, p, q);
    FollowExtends(doc, steps, reach);
    FollowExtends(doc, steps + reach, over);
    rest := reach + over;
    assert steps + rest == (steps + reach) + over;
  }

  lemma ComputedIs<S>(doc: S, s: System<S>, p: nat, q: nat)
    requires Exposed(doc, s, p, q) && At(s, p).Computed?
    ensures s.history != [] && LastF(s)(s.doc) == Some(At(s, p).doc)
  {
    hide InOrder, CallersUnique;
    assert InTurn(s, At(s, p));
  }

  /** Caller 0 computes its document and loses the lock to the clock while caller 1 waits for it. */
  function LoseLock<S>(f: Update<S>, g: Update<S>): seq<Label<S>> {
    [Call(0, f)] + ([Call(1, g)] + ([Acquire(0)] + ([Load(0)] + ([Compute(0)] + ([Tick(LOCK_MS)] + ([Expire] + []))))))
  }

  /** Where LoseLock leads. */
  ghost predicate Lost<S>(s: System<S>, doc: S, f: Update<S>, g: Update<S>) {
    && s.lock == None && s.doc == doc && f(doc).Some? && g(doc).Some?
    && At(s, 0) == Computed(0, f(doc).value, 0) && At(s, 1) == Acquiring(1, g)
    && s.history == [Entry(0, 0, f, Pending)]
  }

  lemma LoseLockLoses<S>(doc: S, f: Update<S>, g: Update<S>)
    requires f(doc).Some? && g(doc).Some?
    ensures var s := Follow(Start(doc), LoseLock(f, g)); s.Some? && Lost(s.value, doc, f, g)
  {
    hide Follow, Lost;
    var s0 := Start(doc);
    var s1 := Next(s0, Call(0, f)).value;
    var s2 := Next(s1, Call(1, g)).value;
    var s3 := Next(s2, Acquire(0)).value;
    var s4 := Next(s3, Load(0)).value;
    assert At(s4, 0) == Loaded(0, f, doc, 0) && At(s4, 1) == Acquiring(1, g);
    assert s4.lock == Some(Lock(0, LOCK_MS)) && s4.doc == doc && s4.now == 0 && s4.history == [Entry(0, 0, f, Pending)];
    var late: seq<Label<S>> := [Compute(0)] + ([Tick(LOCK_MS)] + ([Expire] + []));
    LoseLockEnds(s4, doc, f, g);
    FollowOne(s3, Load(0), late);
    FollowOne(s2, Acquire(0), [Load(0)] + late);
    FollowOne(s1, Call(1, g), [Acquire(0)] + ([Load(0)] + late));
    FollowOne(s0, Call(0, f), [Call(1, g)] + ([Acquire(0)] + ([Load(0)] + late)));
  }

  lemma LoseLockEnds<S>(s: System<S>, doc: S, f: Update<S>, g: Update<S>)
    requires f(doc).Some? && g(doc).Some?
    requires At(s, 0) == Loaded(0, f, doc, 0) && At(s, 1) == Acquiring(1, g)
    requires s.lock == Some(Lock(0, LOCK_MS)) && s.doc == doc && s.now == 0 && s.history == [Entry(0, 0, f, Pending)]
    ensures var t := Follow(s, [Compute(0)] + ([Tick(LOCK_MS)] + ([Expire] + [])));
            t.Some? && Lost(t.value, doc, f, g)
  {
    hide Follow;
    var s1 := Next(s, Compute(0)).value;
    var s2 := Next(s1, Tick(LOCK_MS)).value;
    var s3 := Next(s2, Expire).value;
    FollowOne(s2, Expire, []);
    FollowOne(s1, Tick(LOCK_MS), [Expire] + []);
    FollowOne(s, Compute(0), [Tick(LOCK_MS)] + ([Expire] + []));
    FollowNone(s3);
  }

  /** An expiry under the holder does open such a place: any two functions have a run, without an
      overlap so far, in which the first caller has computed, its lock is gone and the second waits. */
  lemma ExpiryExposes<S>(doc: S, f: Update<S>, g: Update<S>)
    requires f(doc).Some? && g(doc).Some?
    ensures var steps := LoseLock(f, g);
            Execute(doc, steps).Some? && NoOverlap(doc, steps) && Lost(Execute(doc, steps).value, doc, f, g)
  {
    LoseLockLoses(doc, f, g);
    assert Execute<S>(doc, []) == Some(Start(doc)) && [] + LoseLock(f, g) == LoseLock(f, g);
    hide Next, Follow, Lost, LoseLock, Execute, NoOverlap;
    FollowExtends(doc, [], LoseLock(f, g));
    LoseLockDoesNotOverlap(doc, f, g);
  }

  lemma {:induction false} NoExpiryHolds<S>(doc: S, steps: seq<Label<S>>)
    requires Execute(doc, steps).Some? && forall i | 0 <= i < |steps| :: !steps[i].Expire?
    ensures LocksHold(doc, steps)
  {
    hide Next;
    if steps != [] {
      NoExpiryHolds(doc, steps[..|steps| - 1]);
    }
  }

  lemma LoseLockDoesNotOverlap<S>(doc: S, f: Update<S>, g: Update<S>)
    requires Execute(doc, LoseLock(f, g)).Some?
    ensures NoOverlap(doc, LoseLock(f, g))
  {
    hide Next, LocksHold;
    var steps := LoseLock(f, g);
    assert forall i | 0 <= i < 6 :: steps[..6][i] == steps[i];
    NoExpiryHolds(doc, steps[..6]);
    HeldLocksDoNotOverlap(doc, steps[..6]);
  }

  /** When a lock expires under its holder, two updates can finish and leave only the first one's
      document. It is then not what the functions in order make exactly when the second changes it. */
  lemma ExpiryCanLoseAnUpdate<S>(doc: S, f: Update<S>, g: Update<S>) returns (steps: seq<Label<S>>)
    requires f(doc).Some? && g(doc).Some?
    ensures var both := g(f(doc).value);
            && Execute(doc, steps).Some? && Execute(doc, steps).value.doc == f(doc).value
            && (Execute(doc, steps).value.doc != InOrder(doc, Execute(doc, steps).value.history)
                <==> both.Some? && both.value != f(doc).value)
  {
    hide Execute, NoOverlap, InOrder, LoseLock;
    ExpiryExposes(doc, f, g);
    var s := Execute(doc, LoseLock(f, g)).value;
    assert s.history == [Entry(0, 0, f, Pending)] && LastF(s) == f;
    var rest := OverlapCanLose(doc, LoseLock(f, g), 0, 1);
    steps := LoseLock(f, g) + rest;
  }

  // ---- One caller, as the code runs ---------------------------------------------------------------

  const WAIT_MS := 10000
  const RETRY_MS := 25

  /** The lock as a command finds it: expired keys are gone. */
  function Alive(lock: Option<Lock>, now: int): Option<Lock> {
    if lock.Some? && lock.value.expiry <= now then None else lock
  }

  /** The Redis keys one caller sees between the steps of the others. */
  class RedisStateStore<S> {
    var lock: Option<Lock>
    var doc: S
    var now: int

    constructor (doc: S)
      ensures this.doc == doc && lock == None && now == 0
    {
      this.doc, lock, now := doc, None, 0;
    }

    /** SET key token NX PX 30000. */
    method SetIfAbsent(token: nat) returns (ok: bool)
      modifies this`lock
      ensures ok == (Alive(old(lock), now) == None)
      ensures lock == if ok then Some(Lock(token, now + 30000)) else old(lock)
    {
      ok := Alive(lock, now) == None;
      if ok { lock := Some(Lock(token, now + LOCK_MS)); }
    }

    /** Tries every 25 ms for ten seconds. It gives up only while the lock outlives the last try. */
    method AcquireLock(token: nat) returns (ok: bool)
      modifies this`lock, this`now
      ensures old(now) <= now <= old(now) + 10000
      ensures ok ==> Alive(old(lock), now) == None && lock == Some(Lock(token, now + 30000))
      ensures !ok ==> now == old(now) + 10000 && lock == old(lock) && Alive(lock, now - 25) == lock != None
      ensures old(lock) == None ==> ok && now == old(now)
    {
      var deadline := now + WAIT_MS;
      while now < deadline
        invariant lock == old(lock) && old(now) <= now <= deadline && (deadline - now) % RETRY_MS == 0
        invariant now > old(now) ==> Alive(lock, now - RETRY_MS) != None
        decreases deadline - now
      {
        ok := SetIfAbsent(token);
        if ok { return; }
        now := now + RETRY_MS;
      }
      ok := false;
    }

    /** A call that gets the lock applies its function to the document it finds, saves only if the
        function does not throw, and leaves no lock of its own behind; one that does not changes
        nothing. The function takes some time; when the lock runs out meanwhile, another caller may
        have set its own and stored a document, which a save overwrites and the release spares. */
    method Update(token: nat, f: S -> Option<S>, elapsed: nat, other: Option<(Lock, S)>)
      returns (locked: bool, ok: bool)
      requires other.Some? ==> other.value.0.token != token
      modifies this
      ensures locked ==> ok == f(old(doc)).Some?
      ensures locked && (elapsed < 30000 || other == None) ==>
                lock == None && doc == (if ok then f(old(doc)).value else old(doc))
      ensures locked && elapsed >= 30000 && other.Some? ==>
                lock == Some(other.value.0) && doc == (if ok then f(old(doc)).value else other.value.1)
      ensures !locked ==> !ok && doc == old(doc) && lock == old(lock) && Alive(lock, now - 25) == lock != None
      ensures old(lock) == None ==> locked
    {
      locked := AcquireLock(token);
      if !locked {
        ok := false;
        return;
      }
      var loaded := doc;
      var result := f(loaded);
      now := now + elapsed;
      if Alive(lock, now) == None && other.Some? {
        lock, doc := Some(other.value.0), other.value.1;
      }
      if result.Some? { doc := result.value; }
      ok := result.Some?;
      lock := CompareAndDelete(lock, token);
    }
  }
}
