// However an order's processing is cut into calls, it ends as one uninterrupted run would end it.
module OrderCuts {
  import opened Wrappers
  import opened DecimalWire
  import opened Orders
  import opened OrderLaws
  import opened OrderStock
  import opened OrderRuns

  /** All that decides how an order goes on: its history and the stock. */
  datatype Core = Core(history: seq<Body>, stock: map<string, int>)

  function CoreOf(doc: Document, orderId: string): Core {
    Core(History(doc, orderId), doc.stock)
  }

  /** Finished, or at a step that throws. */
  predicate Resting(c: Core) {
    c.history == [] || Terminal(StatusOf(c.history)) || NextStock(c.history, c.stock) == None
  }

  function CoreStep(c: Core, methods: map<string, PaymentMethod>, orderId: string): Core {
    if Resting(c) then c
    else Core(c.history + [NextBody(c.history, c.stock, methods, orderId)], NextStock(c.history, c.stock).value)
  }

  function Evolve(c: Core, methods: map<string, PaymentMethod>, orderId: string, n: nat): Core
    decreases n
  {
    if n == 0 then c else Evolve(CoreStep(c, methods, orderId), methods, orderId, n - 1)
  }

  lemma {:induction false} EvolveTwice(c: Core, methods: map<string, PaymentMethod>, orderId: string, k: nat, j: nat)
    ensures Evolve(Evolve(c, methods, orderId, k), methods, orderId, j) == Evolve(c, methods, orderId, k + j)
    decreases k
  {
    hide CoreStep;
    if k > 0 {
      EvolveTwice(CoreStep(c, methods, orderId), methods, orderId, k - 1, j);
    }
  }

  lemma {:induction false} RestingStays(c: Core, methods: map<string, PaymentMethod>, orderId: string, n: nat)
    requires Resting(c)
    ensures Evolve(c, methods, orderId, n) == c
    decreases n
  {
    if n > 0 {
      RestingStays(c, methods, orderId, n - 1);
    }
  }

  // ---- Every call is some number of steps ---------------------------------------------------------------------

  lemma MovedIsStep(doc: Document, d: Document, orderId: string, start: Option<StartCommand>)
    requires Moved(doc, d, orderId, start) && History(doc, orderId) != []
    ensures CoreOf(d, orderId) == CoreStep(CoreOf(doc, orderId), doc.paymentMethods, orderId)
    ensures !Resting(CoreOf(doc, orderId)) && History(d, orderId) != []
  {
    hide Terminal, StatusOf, NextStock, NextBody, Touched, History;
  }

  lemma SavingSameCore(doc: Document, orderId: string, other: string)
    ensures CoreOf(SaveProjection(doc, orderId), other) == CoreOf(doc, other)
    ensures SaveProjection(doc, orderId).paymentMethods == doc.paymentMethods
    ensures SaveProjection(doc, orderId).stopAt == doc.stopAt
  {
    hide CurrentState, Bodies;
    assert Stream(SaveProjection(doc, orderId), other) == Stream(doc, other);
  }

  /** After one step a started order no longer waits to reserve, and only reserving can throw. */
  lemma OnlyReservingThrows(doc: Document, orderId: string)
    requires Sound(doc, orderId) && |History(doc, orderId)| != 1
    ensures NextStock(History(doc, orderId), doc.stock).Some?
  {
    hide FromWire, Recorded, Numbered, ReservationId, PaymentId, History, Take, Give;
    LinesOfSound(doc, orderId);
    var b := History(doc, orderId);
    if StatusOf(b) == PayFailed {
      StatusPlaces(b, orderId);
      GiveChanges(doc.stock, Lines(b));
    }
  }

  lemma RestingWhen(doc: Document, orderId: string)
    requires History(doc, orderId) != []
    ensures Resting(CoreOf(doc, orderId))
       <==> Terminal(StatusOf(History(doc, orderId))) || NextStock(History(doc, orderId), doc.stock) == None
  {
    hide History, Terminal, StatusOf, NextStock;
  }

  lemma HaltedWhen(doc: Document, orderId: string)
    requires Sound(doc, orderId) && History(doc, orderId) != []
    ensures var status := StatusOf(History(doc, orderId));
            Halted(doc, orderId) <==> Terminal(status) || StopHookReached(doc, orderId, status)
  {
    hide FromWire, Recorded, LinesStocked, ReservationId, PaymentId, Read, Written, Terminal, StopHookReached, Legal,
      Numbered;
    FoldIsSummary(Stream(doc, orderId), orderId);
  }

  /** A step, and the saved projection after it. */
  lemma MovedNext(doc: Document, d: Document, orderId: string, start: Option<StartCommand>) returns (next: Document)
    requires Moved(doc, d, orderId, start) && History(doc, orderId) != []
    ensures next == SaveProjection(d, orderId) && Sound(next, orderId)
    ensures next.paymentMethods == doc.paymentMethods && next.stopAt == doc.stopAt
    ensures History(next, orderId) != [] && NextStock(History(next, orderId), next.stock).Some?
    ensures CoreOf(next, orderId) == CoreStep(CoreOf(doc, orderId), doc.paymentMethods, orderId)
    ensures !Resting(CoreOf(doc, orderId))
  {
    next := SaveProjection(d, orderId);
    hide Sound, History, NextStock, SaveProjection, Resting, Terminal, StatusOf, NextBody, CoreStep, Balanced;
    MovedIsStep(doc, d, orderId, start);
    SavingKeeps(d, orderId);
    SavingSameCore(d, orderId, orderId);
    OnlyReservingThrows(next, orderId);
  }

  /** What a loop of max steps leads to: k steps of the core, all of max when no hook is set; it
      throws only at the first step. */
  ghost predicate Evolves(doc: Document, ran: Option<Document>, orderId: string, max: nat, k: nat) {
    var c := CoreOf(doc, orderId);
    match ran
    case Some(d) =>
      && k <= max && CoreOf(d, orderId) == Evolve(c, doc.paymentMethods, orderId, k)
      && (orderId !in doc.stopAt ==> CoreOf(d, orderId) == Evolve(c, doc.paymentMethods, orderId, max))
      && (orderId !in doc.stopAt && max > 0 ==> NextStock(c.history, c.stock).Some? || Terminal(StatusOf(c.history)))
    case None => NextStock(c.history, c.stock) == None && !Terminal(StatusOf(c.history))
  }

  lemma {:induction false} RunStepsEvolves(doc: Document, orderId: string, commandId: string,
                                           start: Option<StartCommand>, max: nat) returns (k: nat)
    requires Sound(doc, orderId) && History(doc, orderId) != []
    ensures Evolves(doc, RunSteps(doc, orderId, commandId, start, max), orderId, max, k)
    decreases max
  {
    hide Sound, Advance, History, Terminal, StatusOf, NextStock, CoreStep, SaveProjection, Resting, Halted, Touched,
      NextBody;
    k := 0;
    if max > 0 {
      AdvanceKeeps(doc, orderId, commandId, start);
      HaltedWhen(doc, orderId);
      RestingWhen(doc, orderId);
      if Terminal(StatusOf(History(doc, orderId))) {
        RestingStays(CoreOf(doc, orderId), doc.paymentMethods, orderId, max);
      }
      var step := Advance(doc, orderId, commandId, start);
      if step.Moves? && !Halted(doc, orderId) {
        var next := MovedNext(doc, step.doc, orderId, start);
        k := RunStepsEvolves(next, orderId, commandId, start, max - 1);
        k := k + 1;
      }
    }
  }

  lemma WorkEvolves(doc: Document, orderId: string, commandId: string, start: Option<StartCommand>, max: nat)
    returns (k: nat)
    requires Sound(doc, orderId) && History(doc, orderId) != []
    ensures Evolves(doc, RunWorkflow(doc, orderId, commandId, start, max), orderId, max, k)
            || (k == 0 && RunWorkflow(doc, orderId, commandId, start, max) == Some(SaveProjection(doc, orderId))
                && CommandAlreadyApplied(doc, orderId, commandId))
  {
    hide Sound, RunSteps, History, Terminal, StatusOf, NextStock, SaveProjection, CommandAlreadyApplied, CoreOf, Evolve;
    k := 0;
    if !CommandAlreadyApplied(doc, orderId, commandId) {
      k := RunStepsEvolves(doc, orderId, commandId, start, max);
      var ran := RunSteps(doc, orderId, commandId, start, max);
      if ran.Some? {
        SavingSameCore(ran.value, orderId, orderId);
      }
    }
  }

  lemma OthersSameCore(doc: Document, d: Document, orderId: string, other: string)
    requires SameElsewhere(doc, d, orderId) && other != orderId && d.stock == doc.stock
    ensures CoreOf(d, other) == CoreOf(doc, other)
  {
    hide Bodies, ReservationId, PaymentId;
    assert Stream(d, other) == Stream(doc, other);
  }

  lemma WorkElsewhere(doc: Document, orderId: string, commandId: string, start: Option<StartCommand>, max: nat)
    requires Sound(doc, orderId)
    ensures var ran := RunWorkflow(doc, orderId, commandId, start, max);
            ran.Some? ==> SameElsewhere(doc, ran.value, orderId)
  {
    hide Sound, SameElsewhere, RunWorkflow, Shown, Balanced, History;
    WorkKeeps(doc, orderId, commandId, start, max);
  }

  lemma SameEventsSameCore(doc: Document, d: Document, o: string)
    requires d.events == doc.events && d.stock == doc.stock
    ensures CoreOf(d, o) == CoreOf(doc, o)
  {
    hide Bodies;
  }

  /** A call moves a started order some number of steps on; calls on other orders none, if they
      leave the stock alone. */
  lemma CallEvolves(doc: Document, call: Call, o: string) returns (k: nat)
    requires AllGood(doc) && History(doc, o) != []
    requires call.orderId != o ==> Apply(doc, call).stock == doc.stock
    ensures CoreOf(Apply(doc, call), o) == Evolve(CoreOf(doc, o), doc.paymentMethods, o, k)
    ensures Apply(doc, call).paymentMethods == doc.paymentMethods
  {
    hide Sound, Shown, History, RunWorkflow, SameElsewhere, CoreOf, SaveProjection, Stream, CommandAlreadyApplied,
      CoreStep;
    assert Good(doc, call.orderId) && Good(doc, o);
    k := 0;
    var d := Apply(doc, call);
    match call
    case Work(p, commandId, start, max) =>
      WorkElsewhere(doc, p, commandId, start, max);
      if RunWorkflow(doc, p, commandId, start, max).Some? {
        MethodsKept(doc, d, p);
        if p != o {
          OthersSameCore(doc, d, p, o);
        } else {
          k := WorkEvolves(doc, o, commandId, start, max);
          SavingSameCore(doc, o, o);
        }
      }
    case RebuildProjection(p) => SavingSameCore(doc, p, o);
    case DeleteProjection(p) => SameEventsSameCore(doc, d, o);
    case SetStop(p, _) => SameEventsSameCore(doc, d, o);
    case ClearStop(p) => SameEventsSameCore(doc, d, o);
  }

  lemma MethodsKept(doc: Document, d: Document, o: string)
    requires SameElsewhere(doc, d, o)
    ensures d.paymentMethods == doc.paymentMethods && d.stopAt == doc.stopAt
  {
  }

  /** No call on another order changes the stock. */
  ghost predicate StockSteady(doc: Document, calls: seq<Call>, o: string) {
    calls == [] ||
    var front, last := calls[..|calls| - 1], calls[|calls| - 1];
    StockSteady(doc, front, o)
    && (last.orderId != o ==> Apply(Run(doc, front), last).stock == Run(doc, front).stock)
  }

  lemma {:induction false} RunEvolves(doc: Document, calls: seq<Call>, o: string) returns (k: nat)
    requires AllGood(doc) && History(doc, o) != [] && StockSteady(doc, calls, o)
    ensures CoreOf(Run(doc, calls), o) == Evolve(CoreOf(doc, o), doc.paymentMethods, o, k)
    ensures Run(doc, calls).paymentMethods == doc.paymentMethods && AllGood(Run(doc, calls))
  {
    hide AllGood, Apply, Evolve, History;
    if calls == [] {
      k := 0;
      NoSteps(CoreOf(doc, o), doc.paymentMethods, o);
    } else {
      var front, last := calls[..|calls| - 1], calls[|calls| - 1];
      var i := RunEvolves(doc, front, o);
      var before := Run(doc, front);
      EvolveGrows(CoreOf(doc, o), doc.paymentMethods, o, i);
      var j := CallEvolves(before, last, o);
      CallKeeps(before, last);
      EvolveTwice(CoreOf(doc, o), doc.paymentMethods, o, i, j);
      k := i + j;
    }
  }

  lemma NoSteps(c: Core, methods: map<string, PaymentMethod>, o: string)
    ensures Evolve(c, methods, o, 0) == c
  {
  }

  lemma {:induction false} EvolveGrows(c: Core, methods: map<string, PaymentMethod>, o: string, n: nat)
    ensures c.history <= Evolve(c, methods, o, n).history
    decreases n
  {
    hide Resting, NextStock, NextBody;
    if n > 0 {
      EvolveGrows(CoreStep(c, methods, o), methods, o, n - 1);
    }
  }

  // ---- Four steps are enough ----------------------------------------------------------------------------------

  ghost predicate CoreOk(c: Core, o: string) {
    Legal(c.history, o) && c.history != [] && LinesStocked(c.history, c.stock)
  }

  lemma CoreOfSound(doc: Document, o: string)
    requires Sound(doc, o) && History(doc, o) != []
    ensures CoreOk(CoreOf(doc, o), o)
  {
    hide Legal, Numbered, Recorded, LinesStocked;
    LinesOfSound(doc, o);
  }

  lemma CoreStepOk(c: Core, methods: map<string, PaymentMethod>, o: string)
    requires CoreOk(c, o)
    ensures CoreOk(CoreStep(c, methods, o), o)
    ensures !Resting(c) ==> |CoreStep(c, methods, o).history| == |c.history| + 1
  {
    hide Legal, LinesStocked, NextStock, NextBody, StatusOf, Terminal, HeldBy;
    if !Resting(c) {
      LegalNext(c.history, c.stock, methods, o);
      NextHolds(c.history, c.stock, methods, o);
    }
  }

  /** A legal history of five events is finished. */
  lemma FiveIsFinished(b: seq<Body>, o: string)
    requires Legal(b, o) && |b| == 5
    ensures Terminal(StatusOf(b))
  {
    hide ReservationId, PaymentId, FromWire;
  }

  lemma {:induction false} RestsWithin(c: Core, methods: map<string, PaymentMethod>, o: string, n: nat)
    requires CoreOk(c, o) && |c.history| + n >= 5
    ensures Resting(Evolve(c, methods, o, n)) && CoreOk(Evolve(c, methods, o, n), o)
    decreases n
  {
    hide Legal, LinesStocked, NextStock, NextBody, StatusOf, Terminal, CoreStep, Resting;
    if n == 0 {
      AtMostFive(c, o);
      FiveIsFinished(c.history, o);
      FinishedRests(c);
    } else if Resting(c) {
      RestingStays(c, methods, o, n);
    } else {
      CoreStepOk(c, methods, o);
      RestsWithin(CoreStep(c, methods, o), methods, o, n - 1);
    }
  }

  lemma AtMostFive(c: Core, o: string)
    requires CoreOk(c, o)
    ensures |c.history| <= 5
  {
    hide ReservationId, PaymentId, FromWire;
  }

  lemma FinishedRests(c: Core)
    requires Terminal(StatusOf(c.history))
    ensures Resting(c)
  {
  }

  /** Once an order rests, taking more steps or having taken fewer calls makes no difference. */
  lemma RestIsUnique(c: Core, methods: map<string, PaymentMethod>, o: string, k: nat, n: nat)
    requires Resting(Evolve(c, methods, o, k)) && Resting(Evolve(c, methods, o, n))
    ensures Evolve(c, methods, o, k) == Evolve(c, methods, o, n)
  {
    hide Resting, Evolve;
    if k <= n {
      EvolveTwice(c, methods, o, k, n - k);
      RestingStays(Evolve(c, methods, o, k), methods, o, n - k);
    } else {
      EvolveTwice(c, methods, o, n, k - n);
      RestingStays(Evolve(c, methods, o, n), methods, o, k - n);
    }
  }

  /** Two documents in which an order has the same history agree on everything that is its own. */
  ghost predicate SameOrder(d: Document, e: Document, o: string) {
    && History(d, o) == History(e, o)
    && Lookup(d.reservations, ReservationId(o)) == Lookup(e.reservations, ReservationId(o))
    && Lookup(d.released, ReservationId(o)) == Lookup(e.released, ReservationId(o))
    && Lookup(d.payments, PaymentId(o)) == Lookup(e.payments, PaymentId(o))
    && Lookup(d.paymentAttempts, o) == Lookup(e.paymentAttempts, o)
    && CurrentState(d, o) == CurrentState(e, o)
  }

  lemma HistoryDecides(d: Document, e: Document, o: string)
    requires Sound(d, o) && Sound(e, o) && History(d, o) == History(e, o) != []
    ensures SameOrder(d, e, o)
  {
    hide Legal, Numbered, LinesStocked, ReservationId, PaymentId, ReservationFor, PaymentFor, AttemptFor, ReleaseFor,
      ProjectionOf,
      Summary;
    assert Legal(History(d, o), o) && Numbered(Stream(d, o), o) && Numbered(Stream(e, o), o);
    FoldIsSummary(Stream(d, o), o);
    FoldIsSummary(Stream(e, o), o);
  }

  /** The order's processing without interruption: its hook cleared, one call of sixteen steps. */
  function Uninterrupted(doc: Document, o: string): Document {
    Apply(Apply(doc, ClearStop(o)), ScheduledCall(o))
  }

  lemma UninterruptedEvolves(doc: Document, o: string)
    requires AllGood(doc) && History(doc, o) != []
    requires NextStock(History(doc, o), doc.stock).Some? || Terminal(StatusOf(History(doc, o)))
    ensures var whole := Uninterrupted(doc, o);
            CoreOf(whole, o) == Evolve(CoreOf(doc, o), doc.paymentMethods, o, MAX_STEPS) && AllGood(whole)
  {
    hide AllGood, Good, RunWorkflow, Evolve, History, Terminal, StatusOf, NextStock;
    var clear := Apply(doc, ClearStop(o));
    CallKeeps(doc, ClearStop(o));
    CallKeeps(clear, ScheduledCall(o));
    SameEventsSameCore(doc, clear, o);
    SoundIn(clear, o);
    var k := WorkEvolves(clear, o, "", None, MAX_STEPS);
  }

  /** However the calls for an order are cut, with any step limits, command ids and hooks, if no other
      order changes the stock meanwhile, an order that has ended has ended as the uninterrupted call
      ends it: the same events, records and public state, and the same stock. */
  lemma CutsDoNotMatter(doc: Document, calls: seq<Call>, o: string)
    requires AllGood(doc) && History(doc, o) != [] && StockSteady(doc, calls, o)
    requires Terminal(StatusOf(History(Run(doc, calls), o)))
    ensures var cut, whole := Run(doc, calls), Uninterrupted(doc, o);
            SameOrder(cut, whole, o) && cut.stock == whole.stock
  {
    hide AllGood, Good, History, Run, StockSteady, Evolve, Terminal, StatusOf, NextStock, Uninterrupted, SameOrder,
      Sound,
      CoreOk, Shown;
    var c, methods := CoreOf(doc, o), doc.paymentMethods;
    var k := RunEvolves(doc, calls, o);
    SoundIn(doc, o);
    RestingWhen(doc, o);
    if Resting(c) {
      RestingStays(c, methods, o, k);
    }
    UninterruptedEvolves(doc, o);
    CoreOfSound(doc, o);
    RestsWithin(c, methods, o, MAX_STEPS);
    RestIsUnique(c, methods, o, k, MAX_STEPS);
    SoundIn(Run(doc, calls), o);
    SoundIn(Uninterrupted(doc, o), o);
    EvolveGrows(c, methods, o, k);
    HistoryDecides(Run(doc, calls), Uninterrupted(doc, o), o);
  }

  /** No event of the order bears the command id; an empty id is never taken for one that was applied. */
  ghost predicate FreshId(doc: Document, o: string, commandId: string) {
    commandId == "" || forall e | e in Stream(doc, o) :: e.sourceCommandId != commandId
  }

  lemma FreshIsNotApplied(doc: Document, o: string, commandId: string)
    ensures CommandAlreadyApplied(doc, o, commandId) <==> !FreshId(doc, o, commandId)
  {
    hide Stream;
  }

  /** A continue of a started order with a fresh or empty command id and no hook ends it, unless the
      stock covers every line while a line names an unknown SKU; then, and only then, it throws. */
  lemma ContinueEndsOrThrows(doc: Document, o: string, commandId: string)
    requires AllGood(doc) && History(doc, o) != [] && o !in doc.stopAt && FreshId(doc, o, commandId)
    ensures var ran, b := RunWorkflow(doc, o, commandId, None, MAX_STEPS), History(doc, o);
            && (ran.None? <==> StatusOf(b) == Created && FirstShort(doc.stock, Lines(b)) == None
                               && exists l | l in Lines(b) :: l.sku !in doc.stock)
            && (ran.Some? ==>
                     Terminal(StatusOf(History(ran.value, o))) && Shown(ran.value, o) && o in ran.value.readModels)
  {
    hide AllGood, Good, History, Evolve, StatusOf, NextStock, Sound, CoreOk, Shown, RunSteps, CommandAlreadyApplied,
      Terminal,
      Resting, FreshId;
    FreshIsNotApplied(doc, o, commandId);
    var c, methods, b := CoreOf(doc, o), doc.paymentMethods, History(doc, o);
    SoundIn(doc, o);
    CoreOfSound(doc, o);
    WorkKeeps(doc, o, commandId, None, MAX_STEPS);
    var k := WorkEvolves(doc, o, commandId, None, MAX_STEPS);
    RestsWithin(c, methods, o, MAX_STEPS);
    ThrowsExactly(doc, o);
    if NextStock(b, doc.stock).Some? || Terminal(StatusOf(b)) {
      RestsAsFinished(c, methods, o, MAX_STEPS);
    }
  }

  /** A step throws exactly when the order waits to reserve, its lines are covered and one is unknown. */
  lemma ThrowsExactly(doc: Document, o: string)
    requires Sound(doc, o) && History(doc, o) != []
    ensures var b := History(doc, o);
            && (NextStock(b, doc.stock) == None
                <==> StatusOf(b) == Created && FirstShort(doc.stock, Lines(b)) == None
                     && exists l | l in Lines(b) :: l.sku !in doc.stock)
            && (StatusOf(b) == Created ==> !Terminal(StatusOf(b)))
  {
    hide Sound, History, Take, FirstShort, Lines, Legal;
    var b := History(doc, o);
    TakeFailsExactly(doc.stock, Lines(b));
    if NextStock(b, doc.stock) == None && StatusOf(b) != Created {
      LegalIn(doc, o);
      StatusPlaces(b, o);
      OnlyReservingThrows(doc, o);
    }
  }

  lemma {:induction false} TakeFailsExactly(stock: map<string, int>, lines: seq<Line>)
    ensures Take(stock, lines) == None <==> exists l | l in lines :: l.sku !in stock
    ensures Take(stock, lines).Some? ==> Take(stock, lines).value.Keys == stock.Keys
  {
    if lines != [] {
      var front, last := lines[..|lines| - 1], lines[|lines| - 1];
      TakeFailsExactly(stock, front);
      assert lines == front + [last];
      assert last in lines && forall l | l in front :: l in lines;
    }
  }

  /** An order that can take its next step rests only when it is finished. */
  lemma {:induction false} RestsAsFinished(c: Core, methods: map<string, PaymentMethod>, o: string, n: nat)
    requires CoreOk(c, o) && Resting(Evolve(c, methods, o, n))
    requires NextStock(c.history, c.stock).Some? || Terminal(StatusOf(c.history))
    ensures Terminal(StatusOf(Evolve(c, methods, o, n).history))
    decreases n
  {
    hide Legal, LinesStocked, NextStock, NextBody, StatusOf, Terminal, HeldBy;
    if n > 0 {
      if Resting(c) {
        RestingStays(c, methods, o, n);
      } else {
        CoreStepOk(c, methods, o);
        var next := CoreStep(c, methods, o);
        LaterStepsDoNotThrow(next, o);
        RestsAsFinished(next, methods, o, n - 1);
      }
    }
  }

  lemma LaterStepsDoNotThrow(c: Core, o: string)
    requires CoreOk(c, o) && |c.history| >= 2
    ensures NextStock(c.history, c.stock).Some?
  {
    hide FromWire, ReservationId, PaymentId, Take, Give;
    StatusPlaces(c.history, o);
    if StatusOf(c.history) == PayFailed {
      GiveChanges(c.stock, Lines(c.history));
    }
  }

  // ---- What the end costs ---------------------------------------------------------------------------------------

  lemma {:induction false} GiveUndoesTake(stock: map<string, int>, lines: seq<Line>)
    requires Take(stock, lines).Some?
    ensures Give(Take(stock, lines).value, lines) == Some(stock)
  {
    hide Take, Give, QuantityIn;
    TakeChanges(stock, lines);
    var taken := Take(stock, lines).value;
    GiveChanges(taken, lines);
    var given := Give(taken, lines).value;
    assert given.Keys == stock.Keys && forall sku | sku in stock :: given[sku] == stock[sku];
    assert given == stock;
  }

  lemma StepOnce(c: Core, methods: map<string, PaymentMethod>, o: string, n: nat)
    requires n > 0
    ensures Evolve(c, methods, o, n) == Evolve(CoreStep(c, methods, o), methods, o, n - 1)
  {
    hide CoreStep;
  }

  /** A core whose last event only has to be reported. */
  lemma EndsIn(c: Core, methods: map<string, PaymentMethod>, o: string, n: nat, end: Status)
    requires c.history != [] && n >= 1
    requires var status := StatusOf(c.history);
             if end.Confirmed? then status == Authorized
             else end.Failed? && (status == ReserveFailed || status == Released)
    ensures var last := Evolve(c, methods, o, n); StatusOf(last.history) == end && last.stock == c.stock
  {
    hide Evolve, Take, Give, ReservationId, PaymentId, MethodOf, FirstShort;
    StepOnce(c, methods, o, n);
    RestsAfter(CoreStep(c, methods, o), methods, o, n - 1);
  }

  /** A core that has reserved: it keeps the stock when paid, and gives it back when not. */
  lemma EndsPaidOrGivenBack(c: Core, methods: map<string, PaymentMethod>, o: string, n: nat, before: map<string, int>)
    requires |c.history| == 2 && c.history[0].OrderStarted? && c.history[1].InventoryReserved? && n >= 3
    requires Give(c.stock, Lines(c.history)) == Some(before)
    ensures var end := Evolve(c, methods, o, n);
            if MethodIn(c.history, methods).shouldAuthorize
            then StatusOf(end.history) == Confirmed && end.stock == c.stock
            else StatusOf(end.history) == Failed && end.stock == before
  {
    hide Evolve, Give, ReservationId, PaymentId, MethodOf;
    var c1 := CoreStep(c, methods, o);
    StepOnce(c, methods, o, n);
    if MethodIn(c.history, methods).shouldAuthorize {
      EndsIn(c1, methods, o, n - 1, Confirmed);
    } else {
      assert Lines(c1.history) == Lines(c.history);
      var c2 := CoreStep(c1, methods, o);
      StepOnce(c1, methods, o, n - 1);
      EndsIn(c2, methods, o, n - 2, Failed);
    }
  }

  /** A newly started order ends confirmed exactly when the stock covers it and its method pays, and
      then exactly its lines are taken; when it fails, the stock is what it was. */
  lemma FailureCostsNothing(c: Core, methods: map<string, PaymentMethod>, o: string, n: nat)
    requires |c.history| == 1 && c.history[0].OrderStarted? && n >= 4
    requires NextStock(c.history, c.stock).Some?
    ensures var end := Evolve(c, methods, o, n);
            if FirstShort(c.stock, Lines(c.history)) == None && MethodIn(c.history, methods).shouldAuthorize
            then StatusOf(end.history) == Confirmed && Take(c.stock, Lines(c.history)) == Some(end.stock)
            else StatusOf(end.history) == Failed && end.stock == c.stock
  {
    hide Evolve, Take, Give, FirstShort, ShortReason, ReservationId, PaymentId, MethodOf;
    var c1 := CoreStep(c, methods, o);
    StepOnce(c, methods, o, n);
    if FirstShort(c.stock, Lines(c.history)) == None {
      GiveUndoesTake(c.stock, Lines(c.history));
      assert Lines(c1.history) == Lines(c.history);
      EndsPaidOrGivenBack(c1, methods, o, n - 1, c.stock);
    } else {
      EndsIn(c1, methods, o, n - 1, Failed);
    }
  }

  lemma RestsAfter(c: Core, methods: map<string, PaymentMethod>, o: string, n: nat)
    ensures Terminal(StatusOf(c.history)) ==> Evolve(c, methods, o, n) == c
  {
    if Terminal(StatusOf(c.history)) {
      RestingStays(c, methods, o, n);
    }
  }
}
