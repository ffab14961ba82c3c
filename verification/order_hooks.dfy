// How orders begin: a start that stops at Created, a hook that holds an order, and two edge cases.
module OrderHooks {
  import opened Wrappers
  import opened DecimalWire
  import opened Orders
  import opened OrderLaws
  import opened OrderStock
  import opened OrderRuns
  import opened OrderRepeats
  import opened OrderCuts
  import opened OrderFloor

  /** A loop stops at once where the hook names the folded status. */
  lemma HookHolds(doc: Document, o: string, commandId: string, start: Option<StartCommand>, max: nat)
    requires Sound(doc, o) && History(doc, o) != [] && StopHookReached(doc, o, StatusOf(History(doc, o)))
    ensures RunSteps(doc, o, commandId, start, max) == Some(doc)
  {
    hide Sound, History, StatusOf, StopHookReached, Halted, Advance;
    HaltedWhen(doc, o);
  }

  lemma NotYetHalted(doc: Document, o: string)
    requires Sound(doc, o) && StatusOf(History(doc, o)) == Created && doc.stopAt == doc.stopAt[o := Reserved]
    ensures !Halted(doc, o) && History(doc, o) != []
  {
    hide Sound, History, Halted;
    HaltedWhen(doc, o);
  }

  /** With a hook at InventoryReserved a continue of a covered new order reserves its lines and stops. */
  lemma ContinueStopsAtHook(doc: Document, o: string, commandId: string)
    requires Sound(doc, o) && StatusOf(History(doc, o)) == Created && doc.stopAt == doc.stopAt[o := Reserved]
    requires FirstShort(doc.stock, Lines(History(doc, o))) == None && NextStock(History(doc, o), doc.stock).Some?
    requires !CommandAlreadyApplied(doc, o, commandId)
    ensures var ran, b := RunWorkflow(doc, o, commandId, None, MAX_STEPS), History(doc, o);
            && ran.Some? && StatusOf(History(ran.value, o)) == Reserved
                && Some(ran.value.stock) == Take(doc.stock, Lines(b))
            && Shown(ran.value, o) && o in ran.value.readModels
  {
    hide Sound, History, Halted, Advance, Take, FirstShort, Lines, SaveProjection, CommandAlreadyApplied, Shown,
      Resting, Legal;
    NotYetHalted(doc, o);
    AdvanceKeeps(doc, o, commandId, None);
    var b := History(doc, o);
    assert !Terminal(StatusOf(b)) && NextStock(b, doc.stock) == Take(doc.stock, Lines(b));
    var step := Advance(doc, o, commandId, None);
    var next := MovedNext(doc, step.doc, o, None);
    LegalIn(doc, o);
    ReservedNext(b, doc.stock, doc.paymentMethods, o);
    assert StopHookReached(next, o, Reserved);
    HookHolds(next, o, commandId, None, MAX_STEPS - 1);
    assert RunSteps(doc, o, commandId, None, MAX_STEPS) == Some(next);
    SavingSameCore(next, o, o);
    SavingKeeps(next, o);
    SavingShows(next, o);
  }

  lemma ReservedNext(b: seq<Body>, stock: map<string, int>, methods: map<string, PaymentMethod>, o: string)
    requires Legal(b, o) && StatusOf(b) == Created && FirstShort(stock, Lines(b)) == None && !Resting(Core(b, stock))
    ensures StatusOf(CoreStep(Core(b, stock), methods, o).history) == Reserved
  {
    hide FirstShort, Take, ReservationId, PaymentId;
    StatusPlaces(b, o);
  }

  lemma EndsFromReserved(doc: Document, o: string)
    requires AllGood(doc) && StatusOf(History(doc, o)) == Reserved
    ensures Terminal(CurrentState(Uninterrupted(doc, o), o).status)
  {
    hide AllGood, History, Uninterrupted, CurrentState, Sound, Shown, CoreOk, Evolve;
    SoundIn(doc, o);
    var c := CoreOf(doc, o);
    assert NextStock(c.history, c.stock) == Some(c.stock) && c.history != [];
    UninterruptedEvolves(doc, o);
    CoreOfSound(doc, o);
    RestsWithin(c, doc.paymentMethods, o, MAX_STEPS);
    RestsAsFinished(c, doc.paymentMethods, o, MAX_STEPS);
    SoundIn(Uninterrupted(doc, o), o);
    StatusOfState(Uninterrupted(doc, o), o);
  }

  /** The first start of an order stores its one event, touches no stock and answers Created; it
      throws exactly for an amount from_wire refuses. */
  lemma FirstStartAnswersCreated(doc: Document, command: StartCommand)
    requires AllGood(doc) && History(doc, command.orderId) == []
    ensures var done, o := Perform(doc, StartCall(command)), command.orderId;
            && (done.None? <==> FromWire(command.amount).Err?)
            && (done.Some? ==> History(done.value, o) == [StartedBy(command)] && done.value.stock == doc.stock
                               && done.value.stopAt == doc.stopAt && done.value.paymentMethods == doc.paymentMethods
                               && CurrentState(done.value, o).status == Created)
  {
    hide AllGood, FromWire, Advance, SaveProjection, CurrentState, Sound, Shown, StartedBy, Steps, SameElsewhere,
      Balanced;
    var o, call := command.orderId, StartCall(command);
    SoundIn(doc, o);
    NothingHalts(doc, o);
    StartAdvances(doc, o, call.commandId, call.start);
    var step := Advance(doc, o, call.commandId, call.start);
    if step.Moves? {
      var saved := SaveProjection(step.doc, o);
      StartKeeps(doc, step.doc, o, call.commandId, command);
      MethodsKept(doc, step.doc, o);
      SavingKeeps(step.doc, o);
      SavingSameCore(step.doc, o, o);
      SavingKeeps(saved, o);
      SavingSameCore(saved, o, o);
      CreatedShows(SaveProjection(saved, o), o, command);
    }
  }

  lemma NothingHalts(doc: Document, o: string)
    requires History(doc, o) == []
    ensures !Halted(doc, o) && forall commandId :: !CommandAlreadyApplied(doc, o, commandId)
  {
    assert Stream(doc, o) == [] && Fold(Stream(doc, o), o) == NoEvents(o);
  }

  lemma CreatedShows(doc: Document, o: string, command: StartCommand)
    requires Sound(doc, o) && History(doc, o) == [StartedBy(command)]
    ensures CurrentState(doc, o).status == Created
  {
    hide Sound, History, CurrentState;
    StatusOfState(doc, o);
  }

  /** Every line is covered alone and names a stocked SKU. */
  ghost predicate Reservable(stock: map<string, int>, lines: seq<Line>) {
    FirstShort(stock, lines) == None && forall l | l in lines :: l.sku in stock
  }

  lemma StartedCore(doc: Document, o: string, command: StartCommand)
    requires History(doc, o) == [StartedBy(command)]
    ensures StatusOf(History(doc, o)) == Created && Lines(History(doc, o)) == command.lines
    ensures NextStock(History(doc, o), doc.stock)
         == if FirstShort(doc.stock, command.lines) == None then Take(doc.stock, command.lines) else Some(doc.stock)
  {
    hide FirstShort, Take;
  }

  /** Preparing: the hook is set before the order has an event, the start stops at Created, and the
      scheduled continue reserves the lines and waits there, whatever the payment method. With the
      hook cleared the order ends. */
  lemma PreparedOrderWaits(doc: Document, command: StartCommand)
    requires AllGood(doc) && History(doc, command.orderId) == [] && FromWire(command.amount).Ok?
    requires Reservable(doc.stock, command.lines)
    ensures var o := command.orderId;
            var started := Apply(Apply(doc, SetStop(o, Reserved)), StartCall(command));
            var waiting := Apply(started, ScheduledCall(o));
            && CurrentState(started, o).status == Created
            && CurrentState(waiting, o).status == Reserved && Some(waiting.stock) == Take(doc.stock, command.lines)
            && Terminal(CurrentState(Uninterrupted(waiting, o), o).status)
  {
    hide AllGood, FromWire, History, RunWorkflow, FirstShort, Take, NextStock, Lines, Shown, CurrentState, Sound,
      StatusOf, Uninterrupted, StartedBy;
    var o := command.orderId;
    var stopped := Apply(doc, SetStop(o, Reserved));
    CallKeeps(doc, SetStop(o, Reserved));
    SameEventsSameCore(doc, stopped, o);
    FirstStartAnswersCreated(stopped, command);
    var started := Apply(stopped, StartCall(command));
    CallKeeps(stopped, StartCall(command));
    StartedCore(started, o, command);
    TakeFailsExactly(doc.stock, command.lines);
    SoundIn(started, o);
    assert started.stopAt == started.stopAt[o := Reserved];
    ContinueStopsAtHook(started, o, "");
    var waiting := Apply(started, ScheduledCall(o));
    CallKeeps(started, ScheduledCall(o));
    SoundIn(waiting, o);
    StatusOfState(waiting, o);
    EndsFromReserved(waiting, o);
  }

  // ---- Two edge cases, from the first call on ------------------------------------------------------------

  /** A new order that is continued without a hook. */
  function StartedAndContinued(doc: Document, command: StartCommand): Document {
    Run(doc, [StartCall(command), ScheduledCall(command.orderId)])
  }

  lemma TwoCalls(doc: Document, first: Call, second: Call)
    ensures Run(doc, [first, second]) == Apply(Apply(doc, first), second)
    ensures Run(doc, [first]) == Apply(doc, first)
  {
    hide Apply;
    assert [first, second][..1] == [first] && [first][..0] == [];
    assert Run(doc, [first][..0]) == doc;
  }

  /** An order with one SKU on two lines, each asking for all there is, is confirmed and leaves the
      negative of it. */
  lemma RepeatedSkuOversellsInARun(sku: string, quantity: int, methods: map<string, PaymentMethod>,
                                   command: StartCommand)
    requires quantity > 0 && command.lines == [Line(sku, quantity), Line(sku, quantity)]
    requires FromWire(command.amount).Ok? && MethodOf(methods, command.paymentMethodId).shouldAuthorize
    ensures var doc := StartedAndContinued(Seeded(map[sku := quantity], methods), command);
            doc.stock == map[sku := -quantity] && CurrentState(doc, command.orderId).status == Confirmed
  {
    hide FromWire, History, CurrentState, Take, FirstShort, MethodOf, StatusOf, AllGood, Sound, Shown, RunWorkflow,
      CommandAlreadyApplied, Evolve;
    var o, seed := command.orderId, Seeded(map[sku := quantity], methods);
    TwoCalls(seed, StartCall(command), ScheduledCall(o));
    SeededIsGood(seed.stock, methods);
    NothingStarted(seed, o);
    FirstStartAnswersCreated(seed, command);
    var started := Apply(seed, StartCall(command));
    CallKeeps(seed, StartCall(command));
    StartedCore(started, o, command);
    RepeatedSkuOversells(sku, quantity);
    SoundIn(started, o);
    var c := CoreOf(started, o);
    StartedMethod(started, o, command);
    var k := WorkEvolves(started, o, "", None, MAX_STEPS);
    EmptyIdIsNew(started, o);
    FailureCostsNothing(c, methods, o, MAX_STEPS);
    var ended := Apply(started, ScheduledCall(o));
    CallKeeps(started, ScheduledCall(o));
    SoundIn(ended, o);
    StatusOfState(ended, o);
  }

  lemma NothingStarted(doc: Document, o: string)
    requires doc.events == map[]
    ensures History(doc, o) == []
  {
  }

  lemma EmptyIdIsNew(doc: Document, o: string)
    ensures !CommandAlreadyApplied(doc, o, "")
  {
  }

  lemma StartedMethod(doc: Document, o: string, command: StartCommand)
    requires History(doc, o) == [StartedBy(command)]
    ensures var b := History(doc, o);
            |b| == 1 && b[0].OrderStarted?
                && MethodIn(b, doc.paymentMethods) == MethodOf(doc.paymentMethods, command.paymentMethodId)
  {
    hide MethodOf;
  }

  /** An order whose lines are covered while one names an unknown SKU can be started; continued, it
      throws and the document stays as it was, so the next continue throws as well. */
  lemma UnknownSkuThrowsInARun(doc: Document, command: StartCommand)
    requires AllGood(doc) && History(doc, command.orderId) == [] && command.orderId !in doc.stopAt
    requires FromWire(command.amount).Ok? && FirstShort(doc.stock, command.lines) == None
    requires exists l | l in command.lines :: l.sku !in doc.stock
    ensures var o, started := command.orderId, Apply(doc, StartCall(command));
            && CurrentState(started, o).status == Created && Perform(started, ScheduledCall(o)) == None
            && Apply(started, ScheduledCall(o)) == started
  {
    hide FromWire, History, CurrentState, Take, FirstShort, StatusOf, AllGood, Sound, Shown, RunWorkflow, StartedBy,
      CommandAlreadyApplied;
    var o := command.orderId;
    FirstStartAnswersCreated(doc, command);
    var started := Apply(doc, StartCall(command));
    CallKeeps(doc, StartCall(command));
    StartedCore(started, o, command);
    ContinueEndsOrThrows(started, o, "");
  }
}
