// What clients are shown of an order, what a repeated command does to it, and what each outside effect
// answers: everything spelled out in events, ids, texts and amounts.
module OrderOutcomes {
  import opened Wrappers
  import opened Numerals
  import opened Binary64
  import opened Decimal
  import opened DecimalWire
  import opened Orders
  import opened OrderLaws
  import opened OrderStock
  import opened OrderRuns
  import opened OrderRepeats
  import opened OrderCuts
  import opened OrderHooks

  // ---- The state shown --------------------------------------------------------------------------------

  /** What the status of an order is called after its last event. */
  function StatusShown(last: Body): Status {
    match last
    case OrderStarted(_, _, _, _, _, _) => Created
    case InventoryReserved(_) => Reserved
    case InventoryReservationFailed(_) => Created
    case PaymentAuthorized(_) => Authorized
    case PaymentFailed(_) => Reserved
    case InventoryReleased(_, _) => Reserved
    case OrderConfirmed => Confirmed
    case OrderFailed(_) => Failed
  }

  predicate Fails(e: Body, reason: string) {
    e == InventoryReservationFailed(reason) || e == PaymentFailed(reason)
  }

  /** The state shows the events: ids exist from the event on that reports them, and the reason is that of
      the event that failed. */
  ghost predicate Shows(state: OrderState, b: seq<Body>, o: string) {
    if b == [] then state == OrderState(o, Absent, "", "", "", "", Finite(0.0), "")
    else
      && b[0].OrderStarted? && state.orderId == o && state.status == StatusShown(b[|b| - 1])
      && state.shippingAddressId == b[0].shippingAddressId
      && state.amount == b[0].amount && state.currency == b[0].currency
      && state.reservationId == (if exists e | e in b :: e.InventoryReserved? then "reservation-" + o else "")
      && state.paymentId == (if exists e | e in b :: e.PaymentAuthorized? then "payment-" + o else "")
      && (forall e, reason | e in b && Fails(e, reason) :: state.reason == reason)
      && ((forall e | e in b :: !e.InventoryReservationFailed? && !e.PaymentFailed?) ==> state.reason == "")
  }

  /** The places of a legal history that decide what is shown. */
  lemma LegalPlaces(b: seq<Body>, o: string)
    requires Legal(b, o) && b != [] && b[0].OrderStarted?
    ensures (exists e | e in b :: e.InventoryReserved?) <==> |b| >= 2 && b[1].InventoryReserved?
    ensures (exists e | e in b :: e.PaymentAuthorized?) <==> |b| >= 3 && b[2].PaymentAuthorized?
    ensures forall e, reason | e in b && Fails(e, reason) :: reason == Reason(b)
    ensures (forall e | e in b :: !e.InventoryReservationFailed? && !e.PaymentFailed?) ==> Reason(b) == ""
  {
    hide ReservationId, PaymentId, FromWire;
    assert |b| >= 2 ==> b[1] in b;
    assert |b| >= 3 ==> b[2] in b;
  }

  lemma SummaryShows(b: seq<Body>, o: string)
    requires Legal(b, o) && b != [] && b[0].OrderStarted? && FromWire(b[0].amount).Ok?
    ensures Shows(ProjectionOf(Summary(b, o)), b, o)
  {
    hide FromWire, Read, Written, Legal, Reason, Fails;
    AmountKept(b[0].amount);
    LegalPlaces(b, o);
  }

  lemma NothingShown(o: string)
    ensures Shows(ProjectionOf(NoEvents(o)), [], o)
  {
    ZeroIsWritten();
  }

  /** The amount of an order without events. */
  lemma ZeroIsWritten()
    ensures Written("0") == Finite(0.0)
  {
    var zero := Parts(false, "0", "");
    assert Canonical(zero) && Render(zero) == "0" && MinorUnits("0", "") == 0 by { assert "0"[..0] == ""; }
    hide Parse, Render, Reduce, MinorUnits, Round, WireNumber;
    RenderReadsBack(zero);
    CanonicalReducesToItself(zero);
    RenderToWire(zero, 0);
    WireZero();
  }

  lemma WireZero()
    ensures WireNumber(0) == Finite(0.0)
  {
    hide Exponent, Pow2;
    NearestZero();
  }

  lemma NearestZero()
    ensures NearestEven(0.0) == 0
  {
  }

  /** The state of a sound order shows its events. */
  lemma CurrentStateShows(doc: Document, o: string)
    requires Sound(doc, o)
    ensures Shows(CurrentState(doc, o), History(doc, o), o)
  {
    hide FromWire, Recorded, LinesStocked, ReservationId, PaymentId, Read, Written, Legal, Numbered, Shows, Summary,
      ProjectionOf;
    if History(doc, o) == [] {
      assert Fold(Stream(doc, o), o) == NoEvents(o);
      NothingShown(o);
    } else {
      FoldIsSummary(Stream(doc, o), o);
      SummaryShows(History(doc, o), o);
    }
  }

  /** Every read model of every reachable document shows its order's events. */
  lemma ReadModelsShow(stock: map<string, int>, methods: map<string, PaymentMethod>, calls: seq<Call>, o: string)
    ensures var doc := Run(Seeded(stock, methods), calls);
            o in doc.readModels ==> Shows(doc.readModels[o], History(doc, o), o)
  {
    hide Run, Seeded, AllGood, Sound, CurrentState, History, Shows;
    ReachableIsGood(stock, methods, calls);
    SoundIn(Run(Seeded(stock, methods), calls), o);
    CurrentStateShows(Run(Seeded(stock, methods), calls), o);
  }

  // ---- The same command again ---------------------------------------------------------------------------

  /** A command whose non-empty id some event of the order bears only saves the order's projection: no
      event, no stock, no record changes. */
  lemma AppliedCommandOnlySaves(doc: Document, o: string, commandId: string, start: Option<StartCommand>, max: nat)
    requires commandId != "" && exists e | e in Stream(doc, o) :: e.sourceCommandId == commandId
    ensures RunWorkflow(doc, o, commandId, start, max)
         == Some(doc.(readModels := doc.readModels[o := CurrentState(doc, o)]))
  {
    hide Stream, RunSteps, CurrentState;
  }

  /** The id a start command is stored under: its own, or one made of its key. */
  function StartId(command: StartCommand): string {
    if command.sourceCommandId != "" then command.sourceCommandId else "start:" + command.idempotencyKey
  }

  /** The first start stores event 1 under the command's id. */
  lemma StartStoresFirstEvent(doc: Document, command: StartCommand)
    requires AllGood(doc) && History(doc, command.orderId) == [] && FromWire(command.amount).Ok?
    ensures var o := command.orderId;
            Stream(Apply(doc, StartCall(command)), o)
            == [StoredEvent(o + ":1", StartId(command), o, StartedBy(command), 1)]
  {
    hide AllGood, FromWire, Advance, SaveProjection, Sound, Shown, StartedBy, SameElsewhere, Recorded, RunSteps, Stream,
      Halted, CommandAlreadyApplied;
    var o, call := command.orderId, StartCall(command);
    SoundIn(doc, o);
    NothingHalts(doc, o);
    NoEventsNoStream(doc, o);
    StartAdvances(doc, o, StartId(command), Some(command));
    var step := Advance(doc, o, StartId(command), Some(command)).doc;
    OneStepOnly(doc, o, StartId(command), Some(command));
    SavingKeepsStream(step, o);
    SavingKeepsStream(SaveProjection(step, o), o);
    assert ToText(1) == "1" && o + ":" + "1" == o + ":1";
    assert [] + [Event(o, StartId(command), StartedBy(command), 0)]
        == [StoredEvent(o + ":1", StartId(command), o, StartedBy(command), 1)];
  }

  lemma NoEventsNoStream(doc: Document, o: string)
    requires History(doc, o) == []
    ensures Stream(doc, o) == []
  {
  }

  /** A loop of one step that moves takes that step. */
  lemma OneStepOnly(doc: Document, o: string, commandId: string, start: Option<StartCommand>)
    requires !Halted(doc, o) && Advance(doc, o, commandId, start).Moves?
    ensures RunSteps(doc, o, commandId, start, 1) == Some(SaveProjection(Advance(doc, o, commandId, start).doc, o))
  {
    hide Halted, Advance, SaveProjection;
  }

  /** A start that comes again after it was carried out, at any later time and whatever calls came between,
      changes nothing but the order's read model, and nothing at all where there is one. */
  lemma RedeliveredStartChangesNothing(doc: Document, command: StartCommand, calls: seq<Call>, again: StartCommand)
    requires AllGood(doc) && History(doc, command.orderId) == [] && FromWire(command.amount).Ok?
    requires again.orderId == command.orderId && StartId(again) == StartId(command)
    ensures var o, d := command.orderId, Run(Apply(doc, StartCall(command)), calls);
            && Apply(d, StartCall(again)) == d.(readModels := d.readModels[o := CurrentState(d, o)])
            && (o in d.readModels ==> Apply(d, StartCall(again)) == d)
  {
    hide AllGood, FromWire, Stream, RunWorkflow, CurrentState, Run, History, StartedBy;
    var o, started := command.orderId, Apply(doc, StartCall(command));
    var d := Run(started, calls);
    StartStoresFirstEvent(doc, command);
    CallKeeps(doc, StartCall(command));
    RunExtends(started, calls, o);
    assert Stream(started, o)[0] == Stream(d, o)[0] && Stream(d, o)[0] in Stream(d, o);
    AppliedCommandOnlySaves(d, o, StartId(again), Some(again), 1);
    if o in d.readModels {
      ShownIsCurrent(d, o);
      assert d.readModels[o := d.readModels[o]] == d.readModels;
    }
  }

  // ---- Read models deleted and rebuilt --------------------------------------------------------------------

  /** Deleting takes the order's read model away and nothing else; rebuilding throws exactly for an order
      without events. */
  lemma DeletedIsGone(doc: Document, o: string)
    ensures var d := Apply(doc, DeleteProjection(o));
            && o !in d.readModels && d == doc.(readModels := d.readModels)
            && forall p | p != o :: Lookup(d.readModels, p) == Lookup(doc.readModels, p)
    ensures Perform(doc, RebuildProjection(o)) == None <==> Stream(doc, o) == []
  {
    hide Stream, CurrentState;
  }

  // ---- Reserving, releasing and authorizing -----------------------------------------------------------------

  /** The stock does not cover the line, a SKU that is not stocked counting as zero. */
  predicate Short(stock: map<string, int>, line: Line) {
    (if line.sku in stock then stock[line.sku] else 0) < line.quantity
  }

  /** The first of the lines that is not covered. */
  ghost predicate IsFirstShort(stock: map<string, int>, lines: seq<Line>, i: nat) {
    i < |lines| && Short(stock, lines[i]) && forall j | 0 <= j < i :: !Short(stock, lines[j])
  }

  lemma {:induction false} FirstShortIsFirst(stock: map<string, int>, lines: seq<Line>)
    ensures FirstShort(stock, lines) == None <==> forall j | 0 <= j < |lines| :: !Short(stock, lines[j])
    ensures forall i: nat | IsFirstShort(stock, lines, i) :: FirstShort(stock, lines) == Some(lines[i])
  {
    if lines != [] {
      var front := lines[..|lines| - 1];
      FirstShortIsFirst(stock, front);
      assert forall j | 0 <= j < |front| :: front[j] == lines[j];
      forall i: nat | IsFirstShort(stock, lines, i) ensures FirstShort(stock, lines) == Some(lines[i]) {
        if i < |front| {
          assert IsFirstShort(stock, front, i);
        }
      }
    }
  }

  /** A first reservation that finds a line short takes nothing and names the first such line; otherwise
      it takes every line, and throws exactly when a line's SKU is not stocked. */
  lemma FirstReservation(doc: Document, o: string, id: string, lines: seq<Line>)
    requires id !in doc.reservations
    ensures forall i: nat | IsFirstShort(doc.stock, lines, i) ::
              var reason := "inventory unavailable for " + lines[i].sku;
              Reserve(doc, o, id, lines)
              == Some(Reply(doc.(reservations := doc.reservations[id := Reservation(o, false, reason, lines)]), false,
                            reason))
    ensures (forall j | 0 <= j < |lines| :: !Short(doc.stock, lines[j])) ==>
              var r := Reserve(doc, o, id, lines);
              && (r == None <==> exists l | l in lines :: l.sku !in doc.stock)
              && (r.Some? ==>
                    && r.value.accepted && r.value.reason == "" && r.value.doc.stock.Keys == doc.stock.Keys
                    && r.value.doc == doc.(stock := r.value.doc.stock,
                                           reservations := doc.reservations[id := Reservation(o, true, "", lines)])
                    && forall sku | sku in doc.stock ::
                         r.value.doc.stock[sku] == doc.stock[sku] - QuantityIn(lines, sku))
  {
    hide Take, FirstShort, Short;
    FirstShortIsFirst(doc.stock, lines);
    TakeFailsExactly(doc.stock, lines);
    if Take(doc.stock, lines).Some? {
      TakeChanges(doc.stock, lines);
    }
  }

  /** A reservation answers a repeat, whatever the repeat asks for, with its first result and changes nothing. */
  lemma ReserveAgain(doc: Document, o: string, id: string, lines: seq<Line>, p: string, other: seq<Line>)
    requires Reserve(doc, o, id, lines).Some?
    ensures Reserve(Reserve(doc, o, id, lines).value.doc, p, id, other) == Reserve(doc, o, id, lines)
  {
    hide Take, FirstShort, ShortReason;
  }

  /** So does an authorization of an amount that from_wire accepts. */
  lemma AuthorizeAgain(doc: Document, o: string, id: string, methodId: string, amount: Double, currency: string,
                       p: string, otherMethod: string, otherAmount: Double, otherCurrency: string)
    requires Authorize(doc, o, id, methodId, amount, currency).Some? && FromWire(otherAmount).Ok?
    ensures Authorize(Authorize(doc, o, id, methodId, amount, currency).value.doc, p, id, otherMethod, otherAmount,
                      otherCurrency)
         == Authorize(doc, o, id, methodId, amount, currency)
  {
    hide FromWire, Read, Written, MethodOf;
  }

  /** A second release changes nothing, nor does one of a reservation that was never made. */
  lemma ReleaseAgain(doc: Document, id: string, reason: string, other: string)
    ensures id !in doc.reservations ==> Release(doc, id, reason) == Some(doc)
    ensures Release(doc, id, reason).Some? ==>
              Release(Release(doc, id, reason).value, id, other) == Release(doc, id, reason)
  {
    hide Give;
  }

  /** A release gives the recorded lines back and throws exactly when one of them names a SKU that is not
      stocked. */
  lemma FirstRelease(doc: Document, id: string, reason: string)
    requires id in doc.reservations && id !in doc.released
    ensures var d, lines := Release(doc, id, reason), doc.reservations[id].lines;
            && (d == None <==> exists l | l in lines :: l.sku !in doc.stock)
            && (d.Some? ==>
                  && d.value == doc.(stock := d.value.stock, released := doc.released[id := reason])
                  && d.value.stock.Keys == doc.stock.Keys
                  && forall sku | sku in doc.stock :: d.value.stock[sku] == doc.stock[sku] + QuantityIn(lines, sku))
  {
    hide Give;
    GiveFailsExactly(doc.stock, doc.reservations[id].lines);
    if forall l | l in doc.reservations[id].lines :: l.sku in doc.stock {
      GiveChanges(doc.stock, doc.reservations[id].lines);
    }
  }

  lemma {:induction false} GiveFailsExactly(stock: map<string, int>, lines: seq<Line>)
    ensures Give(stock, lines) == None <==> exists l | l in lines :: l.sku !in stock
    ensures Give(stock, lines).Some? ==> Give(stock, lines).value.Keys == stock.Keys
  {
    if lines != [] {
      var front, last := lines[..|lines| - 1], lines[|lines| - 1];
      GiveFailsExactly(stock, front);
      assert lines == front + [last];
      assert last in lines && forall l | l in front :: l in lines;
    }
  }

  /** What a payment method answers: nothing when it pays, and why not otherwise; an unknown one refuses. */
  function Refusal(methods: map<string, PaymentMethod>, id: string): Option<string> {
    if id !in methods then Some("unknown payment method")
    else if methods[id].shouldAuthorize then None
    else Some(methods[id].failureReason)
  }

  /** A first authorization of a readable amount records what the method answers, and a refusal as a failed
      attempt of the order as well; it throws exactly for an amount from_wire refuses. */
  lemma FirstAuthorization(doc: Document, o: string, id: string, methodId: string, amount: Double, currency: string)
    requires id !in doc.payments
    ensures var refusal := Refusal(doc.paymentMethods, methodId);
            var reason := if refusal.Some? then refusal.value else "";
            var payments := doc.payments[id := Payment(o, refusal.None?, reason, amount, currency)];
            Authorize(doc, o, id, methodId, amount, currency)
            == if FromWire(amount).Err? then None
               else if refusal.None? then Some(Reply(doc.(payments := payments), true, ""))
               else Some(Reply(doc.(payments := payments, paymentAttempts := doc.paymentAttempts[o := reason]), false,
                               reason))
  {
    hide FromWire, Read, Written;
    if FromWire(amount).Ok? {
      AmountKept(amount);
    }
  }

  // ---- How a new order ends ---------------------------------------------------------------------------------

  /** The events of a new order that was continued to its end. */
  ghost function EndOf(start: Body, short: Option<string>, refusal: Option<string>, o: string): seq<Body> {
    var reservation := "reservation-" + o;
    if short.Some? then [start, InventoryReservationFailed(short.value), OrderFailed(short.value)]
    else if refusal.None? then
      [start, InventoryReserved(reservation), PaymentAuthorized("payment-" + o), OrderConfirmed]
    else [start, InventoryReserved(reservation), PaymentFailed(refusal.value),
          InventoryReleased(reservation, refusal.value), OrderFailed(refusal.value)]
  }

  /** Why the stock refuses these lines: the first of them that is short. */
  ghost function Shortage(stock: map<string, int>, lines: seq<Line>): Option<string> {
    var short := FirstShort(stock, lines);
    if short.None? then None else Some("inventory unavailable for " + short.value.sku)
  }

  lemma RefusalIs(methods: map<string, PaymentMethod>, id: string)
    ensures MethodOf(methods, id).shouldAuthorize <==> Refusal(methods, id).None?
    ensures Refusal(methods, id).Some? ==> MethodOf(methods, id).failureReason == Refusal(methods, id).value
  {
  }

  lemma StepMoves(c: Core, methods: map<string, PaymentMethod>, o: string, n: nat, next: Core)
    requires n > 0 && c.history != [] && !Terminal(StatusOf(c.history))
    requires NextStock(c.history, c.stock) == Some(next.stock)
    requires next.history == c.history + [NextBody(c.history, c.stock, methods, o)]
    ensures Evolve(c, methods, o, n) == Evolve(next, methods, o, n - 1)
  {
    hide NextBody, NextStock, StatusOf, Terminal;
    StepOnce(c, methods, o, n);
  }

  /** A newly started order that does not throw ends with these events. */
  lemma EndsWithEvents(c: Core, methods: map<string, PaymentMethod>, o: string, n: nat)
    requires |c.history| == 1 && c.history[0].OrderStarted? && n >= 4 && NextStock(c.history, c.stock).Some?
    ensures Evolve(c, methods, o, n).history
         == EndOf(c.history[0], Shortage(c.stock, c.history[0].lines), Refusal(methods, c.history[0].paymentMethodId),
                  o)
  {
    hide Evolve, Take, FirstShort, Give, MethodOf, Refusal;
    var start, lines := c.history[0], c.history[0].lines;
    assert c.history == [start] && Lines(c.history) == lines;
    var short := Shortage(c.stock, lines);
    if short.Some? {
      var c1 := Core([start, InventoryReservationFailed(short.value)], c.stock);
      var c2 := Core(c1.history + [OrderFailed(short.value)], c.stock);
      StepMoves(c, methods, o, n, c1);
      StepMoves(c1, methods, o, n - 1, c2);
      RestsAfter(c2, methods, o, n - 2);
    } else {
      var c1 := Core([start, InventoryReserved("reservation-" + o)], NextStock(c.history, c.stock).value);
      StepMoves(c, methods, o, n, c1);
      GiveUndoesTake(c.stock, lines);
      EndsReserved(c1, methods, o, n - 1);
    }
  }

  lemma EndsPaid(c: Core, methods: map<string, PaymentMethod>, o: string, n: nat)
    requires |c.history| == 2 && c.history[0].OrderStarted? && c.history[1].InventoryReserved? && n >= 3
    requires MethodIn(c.history, methods).shouldAuthorize
    ensures Evolve(c, methods, o, n).history == c.history + [PaymentAuthorized("payment-" + o), OrderConfirmed]
  {
    hide Evolve, Give, MethodOf, MethodIn;
    var c1 := Core(c.history + [PaymentAuthorized("payment-" + o)], c.stock);
    var c2 := Core(c1.history + [OrderConfirmed], c.stock);
    StepMoves(c, methods, o, n, c1);
    StepMoves(c1, methods, o, n - 1, c2);
    RestsAfter(c2, methods, o, n - 2);
  }

  lemma EndsRefused(c: Core, methods: map<string, PaymentMethod>, o: string, n: nat)
    requires |c.history| == 2 && c.history[0].OrderStarted? && c.history[1].InventoryReserved? && n >= 3
    requires !MethodIn(c.history, methods).shouldAuthorize && Give(c.stock, c.history[0].lines).Some?
    ensures var reason := MethodIn(c.history, methods).failureReason;
            Evolve(c, methods, o, n).history
            == c.history + [PaymentFailed(reason), InventoryReleased("reservation-" + o, reason), OrderFailed(reason)]
  {
    hide Evolve, Give, MethodOf, MethodIn;
    var reason := MethodIn(c.history, methods).failureReason;
    var c1 := Core(c.history + [PaymentFailed(reason)], c.stock);
    assert Lines(c1.history) == c.history[0].lines;
    var given := Give(c.stock, c.history[0].lines).value;
    var c2 := Core(c1.history + [InventoryReleased("reservation-" + o, reason)], given);
    var c3 := Core(c2.history + [OrderFailed(reason)], c2.stock);
    StepMoves(c, methods, o, n, c1);
    StepMoves(c1, methods, o, n - 1, c2);
    StepMoves(c2, methods, o, n - 2, c3);
    RestsAfter(c3, methods, o, n - 3);
  }

  lemma EndsReserved(c: Core, methods: map<string, PaymentMethod>, o: string, n: nat)
    requires |c.history| == 2 && c.history[0].OrderStarted? && c.history[1] == InventoryReserved("reservation-" + o)
    requires n >= 3 && Give(c.stock, c.history[0].lines).Some?
    ensures Evolve(c, methods, o, n).history
         == EndOf(c.history[0], None, Refusal(methods, c.history[0].paymentMethodId), o)
  {
    hide Evolve, Give, MethodOf, Refusal;
    RefusalIs(methods, c.history[0].paymentMethodId);
    assert MethodIn(c.history, methods) == MethodOf(methods, c.history[0].paymentMethodId);
    hide MethodIn;
    if MethodIn(c.history, methods).shouldAuthorize {
      EndsPaid(c, methods, o, n);
    } else {
      EndsRefused(c, methods, o, n);
    }
  }

  /** The state shown at the end. */
  ghost function EndState(start: Body, short: Option<string>, refusal: Option<string>, o: string): OrderState
    requires start.OrderStarted?
  {
    var reserved := if short.None? then "reservation-" + o else "";
    if short.None? && refusal.None? then
      OrderState(o, Confirmed, start.shippingAddressId, reserved, "payment-" + o, "", start.amount, start.currency)
    else
      OrderState(o, Failed, start.shippingAddressId, reserved, "", if short.Some? then short.value else refusal.value,
                 start.amount, start.currency)
  }

  lemma ShortShows(state: OrderState, start: Body, reason: string, o: string)
    requires start.OrderStarted? && Shows(state, [start, InventoryReservationFailed(reason), OrderFailed(reason)], o)
    ensures state == OrderState(o, Failed, start.shippingAddressId, "", "", reason, start.amount, start.currency)
  {
    var b := [start, InventoryReservationFailed(reason), OrderFailed(reason)];
    assert forall e | e in b :: e == b[0] || e == b[1] || e == b[2];
    assert b[1] in b && Fails(b[1], reason);
  }

  lemma ConfirmedShows(state: OrderState, start: Body, r: Body, p: Body, o: string)
    requires start.OrderStarted? && r.InventoryReserved? && p.PaymentAuthorized?
    requires Shows(state, [start, r, p, OrderConfirmed], o)
    ensures state == OrderState(o, Confirmed, start.shippingAddressId, "reservation-" + o, "payment-" + o, "",
                                start.amount, start.currency)
  {
    var b := [start, r, p, OrderConfirmed];
    assert forall e | e in b :: e == b[0] || e == b[1] || e == b[2] || e == b[3];
    assert b[1] in b && b[2] in b;
  }

  lemma RefusedShows(state: OrderState, start: Body, r: Body, reason: string, l: Body, o: string)
    requires start.OrderStarted? && r.InventoryReserved? && l.InventoryReleased?
    requires Shows(state, [start, r, PaymentFailed(reason), l, OrderFailed(reason)], o)
    ensures state == OrderState(o, Failed, start.shippingAddressId, "reservation-" + o, "", reason,
                                start.amount, start.currency)
  {
    var b := [start, r, PaymentFailed(reason), l, OrderFailed(reason)];
    assert forall e | e in b :: e == b[0] || e == b[1] || e == b[2] || e == b[3] || e == b[4];
    assert b[1] in b && b[2] in b && Fails(b[2], reason);
  }

  lemma EndShows(state: OrderState, start: Body, short: Option<string>, refusal: Option<string>, o: string)
    requires start.OrderStarted? && Shows(state, EndOf(start, short, refusal, o), o)
    ensures state == EndState(start, short, refusal, o)
  {
    hide Shows;
    var reservation := "reservation-" + o;
    if short.Some? {
      ShortShows(state, start, short.value, o);
    } else if refusal.None? {
      ConfirmedShows(state, start, InventoryReserved(reservation), PaymentAuthorized("payment-" + o), o);
    } else {
      RefusedShows(state, start, InventoryReserved(reservation), refusal.value,
                   InventoryReleased(reservation, refusal.value), o);
    }
  }

  /** A new order, started and continued without a hook, that does not throw: it is confirmed when every line
      is covered alone and its payment method pays; it fails naming the first short line, having reserved
      nothing; or it fails for the reason its payment method gives, its reservation released. */
  lemma NewOrderEnds(doc: Document, command: StartCommand)
    requires AllGood(doc) && History(doc, command.orderId) == [] && command.orderId !in doc.stopAt
    requires FromWire(command.amount).Ok?
    requires (exists j | 0 <= j < |command.lines| :: Short(doc.stock, command.lines[j]))
             || forall l | l in command.lines :: l.sku in doc.stock
    ensures var o, end := command.orderId, StartedAndContinued(doc, command);
            var refusal := Refusal(doc.paymentMethods, command.paymentMethodId);
            && o in end.readModels
            && (forall i: nat | IsFirstShort(doc.stock, command.lines, i) ::
                  end.readModels[o] == EndState(StartedBy(command),
                                                Some("inventory unavailable for " + command.lines[i].sku), refusal, o))
            && ((forall j | 0 <= j < |command.lines| :: !Short(doc.stock, command.lines[j])) ==>
                  end.readModels[o] == EndState(StartedBy(command), None, refusal, o))
  {
    hide AllGood, FromWire, History, CurrentState, Take, FirstShort, StatusOf, Sound, Shown, RunWorkflow, Refusal,
      CommandAlreadyApplied, Evolve, EndState, EndOf, Shows, Short, FreshId, Run;
    var o := command.orderId;
    TwoCalls(doc, StartCall(command), ScheduledCall(o));
    FirstStartAnswersCreated(doc, command);
    var started := Apply(doc, StartCall(command));
    CallKeeps(doc, StartCall(command));
    StartedCore(started, o, command);
    FirstShortIsFirst(doc.stock, command.lines);
    TakeFailsExactly(doc.stock, command.lines);
    ContinueEnds(started, o, command);
  }

  lemma ContinueEnds(doc: Document, o: string, command: StartCommand)
    requires AllGood(doc) && History(doc, o) == [StartedBy(command)] && o !in doc.stopAt
    requires NextStock(History(doc, o), doc.stock).Some?
    ensures var end := Apply(doc, ScheduledCall(o));
            && o in end.readModels
            && end.readModels[o] == EndState(StartedBy(command), Shortage(doc.stock, command.lines),
                                             Refusal(doc.paymentMethods, command.paymentMethodId), o)
  {
    hide AllGood, FromWire, History, CurrentState, Take, FirstShort, Sound, Shown, RunWorkflow, Refusal, NextStock,
      CommandAlreadyApplied, Evolve, EndState, EndOf, Shows, Shortage, Terminal, StatusOf;
    SoundIn(doc, o);
    var c := CoreOf(doc, o);
    var k := WorkEvolves(doc, o, "", None, MAX_STEPS);
    EmptyIdIsNew(doc, o);
    EndsWithEvents(c, doc.paymentMethods, o, MAX_STEPS);
    WorkShows(doc, o, "", None, MAX_STEPS);
    var end := Apply(doc, ScheduledCall(o));
    CallKeeps(doc, ScheduledCall(o));
    SoundIn(end, o);
    ShownIsCurrent(end, o);
    CurrentStateShows(end, o);
    EndShows(end.readModels[o], StartedBy(command), Shortage(doc.stock, command.lines),
             Refusal(doc.paymentMethods, command.paymentMethodId), o);
  }

  /** Every call of the workflow that goes through leaves a read model of its order. */
  lemma WorkShows(doc: Document, o: string, commandId: string, start: Option<StartCommand>, max: nat)
    ensures var ran := RunWorkflow(doc, o, commandId, start, max); ran.Some? ==> o in ran.value.readModels
  {
    hide RunSteps, CurrentState, CommandAlreadyApplied;
  }
}
