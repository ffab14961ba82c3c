// Every call keeps every order sound, so every document any interleaving of calls reaches is.
module OrderRuns {
  import opened Wrappers
  import opened DecimalWire
  import opened Orders
  import opened OrderLaws
  import opened OrderStock

  /** What a call on one order may do to the document. */
  ghost predicate Touched(doc: Document, d: Document, orderId: string) {
    && Sound(d, orderId) && SameElsewhere(doc, d, orderId) && Balanced(doc, d)
    && History(doc, orderId) <= History(d, orderId)
  }

  /** What one step does: an order starts, or takes the step its history and the stock name. */
  ghost predicate Moved(doc: Document, d: Document, orderId: string, start: Option<StartCommand>) {
    var b := History(doc, orderId);
    && Touched(doc, d, orderId) && d.readModels == doc.readModels
    && if b == [] then start.Some? && History(d, orderId) == [StartedBy(start.value)] && d.stock == doc.stock
       else !Terminal(StatusOf(b)) && NextStock(b, doc.stock) == Some(d.stock)
            && History(d, orderId) == b + [NextBody(b, doc.stock, doc.paymentMethods, orderId)]
  }

  lemma TouchedTwice(doc: Document, d: Document, e: Document, orderId: string)
    requires Touched(doc, d, orderId) && Touched(d, e, orderId)
    ensures Touched(doc, e, orderId)
  {
    hide Sound, ReservationId, PaymentId, HeldTotal, Stream, Lookup, History;
  }

  lemma TouchedNot(doc: Document, orderId: string)
    requires Sound(doc, orderId)
    ensures Touched(doc, doc, orderId)
  {
    hide Sound, ReservationId, PaymentId, HeldTotal, Stream, Lookup, History;
  }

  lemma StepIsSound(doc: Document, d: Document, orderId: string, commandId: string, body: Body)
    requires Sound(doc, orderId) && Steps(doc, d, orderId, commandId, body)
    requires Legal(History(doc, orderId) + [body], orderId)
    requires LinesStocked(History(doc, orderId) + [body], d.stock) && AmountReads(History(doc, orderId) + [body])
    ensures Sound(d, orderId) && History(d, orderId) == History(doc, orderId) + [body]
  {
    hide Legal, Recorded, SameElsewhere, Event, Numbered;
    NumberedNext(Stream(doc, orderId), orderId, commandId, body);
  }

  lemma LinesOfSound(doc: Document, orderId: string)
    requires Sound(doc, orderId)
    ensures LinesStocked(History(doc, orderId), doc.stock)
    ensures History(doc, orderId) != [] ==> forall body :: AmountReads(History(doc, orderId) + [body])
  {
    hide FromWire, Recorded, Numbered, ReservationId, PaymentId, History;
  }

  lemma StepBalances(doc: Document, d: Document, orderId: string, commandId: string, body: Body)
    requires Sound(doc, orderId) && Steps(doc, d, orderId, commandId, body)
    requires Legal(History(doc, orderId) + [body], orderId)
    requires d.stock.Keys == doc.stock.Keys
    requires forall sku | sku in doc.stock ::
               d.stock[sku] + HeldBy(History(doc, orderId) + [body], sku)
                   == doc.stock[sku] + HeldBy(History(doc, orderId), sku)
    ensures Balanced(doc, d)
  {
    hide Legal, Recorded, Event, Numbered, HeldBy, HeldTotal, HeldIn, ReservationId, PaymentId, LinesStocked, History;
    var b := History(doc, orderId);
    forall sku | sku in doc.stock
      ensures d.stock[sku] + HeldTotal(d, sku) == doc.stock[sku] + HeldTotal(doc, sku)
    {
      HeldMoves(doc, d, ReservationId(orderId), sku);
      RecordedHolds(doc, orderId, b, sku);
      RecordedHolds(d, orderId, b + [body], sku);
    }
  }

  /** A step of a started order. */
  lemma MoveKeeps(doc: Document, d: Document, orderId: string, commandId: string)
    requires Sound(doc, orderId) && Advances(doc, Moves(d), orderId, commandId)
    requires !Terminal(StatusOf(History(doc, orderId)))
    ensures Touched(doc, d, orderId)
    ensures History(d, orderId)
         == History(doc, orderId) + [NextBody(History(doc, orderId), doc.stock, doc.paymentMethods, orderId)]
    ensures NextStock(History(doc, orderId), doc.stock) == Some(d.stock) && d.readModels == doc.readModels
  {
    var b := History(doc, orderId);
    var body := NextBody(b, doc.stock, doc.paymentMethods, orderId);
    hide History, NextBody, NextStock, SameElsewhere, Recorded, Event, Balanced, HeldBy, LinesStocked, Legal, Terminal,
      StatusOf, Numbered, LinesStocked;
    LegalNext(b, doc.stock, doc.paymentMethods, orderId);
    LinesOfSound(doc, orderId);
    NextHolds(b, doc.stock, doc.paymentMethods, orderId);
    StepIsSound(doc, d, orderId, commandId, body);
    StepBalances(doc, d, orderId, commandId, body);
  }

  lemma StartIsLegal(command: StartCommand, orderId: string)
    requires FromWire(command.amount).Ok?
    ensures Legal([StartedBy(command)], orderId) && AmountReads([StartedBy(command)])
  {
    hide FromWire, ReservationId, PaymentId;
  }

  lemma StartKeeps(doc: Document, d: Document, orderId: string, commandId: string, command: StartCommand)
    requires Sound(doc, orderId) && History(doc, orderId) == [] && FromWire(command.amount).Ok?
    requires Steps(doc, d, orderId, commandId, StartedBy(command)) && d.stock == doc.stock
    ensures Touched(doc, d, orderId) && History(d, orderId) == [StartedBy(command)]
  {
    var body := StartedBy(command);
    assert [] + [body] == [body];
    StartIsLegal(command, orderId);
    hide History, FromWire, SameElsewhere, Recorded, Event, Numbered, LinesStocked, Legal, StartedBy, HeldTotal,
      Balanced, Lines;
    StepIsSound(doc, d, orderId, commandId, body);
    StepBalances(doc, d, orderId, commandId, body);
  }

  lemma AdvanceKeeps(doc: Document, orderId: string, commandId: string, start: Option<StartCommand>)
    requires Sound(doc, orderId)
    ensures var step := Advance(doc, orderId, commandId, start);
            step.Moves? ==> Moved(doc, step.doc, orderId, start)
    ensures var step, b := Advance(doc, orderId, commandId, start), History(doc, orderId);
            b != [] ==> (step.Stays? <==> Terminal(StatusOf(b)))
                        && (step.Throws? <==> !Terminal(StatusOf(b)) && NextStock(b, doc.stock) == None)
  {
    hide Sound, Advance, Steps, StartedBy, FromWire, History, Terminal, StatusOf, NextStock, NextBody, Touched;
    if History(doc, orderId) == [] {
      StartAdvances(doc, orderId, commandId, start);
      var step := Advance(doc, orderId, commandId, start);
      if step.Moves? {
        StartKeeps(doc, step.doc, orderId, commandId, start.value);
      }
    } else {
      AdvanceAdvances(doc, orderId, commandId, start);
      var step := Advance(doc, orderId, commandId, start);
      if step.Moves? {
        MoveKeeps(doc, step.doc, orderId, commandId);
      }
    }
  }

  lemma SoundToo(doc: Document, d: Document, orderId: string)
    requires Sound(doc, orderId) && d == doc.(readModels := d.readModels)
    ensures Sound(d, orderId) && History(d, orderId) == History(doc, orderId)
  {
    hide Numbered, Legal, AmountReads, Recorded, LinesStocked, Bodies;
    assert Stream(d, orderId) == Stream(doc, orderId);
    SameRecords(doc, d, orderId, History(doc, orderId));
  }

  lemma SavingElsewhere(doc: Document, orderId: string)
    ensures SameElsewhere(doc, SaveProjection(doc, orderId), orderId)
  {
    hide CurrentState, ReservationId, PaymentId;
  }

  lemma SavingShows(doc: Document, orderId: string)
    ensures var d := SaveProjection(doc, orderId);
            d == doc.(readModels := d.readModels) && orderId in d.readModels && Shown(d, orderId)
  {
    hide Fold, ProjectionOf;
    assert Stream(SaveProjection(doc, orderId), orderId) == Stream(doc, orderId);
  }

  lemma SavingKeeps(doc: Document, orderId: string)
    requires Sound(doc, orderId)
    ensures Touched(doc, SaveProjection(doc, orderId), orderId) && Shown(SaveProjection(doc, orderId), orderId)
  {
    hide Sound, SaveProjection, Shown, SameElsewhere, Balanced, History;
    var d := SaveProjection(doc, orderId);
    SavingShows(doc, orderId);
    SoundToo(doc, d, orderId);
    SavingElsewhere(doc, orderId);
    SameHeld(doc, d);
  }

  lemma {:induction false} RunStepsKeeps(doc: Document, orderId: string, commandId: string,
                                         start: Option<StartCommand>, max: nat)
    requires Sound(doc, orderId)
    ensures var ran := RunSteps(doc, orderId, commandId, start, max);
            ran.Some? ==> Touched(doc, ran.value, orderId)
    decreases max
  {
    hide Sound, SameElsewhere, Balanced, Advance, Halted, SaveProjection, Shown, History;
    TouchedNot(doc, orderId);
    if max > 0 {
      AdvanceKeeps(doc, orderId, commandId, start);
      var step := Advance(doc, orderId, commandId, start);
      if step.Moves? {
        var next := SaveProjection(step.doc, orderId);
        SavingKeeps(step.doc, orderId);
        TouchedTwice(doc, step.doc, next, orderId);
        RunStepsKeeps(next, orderId, commandId, start, max - 1);
        var ran := RunSteps(next, orderId, commandId, start, max - 1);
        if ran.Some? {
          TouchedTwice(doc, next, ran.value, orderId);
        }
      }
    }
  }

  lemma WorkKeeps(doc: Document, orderId: string, commandId: string, start: Option<StartCommand>, max: nat)
    requires Sound(doc, orderId)
    ensures var ran := RunWorkflow(doc, orderId, commandId, start, max);
            ran.Some? ==> Touched(doc, ran.value, orderId) && Shown(ran.value, orderId)
  {
    hide Sound, SameElsewhere, Balanced, RunSteps, SaveProjection, Shown, CommandAlreadyApplied, Advance;
    SavingKeeps(doc, orderId);
    RunStepsKeeps(doc, orderId, commandId, start, max);
    var ran := RunSteps(doc, orderId, commandId, start, max);
    if ran.Some? {
      SavingKeeps(ran.value, orderId);
      TouchedTwice(doc, ran.value, SaveProjection(ran.value, orderId), orderId);
    }
  }

  // ---- All orders -----------------------------------------------------------------------------------------

  ghost predicate Good(doc: Document, orderId: string) {
    Sound(doc, orderId) && Shown(doc, orderId)
  }

  ghost predicate AllGood(doc: Document) {
    forall o :: Good(doc, o)
  }

  /** A call on one order leaves the others as they were. */
  lemma OthersStayGood(doc: Document, d: Document, orderId: string, other: string)
    requires SameElsewhere(doc, d, orderId) && d.stock.Keys == doc.stock.Keys && other != orderId && Good(doc, other)
    ensures Good(d, other)
  {
    hide Numbered, Legal, ReservationId, PaymentId, ProjectionOf, Fold, ReservationFor, PaymentFor, AttemptFor,
      ReleaseFor, Bodies;
    IdsInjective(orderId, other);
    assert Stream(d, other) == Stream(doc, other);
    assert Lookup(d.readModels, other) == Lookup(doc.readModels, other);
    assert Lookup(d.reservations, ReservationId(other)) == Lookup(doc.reservations, ReservationId(other));
    assert Lookup(d.released, ReservationId(other)) == Lookup(doc.released, ReservationId(other));
  }

  lemma TouchedStaysGood(doc: Document, d: Document, orderId: string)
    requires AllGood(doc) && Touched(doc, d, orderId) && Shown(d, orderId)
    ensures AllGood(d)
  {
    hide Sound, SameElsewhere, Shown, HeldTotal;
    forall o ensures Good(d, o) {
      if o != orderId {
        OthersStayGood(doc, d, orderId, o);
      }
    }
  }

  /** Calls that change neither events nor records. */
  lemma SettingKeeps(doc: Document, d: Document, orderId: string)
    requires Good(doc, orderId) && d == doc.(readModels := d.readModels, stopAt := d.stopAt)
    requires orderId in d.readModels ==> orderId in doc.readModels && d.readModels[orderId] == doc.readModels[orderId]
    ensures Good(d, orderId)
  {
    hide Numbered, Legal, ReservationId, PaymentId, ProjectionOf, Fold, ReservationFor, PaymentFor, AttemptFor,
      ReleaseFor, Bodies;
    assert Stream(d, orderId) == Stream(doc, orderId);
  }

  lemma CallKeeps(doc: Document, call: Call)
    requires AllGood(doc)
    ensures AllGood(Apply(doc, call)) && Balanced(doc, Apply(doc, call))
  {
    hide Good, SameElsewhere, Shown, HeldTotal, RunWorkflow, Sound, CurrentState, Stream;
    var d := Apply(doc, call);
    SoundIn(doc, call.orderId);
    match call
    case Work(o, commandId, start, max) =>
      WorkKeeps(doc, o, commandId, start, max);
      if RunWorkflow(doc, o, commandId, start, max).Some? {
        TouchedStaysGood(doc, d, o);
      }
    case RebuildProjection(o) =>
      SavingKeeps(doc, o);
      if Rebuild(doc, o).Some? {
        TouchedStaysGood(doc, d, o);
      }
    case _ =>
      SameHeld(doc, d);
      forall o ensures Good(d, o) {
        assert Good(doc, o);
        SettingKeeps(doc, d, o);
      }
  }

  lemma SoundIn(doc: Document, orderId: string)
    requires AllGood(doc)
    ensures Sound(doc, orderId) && Shown(doc, orderId)
  {
    assert Good(doc, orderId);
  }

  lemma LegalIn(doc: Document, orderId: string)
    requires Sound(doc, orderId)
    ensures Legal(History(doc, orderId), orderId)
  {
    hide Legal, Numbered, Recorded, LinesStocked;
  }

  lemma SameHeld(doc: Document, d: Document)
    requires d == doc.(readModels := d.readModels, stopAt := d.stopAt)
    ensures Balanced(doc, d)
  {
    hide Held;
  }

  // ---- Every reachable document ---------------------------------------------------------------------------

  lemma SeededIsGood(stock: map<string, int>, methods: map<string, PaymentMethod>)
    ensures AllGood(Seeded(stock, methods))
    ensures forall sku :: HeldTotal(Seeded(stock, methods), sku) == 0
  {
    hide ReservationId, PaymentId, FromWire, Fold, ProjectionOf;
  }

  lemma {:induction false} ReachableIsGood(stock: map<string, int>, methods: map<string, PaymentMethod>,
                                           calls: seq<Call>)
    ensures var doc := Run(Seeded(stock, methods), calls);
            AllGood(doc) && Balanced(Seeded(stock, methods), doc)
  {
    hide Good, HeldTotal, Apply, Seeded;
    if calls == [] {
      SeededIsGood(stock, methods);
    } else {
      var front := calls[..|calls| - 1];
      ReachableIsGood(stock, methods, front);
      CallKeeps(Run(Seeded(stock, methods), front), calls[|calls| - 1]);
    }
  }

  /** Whatever calls are made for whatever orders, what is available of a SKU and what accepted and
      unreleased reservations hold of it add up to the initial stock. */
  lemma StockIsConserved(stock: map<string, int>, methods: map<string, PaymentMethod>, calls: seq<Call>, sku: string)
    requires sku in stock
    ensures var doc := Run(Seeded(stock, methods), calls);
            sku in doc.stock && doc.stock[sku] + HeldTotal(doc, sku) == stock[sku]
  {
    ReachableIsGood(stock, methods, calls);
    SeededIsGood(stock, methods);
    hide AllGood, HeldTotal, Run;
  }

  function Kinds(b: seq<Body>): (kinds: seq<Status>)
    ensures |kinds| == |b|
  {
    seq(|b|, i requires 0 <= i < |b| => StatusAfter(b[i]))
  }

  /** The three ways an order can go. */
  const PAID := [Created, Reserved, Authorized, Confirmed]
  const NOT_PAID := [Created, Reserved, PayFailed, Released, Failed]
  const NOT_RESERVED := [Created, ReserveFailed, Failed]

  lemma LegalIsOneOfThree(b: seq<Body>, orderId: string)
    requires Legal(b, orderId)
    ensures Kinds(b) <= PAID || Kinds(b) <= NOT_PAID || Kinds(b) <= NOT_RESERVED
  {
    hide ReservationId, PaymentId, FromWire;
  }

  ghost predicate Has(b: seq<Body>, status: Status) {
    exists i | 0 <= i < |b| :: StatusAfter(b[i]) == status
  }

  /** In every reachable document every stream is a beginning of one of the three, numbered 1..n, and
      an order has a reservation, payment or release exactly when it has the event that reports it. */
  lemma OrdersFollowTheSaga(stock: map<string, int>, methods: map<string, PaymentMethod>, calls: seq<Call>, o: string)
    ensures var doc := Run(Seeded(stock, methods), calls);
            var b := History(doc, o);
            && (Kinds(b) <= PAID || Kinds(b) <= NOT_PAID || Kinds(b) <= NOT_RESERVED)
            && (forall i | 0 <= i < |Stream(doc, o)| :: Stream(doc, o)[i].version == i + 1)
            && (ReservationId(o) in doc.reservations <==> Has(b, Reserved) || Has(b, ReserveFailed))
            && (ReservationId(o) in doc.reservations ==>
                     (doc.reservations[ReservationId(o)].accepted <==> Has(b, Reserved)))
            && (PaymentId(o) in doc.payments <==> Has(b, Authorized) || Has(b, PayFailed))
            && (PaymentId(o) in doc.payments ==> (doc.payments[PaymentId(o)].accepted <==> Has(b, Authorized)))
            && (ReservationId(o) in doc.released <==> Has(b, Released))
            && (o in doc.readModels ==> doc.readModels[o] == CurrentState(doc, o))
  {
    ReachableIsGood(stock, methods, calls);
    var doc := Run(Seeded(stock, methods), calls);
    assert Good(doc, o);
    hide Run, Seeded, AllGood, ReservationId, PaymentId, CurrentState, Stream;
    LegalIsOneOfThree(History(doc, o), o);
    RecordsReport(doc, o, History(doc, o));
  }

  lemma RecordsReport(doc: Document, o: string, b: seq<Body>)
    requires Recorded(doc, o, b) && Legal(b, o)
    ensures ReservationId(o) in doc.reservations <==> Has(b, Reserved) || Has(b, ReserveFailed)
    ensures ReservationId(o) in doc.reservations ==> (doc.reservations[ReservationId(o)].accepted <==> Has(b, Reserved))
    ensures PaymentId(o) in doc.payments <==> Has(b, Authorized) || Has(b, PayFailed)
    ensures PaymentId(o) in doc.payments ==> (doc.payments[PaymentId(o)].accepted <==> Has(b, Authorized))
    ensures ReservationId(o) in doc.released <==> Has(b, Released)
  {
    hide ReservationId, PaymentId, FromWire;
    assert |b| >= 2 ==> StatusAfter(b[1]) == if b[1].InventoryReserved? then Reserved else ReserveFailed;
    assert |b| >= 3 ==> StatusAfter(b[2]) == if b[2].PaymentAuthorized? then Authorized
                                             else if b[2].PaymentFailed? then PayFailed else Failed;
    assert |b| >= 4 ==> StatusAfter(b[3]) == if b[2].PaymentFailed? then Released else Confirmed;
  }

  /** From a reachable document no step finds its effect already there, and no append finds another
      version: the branches for repeats and conflicts are dead. */
  lemma NothingIsRepeated(doc: Document, o: string)
    requires AllGood(doc)
    ensures var a := Fold(Stream(doc, o), o);
            && a.version == |Stream(doc, o)|
            && (a.status == Created ==> ReservationId(o) !in doc.reservations)
            && (a.status == Reserved ==> PaymentId(o) !in doc.payments && FromWire(Written(a.amount)).Ok?)
            && (a.status == PayFailed ==>
                a.reservationId in doc.reservations && doc.reservations[a.reservationId].accepted
                && a.reservationId !in doc.released && Give(doc.stock, doc.reservations[a.reservationId].lines).Some?)
  {
    assert Good(doc, o);
    hide AllGood, ReservationId, PaymentId, FromWire, Written, Give, Legal, Numbered, Bodies, Read, Shown, LinesStocked;
    var a := Fold(Stream(doc, o), o);
    if History(doc, o) != [] {
      FoldFinds(doc, o);
      LinesOfSound(doc, o);
      match a.status
      case Created => AtCreated(doc, a);
      case Reserved => AtReserved(doc, a);
      case PayFailed =>
        AtPayFailed(doc, a);
        GiveChanges(doc.stock, a.lines);
      case _ =>
    }
  }

  /** A deleted projection comes back exactly as it was. */
  lemma RebuildRestores(doc: Document, o: string)
    requires AllGood(doc) && o in doc.readModels && Stream(doc, o) != []
    ensures Apply(Apply(doc, DeleteProjection(o)), RebuildProjection(o)) == doc
  {
    hide AllGood, CurrentState, Stream, RunWorkflow;
    ShownIsCurrent(doc, o);
    var deleted := doc.(readModels := doc.readModels - {o});
    SameStream(doc, deleted, o);
    assert Apply(doc, DeleteProjection(o)) == deleted;
    assert deleted.readModels[o := CurrentState(doc, o)] == doc.readModels;
  }

  lemma ShownIsCurrent(doc: Document, o: string)
    requires AllGood(doc) && o in doc.readModels
    ensures doc.readModels[o] == CurrentState(doc, o)
  {
    assert Good(doc, o);
    hide Sound, CurrentState;
  }

  lemma SameStream(doc: Document, d: Document, o: string)
    requires d.events == doc.events
    ensures Stream(d, o) == Stream(doc, o) && CurrentState(d, o) == CurrentState(doc, o)
  {
    hide Fold, ProjectionOf;
  }
}
