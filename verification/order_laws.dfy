// What holds of every order in every document the workflow can reach, and the step each order takes.
module OrderLaws {
  import opened Wrappers
  import opened Numerals
  import opened Binary64
  import opened DecimalWire
  import opened Orders

  // ---- Legal histories -----------------------------------------------------------------------------

  function Bodies(stream: seq<StoredEvent>): (b: seq<Body>)
    ensures |b| == |stream|
  {
    seq(|stream|, i requires 0 <= i < |stream| => stream[i].body)
  }

  /** The events of an order without their ids, versions and command ids. */
  function History(doc: Document, orderId: string): seq<Body> {
    Bodies(Stream(doc, orderId))
  }

  function StatusAfter(body: Body): Status {
    match body
    case OrderStarted(_, _, _, _, _, _) => Created
    case InventoryReserved(_) => Reserved
    case InventoryReservationFailed(_) => ReserveFailed
    case PaymentAuthorized(_) => Authorized
    case PaymentFailed(_) => PayFailed
    case InventoryReleased(_, _) => Released
    case OrderConfirmed => Confirmed
    case OrderFailed(_) => Failed
  }

  function StatusOf(b: seq<Body>): Status {
    if b == [] then Absent else StatusAfter(b[|b| - 1])
  }

  /** Started; reserved or not; then paid and confirmed, or not paid, released and failed. */
  ghost predicate Legal(b: seq<Body>, orderId: string) {
    && |b| <= 5
    && (|b| >= 1 ==> b[0].OrderStarted?)
    && (|b| >= 2 ==> b[1] == InventoryReserved(ReservationId(orderId)) || b[1].InventoryReservationFailed?)
    && (|b| >= 3 ==>
             if b[1].InventoryReserved? then b[2] == PaymentAuthorized(PaymentId(orderId)) || b[2].PaymentFailed?
                     else b[2] == OrderFailed(b[1].reason))
    && (|b| >= 4 ==> b[1].InventoryReserved?
                     && b[3] == if b[2].PaymentAuthorized? then OrderConfirmed
                                else InventoryReleased(ReservationId(orderId), b[2].reason))
    && (|b| >= 5 ==> b[2].PaymentFailed? && b[4] == OrderFailed(b[2].reason))
  }

  /** The started amount is one from_wire accepts. */
  ghost predicate AmountReads(b: seq<Body>) {
    b != [] && b[0].OrderStarted? ==> FromWire(b[0].amount).Ok?
  }

  ghost predicate Numbered(stream: seq<StoredEvent>, orderId: string) {
    forall i | 0 <= i < |stream| ::
      stream[i].version == i + 1 && stream[i].orderId == orderId && stream[i].eventId == orderId + ":" + ToText(i + 1)
  }

  function Reason(b: seq<Body>): string {
    if |b| >= 2 && b[1].InventoryReservationFailed? then b[1].reason
    else if |b| >= 3 && b[2].PaymentFailed? then b[2].reason
    else ""
  }

  /** What a legal history folds to, read off its positions. */
  function Summary(b: seq<Body>, orderId: string): Aggregate
    requires b != [] && b[0].OrderStarted?
  {
    var start := b[0];
    Aggregate(orderId, StatusOf(b), start.cartId, start.shippingAddressId, start.paymentMethodId,
              if |b| >= 2 && b[1].InventoryReserved? then ReservationId(orderId) else "",
              if |b| >= 3 && b[2].PaymentAuthorized? then PaymentId(orderId) else "",
              Reason(b), start.lines, Read(start.amount), start.currency, |b|)
  }

  lemma SummaryStep(b: seq<Body>, event: StoredEvent, orderId: string)
    requires Legal(b + [event.body], orderId) && b != [] && event.version == |b| + 1
    ensures b[0].OrderStarted?
    ensures FoldStep(Summary(b, orderId), event) == Summary(b + [event.body], orderId)
  {
    hide Read, ReservationId, PaymentId, FromWire;
    var c := b + [event.body];
    assert c[0] == b[0];
    assert |b| >= 2 ==> c[1] == b[1];
    assert |b| >= 3 ==> c[2] == b[2];
    assert c[|b|] == event.body;
  }

  lemma SummaryStart(event: StoredEvent, orderId: string)
    requires event.body.OrderStarted? && event.version == 1
    ensures FoldStep(NoEvents(orderId), event) == Summary([event.body], orderId)
  {
    hide Read;
  }

  lemma LegalPrefix(b: seq<Body>, body: Body, orderId: string)
    requires Legal(b + [body], orderId)
    ensures Legal(b, orderId)
  {
    hide FromWire, ReservationId, PaymentId;
    assert forall i | 0 <= i < |b| :: (b + [body])[i] == b[i];
  }

  lemma OneMore(stream: seq<StoredEvent>, orderId: string)
    requires stream != []
    ensures var front, last := stream[..|stream| - 1], stream[|stream| - 1];
            && Bodies(stream) == Bodies(front) + [last.body]
            && Fold(stream, orderId) == FoldStep(Fold(front, orderId), last)
  {
    hide FoldStep;
  }

  lemma NumberedPrefix(stream: seq<StoredEvent>, orderId: string)
    requires stream != [] && Numbered(stream, orderId)
    ensures Numbered(stream[..|stream| - 1], orderId) && stream[|stream| - 1].version == |stream|
  {
  }

  lemma LegalStart(body: Body, orderId: string)
    requires Legal([body], orderId)
    ensures body.OrderStarted?
  {
  }

  lemma {:induction false} FoldIsSummary(stream: seq<StoredEvent>, orderId: string)
    requires Numbered(stream, orderId) && Legal(Bodies(stream), orderId) && stream != []
    ensures Bodies(stream)[0].OrderStarted?
    ensures Fold(stream, orderId) == Summary(Bodies(stream), orderId)
  {
    hide *;
    var front, last := stream[..|stream| - 1], stream[|stream| - 1];
    OneMore(stream, orderId);
    NumberedPrefix(stream, orderId);
    LegalPrefix(Bodies(front), last.body, orderId);
    if front == [] {
      assert Bodies(front) == [] && Bodies(front) + [last.body] == [last.body];
      LegalStart(last.body, orderId);
      SummaryStart(last, orderId);
      NothingFolded(orderId);
    } else {
      FoldIsSummary(front, orderId);
      SummaryStep(Bodies(front), last, orderId);
    }
  }

  lemma NothingFolded(orderId: string)
    ensures Fold([], orderId) == NoEvents(orderId)
  {
  }

  /** An amount that was read is written as the number it was read from. */
  lemma AmountKept(amount: Double)
    requires FromWire(amount).Ok?
    ensures Written(Read(amount)) == amount
  {
    hide FromWire, ToWire;
    ToWireUndoesFromWire(amount);
  }

  // ---- Records ---------------------------------------------------------------------------------------

  function Lookup<K, V>(m: map<K, V>, k: K): Option<V> {
    if k in m then Some(m[k]) else None
  }

  function ReservationFor(b: seq<Body>, orderId: string): Option<Reservation> {
    if |b| >= 2 && b[0].OrderStarted? then Some(Reservation(orderId, b[1].InventoryReserved?,
      if b[1].InventoryReservationFailed? then b[1].reason else "", b[0].lines))
    else None
  }

  function PaymentFor(b: seq<Body>, orderId: string): Option<Payment> {
    if |b| >= 3 && b[0].OrderStarted? && b[1].InventoryReserved? then
      Some(Payment(orderId, b[2].PaymentAuthorized?, if b[2].PaymentFailed? then b[2].reason else "",
                   b[0].amount, b[0].currency))
    else None
  }

  function AttemptFor(b: seq<Body>): Option<string> {
    if |b| >= 3 && b[2].PaymentFailed? then Some(b[2].reason) else None
  }

  function ReleaseFor(b: seq<Body>): Option<string> {
    if |b| >= 4 && b[2].PaymentFailed? then Some(b[2].reason) else None
  }

  /** A reservation, a payment, a failed attempt and a release exist exactly when the event does that
      reports them, with the same contents. */
  ghost predicate Recorded(doc: Document, orderId: string, b: seq<Body>) {
    && Lookup(doc.reservations, ReservationId(orderId)) == ReservationFor(b, orderId)
    && Lookup(doc.payments, PaymentId(orderId)) == PaymentFor(b, orderId)
    && Lookup(doc.paymentAttempts, orderId) == AttemptFor(b)
    && Lookup(doc.released, ReservationId(orderId)) == ReleaseFor(b)
  }

  /** Every line of an order that has reserved names a stocked SKU. */
  ghost predicate LinesStocked(b: seq<Body>, stock: map<string, int>) {
    |b| >= 2 && b[1].InventoryReserved? ==> forall l | l in Lines(b) :: l.sku in stock
  }

  ghost predicate Sound(doc: Document, orderId: string) {
    && Numbered(Stream(doc, orderId), orderId)
    && Legal(History(doc, orderId), orderId) && AmountReads(History(doc, orderId))
    && Recorded(doc, orderId, History(doc, orderId))
    && LinesStocked(History(doc, orderId), doc.stock)
  }

  ghost predicate Shown(doc: Document, orderId: string) {
    orderId in doc.readModels ==> doc.readModels[orderId] == CurrentState(doc, orderId)
  }

  // ---- The step of an order, from its history and the stock alone --------------------------------------

  function Lines(b: seq<Body>): seq<Line> {
    if b != [] && b[0].OrderStarted? then b[0].lines else []
  }

  function MethodIn(b: seq<Body>, methods: map<string, PaymentMethod>): PaymentMethod {
    MethodOf(methods, if b != [] && b[0].OrderStarted? then b[0].paymentMethodId else "")
  }

  function NextBody(b: seq<Body>, stock: map<string, int>, methods: map<string, PaymentMethod>, orderId: string): Body
    requires b != []
  {
    match b[|b| - 1]
    case OrderStarted(_, _, _, lines, _, _) =>
      var short := FirstShort(stock, lines);
      if short.None? then InventoryReserved(ReservationId(orderId))
      else InventoryReservationFailed(ShortReason(short.value.sku))
    case InventoryReserved(_) =>
      var m := MethodIn(b, methods);
      if m.shouldAuthorize then PaymentAuthorized(PaymentId(orderId)) else PaymentFailed(m.failureReason)
    case PaymentAuthorized(_) => OrderConfirmed
    case PaymentFailed(reason) => InventoryReleased(ReservationId(orderId), reason)
    case InventoryReservationFailed(reason) => OrderFailed(reason)
    case InventoryReleased(_, reason) => OrderFailed(reason)
    case last => last
  }

  /** None when the step throws: the stock covers lines that name an unknown SKU. */
  function NextStock(b: seq<Body>, stock: map<string, int>): Option<map<string, int>> {
    match StatusOf(b)
    case Created => if FirstShort(stock, Lines(b)).None? then Take(stock, Lines(b)) else Some(stock)
    case PayFailed => Give(stock, Lines(b))
    case _ => Some(stock)
  }

  /** The document differs only in what belongs to one order, and in the stock. */
  ghost predicate SameElsewhere(doc: Document, d: Document, orderId: string) {
    && d.paymentMethods == doc.paymentMethods && d.stopAt == doc.stopAt
    && (forall p | p != orderId :: Stream(d, p) == Stream(doc, p))
    && (forall p | p != orderId :: Lookup(d.readModels, p) == Lookup(doc.readModels, p))
    && (forall p | p != orderId :: Lookup(d.paymentAttempts, p) == Lookup(doc.paymentAttempts, p))
    && (forall k | k != ReservationId(orderId) :: Lookup(d.reservations, k) == Lookup(doc.reservations, k))
    && (forall k | k != ReservationId(orderId) :: Lookup(d.released, k) == Lookup(doc.released, k))
    && (forall k | k != PaymentId(orderId) :: Lookup(d.payments, k) == Lookup(doc.payments, k))
  }

  function Event(orderId: string, commandId: string, body: Body, before: nat): StoredEvent {
    StoredEvent(orderId + ":" + ToText(before + 1), commandId, orderId, body, before + 1)
  }

  /** d is doc after one order moved on by one event. */
  ghost predicate Steps(doc: Document, d: Document, orderId: string, commandId: string, body: Body) {
    && Stream(d, orderId) == Stream(doc, orderId) + [Event(orderId, commandId, body, |Stream(doc, orderId)|)]
    && SameElsewhere(doc, d, orderId)
    && Recorded(d, orderId, History(doc, orderId) + [body])
  }

  lemma IdsInjective(p: string, q: string)
    ensures ReservationId(p) == ReservationId(q) ==> p == q
    ensures PaymentId(p) == PaymentId(q) ==> p == q
  {
    assert ReservationId(p)[|"reservation-"|..] == p && ReservationId(q)[|"reservation-"|..] == q;
    assert PaymentId(p)[|"payment-"|..] == p && PaymentId(q)[|"payment-"|..] == q;
  }

  lemma AppendLooks(d: Document, orderId: string, commandId: string, body: Body, n: nat)
    requires n == |Stream(d, orderId)|
    ensures var end := AppendEvent(d, orderId, body, commandId, n);
            && end.Some? && end.value == d.(events := end.value.events)
            && Stream(end.value, orderId) == Stream(d, orderId) + [Event(orderId, commandId, body, n)]
            && forall p | p != orderId :: Stream(end.value, p) == Stream(d, p)
  {
    hide ToText;
  }

  lemma ElsewhereToo(doc: Document, d: Document, e: Document, orderId: string)
    requires SameElsewhere(doc, d, orderId) && e == d.(events := e.events)
    requires forall p | p != orderId :: Stream(e, p) == Stream(d, p)
    ensures SameElsewhere(doc, e, orderId)
  {
    hide ReservationId, PaymentId, Lookup, Stream;
  }

  /** Appending an event to a document that already has the right records is a step. */
  lemma AppendSteps(doc: Document, d: Document, orderId: string, commandId: string, body: Body)
    requires SameElsewhere(doc, d, orderId) && d.events == doc.events
    requires Recorded(d, orderId, History(doc, orderId) + [body])
    ensures var end := AppendEvent(d, orderId, body, commandId, |Stream(doc, orderId)|);
            end.Some? && Steps(doc, end.value, orderId, commandId, body)
            && end.value.stock == d.stock && end.value.readModels == d.readModels
  {
    hide Recorded, SameElsewhere, Event, History, AppendEvent;
    var n := |Stream(doc, orderId)|;
    AppendLooks(d, orderId, commandId, body, n);
    var e := AppendEvent(d, orderId, body, commandId, n).value;
    ElsewhereToo(doc, d, e, orderId);
    SameRecords(d, e, orderId, History(doc, orderId) + [body]);
  }

  lemma SameRecords(d: Document, e: Document, orderId: string, b: seq<Body>)
    requires Recorded(d, orderId, b)
    requires e.reservations == d.reservations && e.payments == d.payments && e.released == d.released
    requires e.paymentAttempts == d.paymentAttempts
    ensures Recorded(e, orderId, b)
  {
  }

  // ---- Advance takes that step --------------------------------------------------------------------------

  /** The outcome of one step of an order that has started and not finished. */
  ghost predicate Advances(doc: Document, step: Step, orderId: string, commandId: string) {
    var b := History(doc, orderId);
    b != [] &&
    match NextStock(b, doc.stock)
    case None => step.Throws?
    case Some(stock) =>
      step.Moves? && Steps(doc, step.doc, orderId, commandId, NextBody(b, doc.stock, doc.paymentMethods, orderId))
      && step.doc.stock == stock && step.doc.readModels == doc.readModels
  }

  /** What Advance finds when it folds the stream. */
  ghost predicate Finds(doc: Document, a: Aggregate, orderId: string) {
    var b := History(doc, orderId);
    && b != [] && b[0].OrderStarted? && |b| == |Stream(doc, orderId)|
    && a.orderId == orderId && a.version == |b| && a.status == StatusOf(b) && a.lines == Lines(b)
    && FromWire(b[0].amount).Ok? && Written(a.amount) == b[0].amount && a.currency == b[0].currency
    && a.paymentMethodId == b[0].paymentMethodId && a.reason == Reason(b)
    && (|b| >= 2 && b[1].InventoryReserved? ==> a.reservationId == ReservationId(orderId))
  }

  lemma FoldFinds(doc: Document, orderId: string)
    requires Sound(doc, orderId) && History(doc, orderId) != []
    ensures Finds(doc, Fold(Stream(doc, orderId), orderId), orderId)
  {
    hide FromWire, Read, Written, ToText, Recorded, ReservationId, PaymentId;
    FoldIsSummary(Stream(doc, orderId), orderId);
    AmountKept(History(doc, orderId)[0].amount);
  }

  /** d is doc with the next body's records and stock, before the event is appended. */
  ghost predicate Effect(doc: Document, d: Document, orderId: string, body: Body) {
    var b := History(doc, orderId);
    && b != [] && body == NextBody(b, doc.stock, doc.paymentMethods, orderId)
    && NextStock(b, doc.stock) == Some(d.stock)
    && SameElsewhere(doc, d, orderId) && d.events == doc.events && d.readModels == doc.readModels
    && Recorded(d, orderId, b + [body])
  }

  lemma EffectAdvances(doc: Document, d: Document, orderId: string, commandId: string, body: Body)
    requires Effect(doc, d, orderId, body)
    ensures Advances(doc, Appended(AppendEvent(d, orderId, body, commandId, |Stream(doc, orderId)|)), orderId,
      commandId)
  {
    hide Recorded, SameElsewhere, NextStock, NextBody, Steps, AppendEvent, Bodies;
    AppendSteps(doc, d, orderId, commandId, body);
  }

  lemma ReserveRecords(doc: Document, d: Document, orderId: string, b: seq<Body>, body: Body)
    requires Recorded(doc, orderId, b) && |b| == 1 && b[0].OrderStarted?
    requires body.InventoryReserved? || body.InventoryReservationFailed?
    requires d.payments == doc.payments && d.released == doc.released && d.paymentAttempts == doc.paymentAttempts
    requires Lookup(d.reservations, ReservationId(orderId))
          == Some(Reservation(orderId, body.InventoryReserved?,
                              if body.InventoryReserved? then "" else body.reason, b[0].lines))
    ensures Recorded(d, orderId, b + [body])
  {
    hide ReservationId, PaymentId;
    assert (b + [body])[0] == b[0] && (b + [body])[1] == body;
  }

  /** Storing a first reservation, and taking its stock, is the effect of the step. */
  lemma ReservationEffect(doc: Document, d: Document, orderId: string, body: Body, r: Reservation)
    requires var b := History(doc, orderId);
             && Recorded(doc, orderId, b) && |b| == 1 && b[0].OrderStarted?
             && body == NextBody(b, doc.stock, doc.paymentMethods, orderId) && NextStock(b, doc.stock) == Some(d.stock)
             && r == Reservation(orderId, body.InventoryReserved?,
                                 if body.InventoryReservationFailed? then body.reason else "", b[0].lines)
    requires body.InventoryReserved? || body.InventoryReservationFailed?
    requires d == doc.(stock := d.stock, reservations := doc.reservations[ReservationId(orderId) := r])
    ensures Effect(doc, d, orderId, body)
  {
    var b := History(doc, orderId);
    hide ReservationId, PaymentId, NextStock, NextBody, History;
    assert SameElsewhere(doc, d, orderId);
    ReserveRecords(doc, d, orderId, b, body);
  }

  lemma AtCreated(doc: Document, a: Aggregate)
    requires Sound(doc, a.orderId) && Finds(doc, a, a.orderId) && a.status == Created
    ensures var b := History(doc, a.orderId);
            && |b| == 1 && b[0].OrderStarted? && b[0].lines == a.lines && Lines(b) == a.lines && StatusOf(b) == Created
            && Recorded(doc, a.orderId, b) && ReservationId(a.orderId) !in doc.reservations
            && NextBody(b, doc.stock, doc.paymentMethods, a.orderId)
               == (var short := FirstShort(doc.stock, a.lines);
                   if short.None? then InventoryReserved(ReservationId(a.orderId))
                   else InventoryReservationFailed(ShortReason(short.value.sku)))
  {
    hide FromWire, Written, Take, FirstShort, ReservationId, PaymentId, Numbered, Bodies, History;
  }

  lemma StockWhenCreated(doc: Document, orderId: string)
    requires StatusOf(History(doc, orderId)) == Created
    ensures NextStock(History(doc, orderId), doc.stock)
         == if FirstShort(doc.stock, Lines(History(doc, orderId))).None?
             then Take(doc.stock, Lines(History(doc, orderId)))
            else Some(doc.stock)
  {
  }

  lemma RejectEffect(doc: Document, a: Aggregate)
    requires Sound(doc, a.orderId) && Finds(doc, a, a.orderId) && a.status == Created
    requires FirstShort(doc.stock, a.lines).Some?
    ensures var reply := Reserve(doc, a.orderId, ReservationId(a.orderId), a.lines);
            reply.Some? && !reply.value.accepted
            && Effect(doc, reply.value.doc, a.orderId, InventoryReservationFailed(reply.value.reason))
  {
    hide Sound, Finds, Take, FirstShort, ShortReason, ReservationId, Effect, Recorded, NextBody, NextStock, StatusOf,
      Lines, History;
    AtCreated(doc, a);
    StockWhenCreated(doc, a.orderId);
    var reply := Reserve(doc, a.orderId, ReservationId(a.orderId), a.lines).value;
    ReservationEffect(doc, reply.doc, a.orderId, InventoryReservationFailed(reply.reason),
                      Reservation(a.orderId, false, reply.reason, a.lines));
  }

  lemma AcceptEffect(doc: Document, a: Aggregate)
    requires Sound(doc, a.orderId) && Finds(doc, a, a.orderId) && a.status == Created
    requires FirstShort(doc.stock, a.lines).None?
    ensures var reply := Reserve(doc, a.orderId, ReservationId(a.orderId), a.lines);
            if reply.None? then NextStock(History(doc, a.orderId), doc.stock) == None
            else reply.value.accepted
                 && Effect(doc, reply.value.doc, a.orderId, InventoryReserved(ReservationId(a.orderId)))
  {
    hide Sound, Finds, Take, FirstShort, ShortReason, ReservationId, Effect, Recorded, NextBody, NextStock, StatusOf,
      Lines, History;
    AtCreated(doc, a);
    StockWhenCreated(doc, a.orderId);
    if Take(doc.stock, a.lines).Some? {
      var reply := Reserve(doc, a.orderId, ReservationId(a.orderId), a.lines).value;
      ReservationEffect(doc, reply.doc, a.orderId, InventoryReserved(ReservationId(a.orderId)),
                        Reservation(a.orderId, true, "", a.lines));
    }
  }

  lemma ReserveAdvances(doc: Document, commandId: string, a: Aggregate)
    requires Sound(doc, a.orderId) && Finds(doc, a, a.orderId) && a.status == Created
    ensures Advances(doc, ReserveStep(doc, commandId, a), a.orderId, commandId)
  {
    hide Sound, Effect, Reserve, AppendEvent, Steps, History, NextStock, NextBody, ReservationId, FromWire, Written,
      StatusOf,
      FirstShort;
    if FirstShort(doc.stock, a.lines).Some? {
      RejectEffect(doc, a);
    } else {
      AcceptEffect(doc, a);
    }
    assert a.version == |Stream(doc, a.orderId)| && History(doc, a.orderId) != [];
    var reply := Reserve(doc, a.orderId, ReservationId(a.orderId), a.lines);
    if reply.Some? {
      var body := if reply.value.accepted then InventoryReserved(ReservationId(a.orderId))
                  else InventoryReservationFailed(reply.value.reason);
      EffectAdvances(doc, reply.value.doc, a.orderId, commandId, body);
    }
  }

  lemma AtReserved(doc: Document, a: Aggregate)
    requires Sound(doc, a.orderId) && Finds(doc, a, a.orderId) && a.status == Reserved
    ensures var b := History(doc, a.orderId);
            && |b| == 2 && b[0].OrderStarted? && b[1].InventoryReserved? && b[0].paymentMethodId == a.paymentMethodId
            && FromWire(b[0].amount).Ok? && Written(a.amount) == b[0].amount && a.currency == b[0].currency
            && Recorded(doc, a.orderId, b) && PaymentId(a.orderId) !in doc.payments
            && NextStock(b, doc.stock) == Some(doc.stock)
            && NextBody(b, doc.stock, doc.paymentMethods, a.orderId)
               == (var m := MethodOf(doc.paymentMethods, a.paymentMethodId);
                   if m.shouldAuthorize then PaymentAuthorized(PaymentId(a.orderId))
                       else PaymentFailed(m.failureReason))
  {
    hide FromWire, Written, MethodOf, ReservationId, PaymentId, Numbered, Bodies, History, LinesStocked;
  }

  lemma FirstAuthorize(doc: Document, a: Aggregate, amount: Double) returns (d: Document, p: Payment)
    requires PaymentId(a.orderId) !in doc.payments && FromWire(amount).Ok?
    ensures var m := MethodOf(doc.paymentMethods, a.paymentMethodId);
            && Authorize(doc, a.orderId, PaymentId(a.orderId), a.paymentMethodId, amount, a.currency)
               == Some(Reply(d, m.shouldAuthorize, p.reason))
            && p == Payment(a.orderId, m.shouldAuthorize, if m.shouldAuthorize then ""
                else m.failureReason, amount, a.currency)
            && d == doc.(payments := doc.payments[PaymentId(a.orderId) := p],
                         paymentAttempts := if m.shouldAuthorize then doc.paymentAttempts
                                            else doc.paymentAttempts[a.orderId := p.reason])
  {
    hide FromWire, Read, Written, PaymentId, MethodOf;
    AmountKept(amount);
    var m := MethodOf(doc.paymentMethods, a.paymentMethodId);
    p := Payment(a.orderId, m.shouldAuthorize, if m.shouldAuthorize then "" else m.failureReason, amount, a.currency);
    d := Authorize(doc, a.orderId, PaymentId(a.orderId), a.paymentMethodId, amount, a.currency).value.doc;
  }

  /** Storing a first payment is the effect of the step. */
  lemma PaymentEffect(doc: Document, d: Document, orderId: string, body: Body, p: Payment)
    requires var b := History(doc, orderId);
             && Recorded(doc, orderId, b) && |b| == 2 && b[0].OrderStarted? && b[1].InventoryReserved?
             && body == NextBody(b, doc.stock, doc.paymentMethods, orderId)
                 && NextStock(b, doc.stock) == Some(doc.stock)
             && p == Payment(orderId, body.PaymentAuthorized?, if body.PaymentFailed? then body.reason else "",
                             b[0].amount, b[0].currency)
    requires body.PaymentAuthorized? || body.PaymentFailed?
    requires d == doc.(payments := doc.payments[PaymentId(orderId) := p],
                       paymentAttempts := if body.PaymentAuthorized? then doc.paymentAttempts
                                          else doc.paymentAttempts[orderId := p.reason])
    ensures Effect(doc, d, orderId, body)
  {
    var b := History(doc, orderId);
    hide ReservationId, PaymentId, NextStock, NextBody, History;
    assert (b + [body])[0] == b[0] && (b + [body])[1] == b[1] && (b + [body])[2] == body;
    assert SameElsewhere(doc, d, orderId);
  }

  lemma AuthorizeAdvances(doc: Document, commandId: string, a: Aggregate)
    requires Sound(doc, a.orderId) && Finds(doc, a, a.orderId) && a.status == Reserved
    ensures Advances(doc, AuthorizeStep(doc, commandId, a), a.orderId, commandId)
  {
    hide Sound, Effect, Authorize, AppendEvent, Steps, History, NextStock, NextBody, PaymentId, FromWire, Written,
      StatusOf, Recorded, MethodOf, Advances;
    AtReserved(doc, a);
    var b := History(doc, a.orderId);
    var d, p := FirstAuthorize(doc, a, b[0].amount);
    var body := if p.accepted then PaymentAuthorized(PaymentId(a.orderId)) else PaymentFailed(p.reason);
    PaymentEffect(doc, d, a.orderId, body, p);
    EffectAdvances(doc, d, a.orderId, commandId, body);
  }

  /** A step that only reports. */
  lemma ReportAdvances(doc: Document, commandId: string, a: Aggregate, body: Body)
    requires Sound(doc, a.orderId) && Finds(doc, a, a.orderId)
    requires if a.status == Authorized then body == OrderConfirmed
             else (a.status == Released || a.status == ReserveFailed) && body == OrderFailed(a.reason)
    ensures Advances(doc, Appended(AppendEvent(doc, a.orderId, body, commandId, a.version)), a.orderId, commandId)
  {
    hide FromWire, Written, Advances, AppendEvent, ReservationId, PaymentId, Numbered, LinesStocked, Bodies, History;
    var b := History(doc, a.orderId);
    ReportRecords(doc, a.orderId, b, body);
    assert body == NextBody(b, doc.stock, doc.paymentMethods, a.orderId);
    assert SameElsewhere(doc, doc, a.orderId);
    EffectAdvances(doc, doc, a.orderId, commandId, body);
  }

  lemma ReportRecords(doc: Document, orderId: string, b: seq<Body>, body: Body)
    requires Recorded(doc, orderId, b) && Legal(b, orderId)
    requires if StatusOf(b) == Authorized then body == OrderConfirmed
             else (StatusOf(b) == Released || StatusOf(b) == ReserveFailed) && body.OrderFailed?
    ensures Recorded(doc, orderId, b + [body])
  {
    hide ReservationId, PaymentId, FromWire;
    var c := b + [body];
    assert forall i | 0 <= i < |b| :: c[i] == b[i];
    assert c[|b|] == body;
  }

  lemma AtPayFailed(doc: Document, a: Aggregate)
    requires Sound(doc, a.orderId) && Finds(doc, a, a.orderId) && a.status == PayFailed
    ensures var b := History(doc, a.orderId);
            && |b| == 3 && b[0].OrderStarted? && b[1].InventoryReserved? && b[2] == PaymentFailed(a.reason)
            && a.reservationId == ReservationId(a.orderId) && a.lines == b[0].lines
            && Recorded(doc, a.orderId, b) && a.reservationId !in doc.released
            && a.reservationId in doc.reservations && doc.reservations[a.reservationId].lines == a.lines
            && NextStock(b, doc.stock) == Give(doc.stock, a.lines)
            && NextBody(b, doc.stock, doc.paymentMethods, a.orderId) == InventoryReleased(a.reservationId, a.reason)
  {
    hide FromWire, Written, Give, ReservationId, PaymentId, Numbered, Bodies, History, LinesStocked;
  }

  lemma ReleaseEffect(doc: Document, d: Document, orderId: string, reason: string)
    requires var b := History(doc, orderId);
             && Recorded(doc, orderId, b) && |b| == 3 && b[0].OrderStarted? && b[1].InventoryReserved?
             && b[2] == PaymentFailed(reason)
             && NextBody(b, doc.stock, doc.paymentMethods, orderId) == InventoryReleased(ReservationId(orderId), reason)
             && NextStock(b, doc.stock) == Some(d.stock)
    requires d == doc.(stock := d.stock, released := doc.released[ReservationId(orderId) := reason])
    ensures Effect(doc, d, orderId, InventoryReleased(ReservationId(orderId), reason))
  {
    var b, body := History(doc, orderId), InventoryReleased(ReservationId(orderId), reason);
    hide ReservationId, PaymentId, NextStock, NextBody, History;
    var c := b + [body];
    assert c[0] == b[0] && c[1] == b[1] && c[2] == b[2];
    assert SameElsewhere(doc, d, orderId);
  }

  lemma ReleaseAdvances(doc: Document, commandId: string, a: Aggregate)
    requires Sound(doc, a.orderId) && Finds(doc, a, a.orderId) && a.status == PayFailed
    ensures Advances(doc, ReleaseStep(doc, commandId, a), a.orderId, commandId)
  {
    hide Sound, Effect, AppendEvent, Steps, History, NextStock, NextBody, ReservationId, FromWire, Written,
      StatusOf, Recorded, Give;
    AtPayFailed(doc, a);
    var released := Release(doc, a.reservationId, a.reason);
    if released.Some? {
      ReleaseEffect(doc, released.value, a.orderId, a.reason);
      EffectAdvances(doc, released.value, a.orderId, commandId, InventoryReleased(a.reservationId, a.reason));
    }
  }

  /** An order that has started and not finished takes the step its history and the stock name. */
  lemma AdvanceAdvances(doc: Document, orderId: string, commandId: string, start: Option<StartCommand>)
    requires Sound(doc, orderId) && History(doc, orderId) != []
    ensures var step := Advance(doc, orderId, commandId, start);
            if Terminal(StatusOf(History(doc, orderId))) then step.Stays? else Advances(doc, step, orderId, commandId)
  {
    hide Sound, Fold, ReserveStep, AuthorizeStep, ReleaseStep, AppendEvent, Advances, History, FromWire, Written;
    FoldFinds(doc, orderId);
    var a := Fold(Stream(doc, orderId), orderId);
    match a.status
    case Created => ReserveAdvances(doc, commandId, a);
    case Reserved => AuthorizeAdvances(doc, commandId, a);
    case PayFailed => ReleaseAdvances(doc, commandId, a);
    case Authorized => ReportAdvances(doc, commandId, a, OrderConfirmed);
    case Released => ReportAdvances(doc, commandId, a, OrderFailed(a.reason));
    case ReserveFailed => ReportAdvances(doc, commandId, a, OrderFailed(a.reason));
    case _ =>
  }

  lemma LegalNext(b: seq<Body>, stock: map<string, int>, methods: map<string, PaymentMethod>, orderId: string)
    requires Legal(b, orderId) && b != [] && !Terminal(StatusOf(b))
    ensures Legal(b + [NextBody(b, stock, methods, orderId)], orderId)
  {
    hide FirstShort, ShortReason, ReservationId, PaymentId, MethodIn, FromWire;
    var body := NextBody(b, stock, methods, orderId);
    var c := b + [body];
    assert c[0] == b[0] && c[|b|] == body;
    assert |b| >= 2 ==> c[1] == b[1];
    assert |b| >= 3 ==> c[2] == b[2];
    assert |b| >= 4 ==> c[3] == b[3];
  }

  lemma NumberedNext(stream: seq<StoredEvent>, orderId: string, commandId: string, body: Body)
    requires Numbered(stream, orderId)
    ensures Numbered(stream + [Event(orderId, commandId, body, |stream|)], orderId)
    ensures Bodies(stream + [Event(orderId, commandId, body, |stream|)]) == Bodies(stream) + [body]
  {
    hide ToText;
  }

  /** A first event is stored only with an amount that reads back; the stock is untouched. */
  lemma StartAdvances(doc: Document, orderId: string, commandId: string, start: Option<StartCommand>)
    requires Sound(doc, orderId) && History(doc, orderId) == []
    ensures var step := Advance(doc, orderId, commandId, start);
            if start.None? then step.Stays?
            else if FromWire(start.value.amount).Err? then step.Throws?
            else step.Moves? && step.doc.stock == doc.stock && step.doc.readModels == doc.readModels
                 && Steps(doc, step.doc, orderId, commandId, StartedBy(start.value))
  {
    hide FromWire, Written, Read, AppendEvent, Steps, ReservationId, PaymentId, Numbered, Legal;
    assert Stream(doc, orderId) == [] && Fold([], orderId) == NoEvents(orderId);
    if start.Some? && FromWire(start.value.amount).Ok? {
      AmountKept(start.value.amount);
      var body := StartedBy(start.value);
      assert History(doc, orderId) + [body] == [body];
      assert Recorded(doc, orderId, [body]);
      assert SameElsewhere(doc, doc, orderId);
      AppendSteps(doc, doc, orderId, commandId, body);
    }
  }

  /** The first event of an order: the command's own data. */
  function StartedBy(command: StartCommand): Body {
    OrderStarted(command.cartId, command.shippingAddressId, command.paymentMethodId, command.lines, command.amount,
                 command.currency)
  }
}
