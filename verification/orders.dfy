// The ShoppingMall order workflow: event streams, stock, reservations and payments in one document.
module Orders {
  import opened Wrappers
  import opened Numerals
  import opened Binary64
  import opened Decimal
  import opened DecimalWire

  datatype Line = Line(sku: string, quantity: int)

  datatype Body =
    | OrderStarted(cartId: string, shippingAddressId: string, paymentMethodId: string, lines: seq<Line>,
                   amount: Double, currency: string)
    | InventoryReserved(reservationId: string)
    | InventoryReservationFailed(reason: string)
    | PaymentAuthorized(paymentId: string)
    | PaymentFailed(reason: string)
    | InventoryReleased(reservationId: string, reason: string)
    | OrderConfirmed
    | OrderFailed(reason: string)

  datatype StoredEvent = StoredEvent(eventId: string, sourceCommandId: string, orderId: string, body: Body,
                                     version: nat)

  /** Absent is the empty status of an order without events. */
  datatype Status = Absent | Created | Reserved | ReserveFailed | Authorized | PayFailed | Released | Confirmed | Failed

  datatype Aggregate = Aggregate(
    orderId: string, status: Status, cartId: string, shippingAddressId: string, paymentMethodId: string,
    reservationId: string, paymentId: string, reason: string, lines: seq<Line>, amount: string, currency: string,
    version: nat)

  datatype OrderState = OrderState(
    orderId: string, status: Status, shippingAddressId: string, reservationId: string, paymentId: string,
    reason: string, amount: Double, currency: string)

  datatype Reservation = Reservation(orderId: string, accepted: bool, reason: string, lines: seq<Line>)

  datatype Payment = Payment(orderId: string, accepted: bool, reason: string, amount: Double, currency: string)

  datatype PaymentMethod = PaymentMethod(shouldAuthorize: bool, failureReason: string)

  datatype Document = Document(
    events: map<string, seq<StoredEvent>>, stock: map<string, int>, reservations: map<string, Reservation>,
    released: map<string, string>, payments: map<string, Payment>, paymentMethods: map<string, PaymentMethod>,
    paymentAttempts: map<string, string>, readModels: map<string, OrderState>, stopAt: map<string, Status>)

  datatype StartCommand = StartCommand(
    orderId: string, cartId: string, shippingAddressId: string, paymentMethodId: string, idempotencyKey: string,
    sourceCommandId: string, lines: seq<Line>, amount: Double, currency: string)

  // ---- Amounts -----------------------------------------------------------------------------------

  /** decimal_t::from_wire of a stored amount, which never throws on one (AmountKept). */
  function Read(amount: Double): string {
    match FromWire(amount)
    case Ok(d) => d
    case Err(_) => "0"
  }

  /** decimal_t::to_wire_number of an amount that was read. */
  function Written(d: string): Double {
    if Normalize(d) != Ok(d) then Finite(0.0) else
    match ToWire(d)
    case Ok(amount) => amount
    case Err(_) => Finite(0.0)
  }

  // ---- Streams and their fold --------------------------------------------------------------------

  function Stream(doc: Document, orderId: string): seq<StoredEvent> {
    if orderId in doc.events then doc.events[orderId] else []
  }

  /** None when the expected version is not the stream's length. */
  function AppendEvent(doc: Document, orderId: string, body: Body, sourceCommandId: string,
                       expected: nat): Option<Document>
  {
    if |Stream(doc, orderId)| != expected then None else
    var event := StoredEvent(orderId + ":" + ToText(expected + 1), sourceCommandId, orderId, body, expected + 1);
    Some(doc.(events := doc.events[orderId := Stream(doc, orderId) + [event]]))
  }

  function NoEvents(orderId: string): Aggregate {
    Aggregate(orderId, Absent, "", "", "", "", "", "", [], "0", "", 0)
  }

  function FoldStep(a: Aggregate, event: StoredEvent): Aggregate {
    var next := match event.body
      case OrderStarted(cartId, shippingAddressId, paymentMethodId, lines, amount, currency) =>
        a.(status := Created, cartId := cartId, shippingAddressId := shippingAddressId,
           paymentMethodId := paymentMethodId, lines := lines, amount := Read(amount), currency := currency)
      case InventoryReserved(reservationId) => a.(status := Reserved, reservationId := reservationId)
      case InventoryReservationFailed(reason) => a.(status := ReserveFailed, reason := reason)
      case PaymentAuthorized(paymentId) => a.(status := Authorized, paymentId := paymentId)
      case PaymentFailed(reason) => a.(status := PayFailed, reason := reason)
      case InventoryReleased(_, _) => a.(status := Released)
      case OrderConfirmed => a.(status := Confirmed)
      case OrderFailed(reason) => a.(status := Failed, reason := if a.reason == "" then reason else a.reason);
    next.(version := event.version)
  }

  function Fold(stream: seq<StoredEvent>, orderId: string): Aggregate {
    if stream == [] then NoEvents(orderId)
    else FoldStep(Fold(stream[..|stream| - 1], orderId), stream[|stream| - 1])
  }

  lemma FoldStepKeepsId(a: Aggregate, event: StoredEvent)
    ensures FoldStep(a, event).orderId == a.orderId
  {
    hide Read;
  }

  /** The fold keeps the order id it starts from. */
  lemma {:induction false} FoldKeepsId(stream: seq<StoredEvent>, orderId: string)
    ensures Fold(stream, orderId).orderId == orderId
  {
    hide FoldStep;
    if stream != [] {
      FoldKeepsId(stream[..|stream| - 1], orderId);
      FoldStepKeepsId(Fold(stream[..|stream| - 1], orderId), stream[|stream| - 1]);
    }
  }

  predicate Terminal(status: Status) {
    status.Confirmed? || status.Failed?
  }

  /** What clients see: an order on its way to failure still shows the step it had reached. */
  function PublicStatus(status: Status): Status {
    match status
    case ReserveFailed => Created
    case PayFailed => Reserved
    case Released => Reserved
    case other => other
  }

  function ProjectionOf(a: Aggregate): OrderState {
    OrderState(a.orderId, PublicStatus(a.status), a.shippingAddressId, a.reservationId, a.paymentId, a.reason,
               Written(a.amount), a.currency)
  }

  function CurrentState(doc: Document, orderId: string): OrderState {
    ProjectionOf(Fold(Stream(doc, orderId), orderId))
  }

  function SaveProjection(doc: Document, orderId: string): Document {
    doc.(readModels := doc.readModels[orderId := CurrentState(doc, orderId)])
  }

  /** None when the order has no events. */
  function Rebuild(doc: Document, orderId: string): Option<Document> {
    if Stream(doc, orderId) == [] then None else Some(SaveProjection(doc, orderId))
  }

  // ---- Stock and payments --------------------------------------------------------------------------

  function Available(stock: map<string, int>, sku: string): int {
    if sku in stock then stock[sku] else 0
  }

  /** The first line the stock does not cover, each line looked at alone. */
  function FirstShort(stock: map<string, int>, lines: seq<Line>): Option<Line> {
    if lines == [] then None
    else
      var before, last := FirstShort(stock, lines[..|lines| - 1]), lines[|lines| - 1];
      if before.Some? then before else if Available(stock, last.sku) < last.quantity then Some(last) else None
  }

  /** Stock less every line; None when a line names a SKU that is not stocked, which throws. */
  function Take(stock: map<string, int>, lines: seq<Line>): Option<map<string, int>> {
    if lines == [] then Some(stock)
    else
      var before, last := Take(stock, lines[..|lines| - 1]), lines[|lines| - 1];
      if before.None? || last.sku !in before.value then None
      else Some(before.value[last.sku := before.value[last.sku] - last.quantity])
  }

  function Give(stock: map<string, int>, lines: seq<Line>): Option<map<string, int>> {
    if lines == [] then Some(stock)
    else
      var before, last := Give(stock, lines[..|lines| - 1]), lines[|lines| - 1];
      if before.None? || last.sku !in before.value then None
      else Some(before.value[last.sku := before.value[last.sku] + last.quantity])
  }

  function ShortReason(sku: string): string {
    "inventory unavailable for " + sku
  }

  datatype Reply = Reply(doc: Document, accepted: bool, reason: string)

  function Reserve(doc: Document, orderId: string, reservationId: string, lines: seq<Line>): Option<Reply> {
    if reservationId in doc.reservations then
      var saved := doc.reservations[reservationId];
      Some(Reply(doc, saved.accepted, saved.reason))
    else
      var short := FirstShort(doc.stock, lines);
      if short.Some? then
        var reason := ShortReason(short.value.sku);
        Some(Reply(doc.(reservations := doc.reservations[reservationId := Reservation(orderId, false, reason, lines)]),
                   false, reason))
      else
        var stock := Take(doc.stock, lines);
        if stock.None? then None else
        Some(Reply(doc.(stock := stock.value,
                        reservations := doc.reservations[reservationId := Reservation(orderId, true, "", lines)]),
                   true, ""))
  }

  function Release(doc: Document, reservationId: string, reason: string): Option<Document> {
    if reservationId !in doc.reservations || reservationId in doc.released then Some(doc) else
    var stock := Give(doc.stock, doc.reservations[reservationId].lines);
    if stock.None? then None
    else Some(doc.(stock := stock.value, released := doc.released[reservationId := reason]))
  }

  function MethodOf(methods: map<string, PaymentMethod>, id: string): PaymentMethod {
    if id in methods then methods[id] else UnknownMethod()
  }

  function UnknownMethod(): PaymentMethod {
    PaymentMethod(false, "unknown payment method")
  }

  function Authorize(doc: Document, orderId: string, paymentId: string, methodId: string, amount: Double,
                     currency: string): Option<Reply>
  {
    if FromWire(amount).Err? then None
    else if paymentId in doc.payments then
      var saved := doc.payments[paymentId];
      Some(Reply(doc, saved.accepted, saved.reason))
    else
      var seed := MethodOf(doc.paymentMethods, methodId);
      var reason := if seed.shouldAuthorize then "" else seed.failureReason;
      var payment := Payment(orderId, seed.shouldAuthorize, reason, Written(Read(amount)), currency);
      Some(Reply(
        doc.(payments := doc.payments[paymentId := payment],
             paymentAttempts := if seed.shouldAuthorize then doc.paymentAttempts
                                else doc.paymentAttempts[orderId := reason]),
        seed.shouldAuthorize, reason))
  }

  // ---- One step --------------------------------------------------------------------------------------

  function ReservationId(orderId: string): string {
    "reservation-" + orderId
  }

  function PaymentId(orderId: string): string {
    "payment-" + orderId
  }

  datatype Step = Stays | Moves(doc: Document) | Throws

  function Appended(doc: Option<Document>): Step {
    if doc.None? then Throws else Moves(doc.value)
  }

  function StartOrder(doc: Document, orderId: string, commandId: string, command: StartCommand, version: nat): Step {
    if FromWire(command.amount).Err? then Throws else
    var started := OrderStarted(command.cartId, command.shippingAddressId, command.paymentMethodId, command.lines,
                                Written(Read(command.amount)), command.currency);
    Appended(AppendEvent(doc, orderId, started, commandId, version))
  }

  function ReserveStep(doc: Document, commandId: string, a: Aggregate): Step {
    var reply := Reserve(doc, a.orderId, ReservationId(a.orderId), a.lines);
    if reply.None? then Throws else
    var body := if reply.value.accepted then InventoryReserved(ReservationId(a.orderId))
                else InventoryReservationFailed(reply.value.reason);
    Appended(AppendEvent(reply.value.doc, a.orderId, body, commandId, a.version))
  }

  function AuthorizeStep(doc: Document, commandId: string, a: Aggregate): Step {
    var id := PaymentId(a.orderId);
    var reply := Authorize(doc, a.orderId, id, a.paymentMethodId, Written(a.amount), a.currency);
    if reply.None? then Throws else
    var body := if reply.value.accepted then PaymentAuthorized(id) else PaymentFailed(reply.value.reason);
    Appended(AppendEvent(reply.value.doc, a.orderId, body, commandId, a.version))
  }

  function ReleaseStep(doc: Document, commandId: string, a: Aggregate): Step {
    var released := Release(doc, a.reservationId, a.reason);
    if released.None? then Throws else
    Appended(AppendEvent(released.value, a.orderId, InventoryReleased(a.reservationId, a.reason), commandId, a.version))
  }

  /** The next step of an order, chosen by the fold of its stream alone. */
  function Advance(doc: Document, orderId: string, commandId: string, start: Option<StartCommand>): Step {
    var a := Fold(Stream(doc, orderId), orderId);
    if a.version == 0 then
      if start.None? then Stays else StartOrder(doc, orderId, commandId, start.value, a.version)
    else
      match a.status
      case Created => ReserveStep(doc, commandId, a)
      case Reserved => AuthorizeStep(doc, commandId, a)
      case Authorized => Appended(AppendEvent(doc, orderId, OrderConfirmed, commandId, a.version))
      case PayFailed => ReleaseStep(doc, commandId, a)
      case Released => Appended(AppendEvent(doc, orderId, OrderFailed(a.reason), commandId, a.version))
      case ReserveFailed => Appended(AppendEvent(doc, orderId, OrderFailed(a.reason), commandId, a.version))
      case _ => Stays
  }

  // ---- Calls -------------------------------------------------------------------------------------------

  predicate StopHookReached(doc: Document, orderId: string, status: Status) {
    orderId in doc.stopAt && doc.stopAt[orderId] == status
  }

  predicate CommandAlreadyApplied(doc: Document, orderId: string, commandId: string) {
    commandId != "" && exists e | e in Stream(doc, orderId) :: e.sourceCommandId == commandId
  }

  /** The loop has nothing to do: the order is finished, or its stop hook names the folded status. */
  predicate Halted(doc: Document, orderId: string) {
    var a := Fold(Stream(doc, orderId), orderId);
    Terminal(a.status) || (a.version > 0 && StopHookReached(doc, orderId, a.status))
  }

  /** Up to max steps; None when one throws, and then nothing of the call is saved. */
  function RunSteps(doc: Document, orderId: string, commandId: string, start: Option<StartCommand>,
                    max: nat): Option<Document>
    decreases max
  {
    if max == 0 || Halted(doc, orderId) then Some(doc) else
    match Advance(doc, orderId, commandId, start)
    case Stays => Some(doc)
    case Throws => None
    case Moves(next) => RunSteps(SaveProjection(next, orderId), orderId, commandId, start, max - 1)
  }

  function RunWorkflow(doc: Document, orderId: string, commandId: string, start: Option<StartCommand>,
                       max: nat): Option<Document>
  {
    if CommandAlreadyApplied(doc, orderId, commandId) then Some(SaveProjection(doc, orderId)) else
    var ran := RunSteps(doc, orderId, commandId, start, max);
    if ran.None? then None else Some(SaveProjection(ran.value, orderId))
  }

  const MAX_STEPS := 16

  /** One update of the shared document. */
  datatype Call =
    | Work(orderId: string, commandId: string, start: Option<StartCommand>, max: nat)
    | RebuildProjection(orderId: string)
    | DeleteProjection(orderId: string)
    | SetStop(orderId: string, status: Status)
    | ClearStop(orderId: string)

  function StartCall(command: StartCommand): Call {
    Work(command.orderId,
         if command.sourceCommandId == "" then "start:" + command.idempotencyKey else command.sourceCommandId,
         Some(command), 1)
  }

  function ContinueCall(orderId: string, commandId: string): Call {
    Work(orderId, commandId, None, MAX_STEPS)
  }

  function ScheduledCall(orderId: string): Call {
    ContinueCall(orderId, "")
  }

  function Perform(doc: Document, call: Call): Option<Document> {
    match call
    case Work(orderId, commandId, start, max) => RunWorkflow(doc, orderId, commandId, start, max)
    case RebuildProjection(orderId) => Rebuild(doc, orderId)
    case DeleteProjection(orderId) => Some(doc.(readModels := doc.readModels - {orderId}))
    case SetStop(orderId, status) => Some(doc.(stopAt := doc.stopAt[orderId := status]))
    case ClearStop(orderId) => Some(doc.(stopAt := doc.stopAt - {orderId}))
  }

  /** A call that throws leaves the document as it was. */
  function Apply(doc: Document, call: Call): Document {
    var done := Perform(doc, call);
    if done.None? then doc else done.value
  }

  function Seeded(stock: map<string, int>, methods: map<string, PaymentMethod>): Document {
    Document(map[], stock, map[], map[], map[], methods, map[], map[], map[])
  }

  /** The document after any interleaving of calls for any number of orders. */
  function Run(doc: Document, calls: seq<Call>): Document {
    if calls == [] then doc else Apply(Run(doc, calls[..|calls| - 1]), calls[|calls| - 1])
  }
}
