// The commerce API and the order workflow on their shared state: one reservation and one payment per key.
module Shop {
  import opened Wrappers
  import opened Orders
  import opened OrderLaws
  import opened OrderStock
  import opened OrderRuns
  import opened OrderCuts
  import opened OrderRepeats
  import opened OrderHooks
  import opened DecimalWire
  import Api = CommerceApi

  /** The two parts of the stored state, which share the stop hooks (HooksShared), and the start
      commands the API has sent to the workflow. */
  datatype State = State(catalog: Api.Catalog, doc: Document, sent: set<StartCommand>)

  datatype Step =
    | Request(request: Api.StartRequest) // start_order: maps the key and sends the command
    | Catalogue(api: Api.ApiCall)        // prepare, create-pending and clearing a stop
    | Deliver(command: StartCommand)     // a sent command arrives, any number of times
    | Other(call: Call)                  // any workflow call that starts no order and sets no hook

  function Next(s: State, step: Step): State {
    match step
    case Request(request) =>
      var planned := Api.StartPlan(s.catalog, request);
      if planned.None? then s
      else s.(catalog := planned.value.0, sent := s.sent + {planned.value.1.command})
    case Catalogue(call) =>
      var served := Api.Served(s.catalog, call);
      s.(catalog := served, doc := s.doc.(stopAt := served.stopAt))
    case Deliver(command) => if command in s.sent then s.(doc := Apply(s.doc, StartCall(command))) else s
    case Other(call) =>
      if (call.Work? && call.start.Some?) || call.SetStop? || call.ClearStop? then s else s.(doc := Apply(s.doc, call))
  }

  function Opened(carts: map<string, Api.Cart>, stock: map<string, int>, methods: map<string, PaymentMethod>): State {
    State(Api.Empty(carts), Seeded(stock, methods), {})
  }

  function RunShop(s: State, steps: seq<Step>): State {
    if steps == [] then s else Next(RunShop(s, steps[..|steps| - 1]), steps[|steps| - 1])
  }

  // ---- Records belong to the order whose id they are under ----------------------------------------------

  ghost predicate Owned(doc: Document) {
    && (forall r | r in doc.reservations :: r == ReservationId(doc.reservations[r].orderId))
    && (forall r | r in doc.payments :: r == PaymentId(doc.payments[r].orderId))
  }

  lemma TouchedOwned(doc: Document, d: Document, o: string)
    requires Owned(doc) && Sound(d, o) && SameElsewhere(doc, d, o)
    ensures Owned(d)
  {
    hide Legal, Numbered, AmountReads, LinesStocked, ReservationId, PaymentId, Bodies, History;
    assert Recorded(d, o, History(d, o));
    forall r | r in d.reservations ensures r == ReservationId(d.reservations[r].orderId) {
      if r != ReservationId(o) {
        assert Lookup(d.reservations, r) == Lookup(doc.reservations, r);
      }
    }
    forall r | r in d.payments ensures r == PaymentId(d.payments[r].orderId) {
      if r != PaymentId(o) {
        assert Lookup(d.payments, r) == Lookup(doc.payments, r);
      }
    }
  }

  lemma CallKeepsOwned(doc: Document, call: Call)
    requires AllGood(doc) && Owned(doc)
    ensures Owned(Apply(doc, call))
  {
    hide AllGood, Sound, SameElsewhere, RunWorkflow, ReservationId, PaymentId, Balanced, Shown;
    if call.Work? {
      SoundIn(doc, call.orderId);
      WorkKeeps(doc, call.orderId, call.commandId, call.start, call.max);
      if RunWorkflow(doc, call.orderId, call.commandId, call.start, call.max).Some? {
        TouchedOwned(doc, Apply(doc, call), call.orderId);
      }
    }
  }

  // ---- Orders are started for keys ----------------------------------------------------------------------

  /** Every order with events was planned by a start request. */
  ghost predicate Planned(s: State) {
    forall o :: History(s.doc, o) != [] ==> exists c | c in s.sent :: c.orderId == o
  }

  /** There is one record of stop hooks. */
  ghost predicate HooksShared(s: State) {
    s.doc.stopAt == s.catalog.stopAt
  }

  /** Every command sent names a mapped key and an order id that was given out. */
  ghost predicate SentIds(s: State) {
    forall c | c in s.sent ::
      c.idempotencyKey in s.catalog.idempotency && Api.OrderNumber(c.orderId) <= s.catalog.nextOrderSequence
  }

  ghost predicate ShopOk(s: State) {
    AllGood(s.doc) && Owned(s.doc) && Planned(s) && Api.Numbered(s.catalog) && HooksShared(s) && SentIds(s)
  }

  lemma PlannedAfter(s: State, d: Document, o: string)
    requires Planned(s) && SameElsewhere(s.doc, d, o)
    requires History(d, o) != [] ==> History(s.doc, o) != [] || exists c | c in s.sent :: c.orderId == o
    ensures Planned(s.(doc := d))
  {
    hide Bodies, ReservationId, PaymentId, History;
    forall p | History(d, p) != [] ensures exists c | c in s.sent :: c.orderId == p {
      if p != o {
        ElsewhereHistory(s.doc, d, o, p);
      }
    }
  }

  /** Without a start command an order without events stays without. */
  lemma NothingStartsItself(doc: Document, o: string, commandId: string, max: nat)
    requires Sound(doc, o) && History(doc, o) == []
    ensures RunWorkflow(doc, o, commandId, None, max).Some?
    ensures History(RunWorkflow(doc, o, commandId, None, max).value, o) == []
  {
    hide Sound, History, Advance, SaveProjection, Halted, Stream;
    StartAdvances(doc, o, commandId, None);
    SavingSameCore(doc, o, o);
  }

  lemma WorkPlanned(s: State, o: string, commandId: string, start: Option<StartCommand>, max: nat)
    requires ShopOk(s) && (start.Some? ==> start.value in s.sent && start.value.orderId == o)
    ensures Planned(s.(doc := Apply(s.doc, Work(o, commandId, start, max))))
  {
    hide AllGood, Sound, Shown, History, RunWorkflow, SameElsewhere, Balanced, Owned, Api.Numbered, Planned;
    SoundIn(s.doc, o);
    WorkKeeps(s.doc, o, commandId, start, max);
    var ran := RunWorkflow(s.doc, o, commandId, start, max);
    if ran.Some? {
      if History(s.doc, o) == [] && start == None {
        NothingStartsItself(s.doc, o, commandId, max);
      }
      PlannedAfter(s, ran.value, o);
    }
  }

  lemma HooksOnly(doc: Document, d: Document)
    requires AllGood(doc) && Owned(doc) && d == doc.(stopAt := d.stopAt)
    ensures AllGood(d) && Owned(d)
  {
    hide Good, ReservationId, PaymentId;
    forall o ensures Good(d, o) {
      assert Good(doc, o);
      SettingKeeps(doc, d, o);
    }
  }

  lemma HooksPlanned(s: State, d: Document)
    requires Planned(s) && d == s.doc.(stopAt := d.stopAt)
    ensures Planned(s.(doc := d))
  {
    hide History;
    forall o ensures History(d, o) == History(s.doc, o) {
      SameEventsSameCore(s.doc, d, o);
    }
  }

  /** Workflow calls that start nothing and set no hook leave the hooks alone. */
  lemma CallKeepsHooks(doc: Document, call: Call)
    requires AllGood(doc) && !call.SetStop? && !call.ClearStop?
    ensures Apply(doc, call).stopAt == doc.stopAt
  {
    hide AllGood, Sound, Shown, SameElsewhere, Balanced, RunWorkflow, History, CurrentState;
    if call.Work? {
      SoundIn(doc, call.orderId);
      WorkKeeps(doc, call.orderId, call.commandId, call.start, call.max);
      if RunWorkflow(doc, call.orderId, call.commandId, call.start, call.max).Some? {
        MethodsKept(doc, Apply(doc, call), call.orderId);
      }
    }
  }

  lemma CatalogueKeeps(s: State, call: Api.ApiCall)
    requires ShopOk(s)
    ensures ShopOk(Next(s, Catalogue(call)))
  {
    hide AllGood, Owned, Api.Numbered, Api.Served, Api.OrderNumber, Planned, Api.Overwrites;
    Api.CallKeeps(s.catalog, call);
    var d := s.doc.(stopAt := Api.Served(s.catalog, call).stopAt);
    HooksOnly(s.doc, d);
    HooksPlanned(s, d);
    MorePlanned(s.(doc := d), Next(s, Catalogue(call)));
  }

  lemma MorePlanned(s: State, t: State)
    requires Planned(s) && t.doc == s.doc && s.sent <= t.sent
    ensures Planned(t)
  {
    hide History;
    forall o | History(t.doc, o) != [] ensures exists c | c in t.sent :: c.orderId == o {
      var c :| c in s.sent && c.orderId == o;
    }
  }

  /** A request that is served maps its key, and sends a command for the order the key then has. */
  lemma RequestMeans(s: State, request: Api.StartRequest)
    requires Api.Numbered(s.catalog)
    ensures var t := Next(s, Request(request));
            && t.doc == s.doc && t.catalog == Api.Served(s.catalog, Api.StartOrderCall(request))
            && (Api.StartPlan(s.catalog, request).Some? ==>
                  var c := Api.StartPlan(s.catalog, request).value.1.command;
                  && t.sent == s.sent + {c} && c.idempotencyKey == request.key && request.key in t.catalog.idempotency
                  && c.orderId == t.catalog.idempotency[request.key].orderId)
            && (Api.StartPlan(s.catalog, request).None? ==> t == s)
            && t.catalog.stopAt == s.catalog.stopAt
  {
    hide Api.Numbered, Api.OrderId, Api.OrderNumber;
    if Api.Mapped(s.catalog, request.key).Some? {
      Api.MappedKeeps(s.catalog, request.key);
      Api.MappedStops(s.catalog, request.key);
    }
  }

  lemma RequestKeeps(s: State, request: Api.StartRequest)
    requires ShopOk(s)
    ensures ShopOk(Next(s, Request(request)))
  {
    hide AllGood, Owned, Api.Numbered, Api.Served, Api.OrderNumber, Planned, Next, Api.StartPlan, Api.Overwrites;
    RequestMeans(s, request);
    Api.CallKeeps(s.catalog, Api.StartOrderCall(request));
    var t := Next(s, Request(request));
    NumbersGiven(t.catalog);
    MorePlanned(s, t);
  }

  lemma NumbersGiven(s: Api.Catalog)
    requires Api.Numbered(s)
    ensures forall k | k in s.idempotency :: Api.OrderNumber(s.idempotency[k].orderId) <= s.nextOrderSequence
  {
    hide Api.OrderNumber, Api.OrderId;
  }

  lemma NextKeeps(s: State, step: Step)
    requires ShopOk(s)
    ensures ShopOk(Next(s, step))
  {
    match step
    case Request(request) => RequestKeeps(s, request);
    case Catalogue(call) => CatalogueKeeps(s, call);
    case Deliver(command) =>
      hide AllGood, Owned, Apply, Api.Numbered, History, Planned, Api.OrderNumber;
      if command in s.sent {
        var call := StartCall(command);
        CallKeeps(s.doc, call);
        CallKeepsOwned(s.doc, call);
        CallKeepsHooks(s.doc, call);
        WorkPlanned(s, call.orderId, call.commandId, call.start, call.max);
      }
    case Other(call) =>
      hide AllGood, Owned, Apply, Api.Numbered, History, Planned, Api.OrderNumber;
      CallKeeps(s.doc, call);
      CallKeepsOwned(s.doc, call);
      if !call.SetStop? && !call.ClearStop? {
        CallKeepsHooks(s.doc, call);
      }
      if call.Work? {
        if call.start == None { WorkPlanned(s, call.orderId, call.commandId, call.start, call.max); }
      } else {
        SameHistories(s, call);
      }
  }

  lemma SameHistories(s: State, call: Call)
    requires !call.Work? && Planned(s)
    ensures Planned(s.(doc := Apply(s.doc, call)))
  {
    hide History, CurrentState;
    forall o ensures History(Apply(s.doc, call), o) == History(s.doc, o) {
      if call.RebuildProjection? {
        SavingSameCore(s.doc, call.orderId, o);
      } else {
        SameEventsSameCore(s.doc, Apply(s.doc, call), o);
      }
    }
  }

  lemma {:induction false} ShopStaysOk(carts: map<string, Api.Cart>, stock: map<string, int>,
                                       methods: map<string, PaymentMethod>, steps: seq<Step>)
    ensures ShopOk(RunShop(Opened(carts, stock, methods), steps))
  {
    hide ShopOk, Next, Opened;
    if steps == [] {
      OpenedOk(carts, stock, methods);
    } else {
      ShopStaysOk(carts, stock, methods, steps[..|steps| - 1]);
      NextKeeps(RunShop(Opened(carts, stock, methods), steps[..|steps| - 1]), steps[|steps| - 1]);
    }
  }

  lemma OpenedOk(carts: map<string, Api.Cart>, stock: map<string, int>, methods: map<string, PaymentMethod>)
    ensures ShopOk(Opened(carts, stock, methods))
  {
    hide AllGood;
    SeededIsGood(stock, methods);
    Api.EmptyIsNumbered(carts);
  }

  // ---- One order per key ----------------------------------------------------------------------------------

  /** A command was sent for the key. */
  ghost predicate Commanded(s: State, k: string) {
    exists c | c in s.sent :: c.idempotencyKey == k
  }

  /** The step takes the key's order away after a command was sent for it. */
  ghost predicate Supersedes(s: State, step: Step, k: string) {
    step.Catalogue? && Api.Overwrites(s.catalog, step.api, k) && Commanded(s, k)
  }

  ghost predicate Superseded(s: State, steps: seq<Step>, k: string) {
    steps != [] &&
    var front, last := steps[..|steps| - 1], steps[|steps| - 1];
    Superseded(s, front, k) || Supersedes(RunShop(s, front), last, k)
  }

  /** Every command ever sent for the key is for the order the key has now. */
  ghost predicate OneOrder(s: State, k: string) {
    forall c | c in s.sent && c.idempotencyKey == k ::
      k in s.catalog.idempotency && c.orderId == s.catalog.idempotency[k].orderId
  }

  /** Some command sent for the key is for an order older than the key's. */
  ghost predicate OlderOrder(s: State, k: string) {
    exists c | c in s.sent && c.idempotencyKey == k ::
      k in s.catalog.idempotency && Api.OrderNumber(c.orderId) < Api.OrderNumber(s.catalog.idempotency[k].orderId)
  }

  /** The key keeps its order, or the step takes it away and gives it a higher number. */
  lemma StepMoves(s: State, step: Step, k: string)
    requires ShopOk(s) && k in s.catalog.idempotency
    ensures var t := Next(s, step);
            && s.sent <= t.sent && k in t.catalog.idempotency
            && if step.Catalogue? && Api.Overwrites(s.catalog, step.api, k)
               then t.sent == s.sent
                    && Api.OrderNumber(t.catalog.idempotency[k].orderId) > s.catalog.nextOrderSequence
               else t.catalog.idempotency[k].orderId == s.catalog.idempotency[k].orderId
  {
    hide AllGood, Owned, Planned, Apply, Api.Numbered, Api.Served, Api.OrderNumber, Api.StartPlan;
    match step
    case Request(request) =>
      RequestMeans(s, request);
      Api.CallKeeps(s.catalog, Api.StartOrderCall(request));
    case Catalogue(call) => Api.CallKeeps(s.catalog, call);
    case _ =>
  }

  /** A new command is for the order its key has. */
  lemma NewCommandIsCurrent(s: State, step: Step, c: StartCommand)
    requires ShopOk(s) && c in Next(s, step).sent && c !in s.sent
    ensures var t := Next(s, step);
            c.idempotencyKey in t.catalog.idempotency && c.orderId == t.catalog.idempotency[c.idempotencyKey].orderId
    ensures step.Request?
  {
    hide AllGood, Owned, Planned, Apply, Api.Numbered, Api.Served, Api.OrderNumber, Api.StartPlan;
    if step.Request? {
      RequestMeans(s, step.request);
    }
  }

  lemma OneOrderStep(s: State, step: Step, k: string)
    requires ShopOk(s) && OneOrder(s, k) && !Supersedes(s, step, k)
    ensures OneOrder(Next(s, step), k)
  {
    hide ShopOk, Next, Api.Overwrites;
    var t := Next(s, step);
    forall c | c in t.sent && c.idempotencyKey == k
      ensures k in t.catalog.idempotency && c.orderId == t.catalog.idempotency[k].orderId
    {
      if c in s.sent {
        StepMoves(s, step, k);
      } else {
        NewCommandIsCurrent(s, step, c);
      }
    }
  }

  lemma SupersedingLeavesOlder(s: State, step: Step, k: string)
    requires ShopOk(s) && (OlderOrder(s, k) || Supersedes(s, step, k))
    ensures OlderOrder(Next(s, step), k)
  {
    hide Next, AllGood, Owned, Planned, Api.Numbered, Api.Overwrites, Api.OrderNumber;
    var t := Next(s, step);
    if Supersedes(s, step, k) {
      var c :| c in s.sent && c.idempotencyKey == k;
      StepMoves(s, step, k);
      assert c in t.sent;
    } else {
      var c :| c in s.sent && c.idempotencyKey == k && k in s.catalog.idempotency
               && Api.OrderNumber(c.orderId) < Api.OrderNumber(s.catalog.idempotency[k].orderId);
      StepMoves(s, step, k);
      assert c in t.sent;
    }
  }

  lemma {:induction false} OrdersOfKey(s: State, steps: seq<Step>, k: string)
    requires ShopOk(s) && s.sent == {}
    ensures ShopOk(RunShop(s, steps))
    ensures if Superseded(s, steps, k) then OlderOrder(RunShop(s, steps), k) else OneOrder(RunShop(s, steps), k)
  {
    hide ShopOk, Next, Supersedes, OlderOrder;
    if steps != [] {
      var front, last := steps[..|steps| - 1], steps[|steps| - 1];
      OrdersOfKey(s, front, k);
      NextKeeps(RunShop(s, front), last);
      if Superseded(s, steps, k) {
        SupersedingLeavesOlder(RunShop(s, front), last, k);
      } else {
        OneOrderStep(RunShop(s, front), last, k);
      }
    }
  }

  lemma OlderIsOther(s: State, k: string)
    requires OlderOrder(s, k)
    ensures !OneOrder(s, k)
  {
    hide Api.OrderNumber;
  }

  /** In every run all commands ever sent for a key are for the one order it has, exactly when no
      create-pending took the key's order away after a command was sent for it. */
  lemma OneOrderExactly(carts: map<string, Api.Cart>, stock: map<string, int>, methods: map<string, PaymentMethod>,
                        steps: seq<Step>, k: string)
    ensures var s := Opened(carts, stock, methods);
            OneOrder(RunShop(s, steps), k) <==> !Superseded(s, steps, k)
  {
    hide RunShop, ShopOk, OneOrder, OlderOrder, Superseded;
    OpenedOk(carts, stock, methods);
    OrdersOfKey(Opened(carts, stock, methods), steps, k);
    if Superseded(Opened(carts, stock, methods), steps, k) {
      OlderIsOther(RunShop(Opened(carts, stock, methods), steps), k);
    }
  }

  /** The order of the record was started by a command for the key. */
  ghost predicate StartedFor(s: State, k: string, orderId: string) {
    exists c | c in s.sent :: c.idempotencyKey == k && c.orderId == orderId
  }

  /** In every run of requests, redeliveries and calls in which no create-pending took the key's order
      away after a command was sent for it, all the orders ever started for the key make at most one
      reservation and one payment, under the ids of the key's order, and no other key shares them. */
  lemma OneEffectPerKey(carts: map<string, Api.Cart>, stock: map<string, int>, methods: map<string, PaymentMethod>,
                        steps: seq<Step>, k: string)
    requires !Superseded(Opened(carts, stock, methods), steps, k)
    requires k in RunShop(Opened(carts, stock, methods), steps).catalog.idempotency
    ensures var s := RunShop(Opened(carts, stock, methods), steps);
            var o := s.catalog.idempotency[k].orderId;
            && (forall r | r in s.doc.reservations
                 && StartedFor(s, k, s.doc.reservations[r].orderId) :: r == ReservationId(o))
            && (forall r | r in s.doc.payments && StartedFor(s, k, s.doc.payments[r].orderId) :: r == PaymentId(o))
            && (forall l | l in s.catalog.idempotency && l != k :: s.catalog.idempotency[l].orderId != o)
            && (ReservationId(o) in s.doc.reservations || PaymentId(o) in s.doc.payments ==>
                  exists c | c in s.sent :: c.orderId == o)
  {
    hide RunShop, AllGood, ReservationId, PaymentId, Api.OrderNumber, Api.OrderId, Superseded;
    ShopStaysOk(carts, stock, methods, steps);
    OneOrderExactly(carts, stock, methods, steps, k);
    var s := RunShop(Opened(carts, stock, methods), steps);
    var o := s.catalog.idempotency[k].orderId;
    SoundIn(s.doc, o);
    RecordsNeedEvents(s.doc, o);
  }

  lemma RecordsNeedEvents(doc: Document, o: string)
    requires Sound(doc, o)
    ensures ReservationId(o) in doc.reservations || PaymentId(o) in doc.payments ==> History(doc, o) != []
  {
    hide Legal, Numbered, AmountReads, LinesStocked, ReservationId, PaymentId, History;
  }

  // ---- Preparing a key -------------------------------------------------------------------------------------

  /** The id the next allocation gives out names no order that has events. */
  lemma NextIdIsFresh(s: State, id: string)
    requires ShopOk(s) && Api.OrderId(s.catalog.nextOrderSequence + 1) == Some(id)
    ensures History(s.doc, id) == []
  {
    hide AllGood, Owned, Api.Numbered, Api.OrderNumber, Api.OrderId, History;
    Api.OrderNumberOfId(s.catalog.nextOrderSequence + 1);
  }

  lemma PrepareNewKey(s: State, k: string) returns (id: string)
    requires ShopOk(s) && k !in s.catalog.idempotency && s.catalog.nextOrderSequence < 9999
    ensures var t := Next(s, Catalogue(Api.PrepareCall(k)));
            && Api.OrderId(s.catalog.nextOrderSequence + 1) == Some(id)
            && k in t.catalog.idempotency && t.catalog.idempotency[k] == Api.Mapping(id, false)
            && t.doc == Apply(s.doc, SetStop(id, Reserved)) && t.catalog.carts == s.catalog.carts && t.sent == s.sent
  {
    hide AllGood, Owned, Planned, Api.Numbered, Api.OrderNumber, Api.OrderId;
    Api.IdsUpTo9999(s.catalog.nextOrderSequence + 1);
    id := Api.OrderId(s.catalog.nextOrderSequence + 1).value;
  }

  /** What a request for a cart with this key sends when the key is mapped. */
  function CommandFor(request: Api.StartRequest, id: string, cart: Api.Cart): StartCommand {
    StartCommand(id, request.cartId, request.shippingAddressId, request.paymentMethodId, request.key,
                 "start:" + request.key, cart.lines, cart.amount, cart.currency)
  }

  lemma RequestSends(s: State, request: Api.StartRequest)
    requires request.key in s.catalog.idempotency && request.cartId in s.catalog.carts
    ensures var t := Next(s, Request(request));
            var id := s.catalog.idempotency[request.key].orderId;
            && t.doc == s.doc && t.catalog.stopAt == s.catalog.stopAt
            && CommandFor(request, id, s.catalog.carts[request.cartId]) in t.sent
  {
    hide Api.Allocate;
  }

  /** Preparing a new key, starting it and continuing its order leaves the order waiting at
      InventoryReserved with its lines held; clearing the stop and continuing ends it. */
  lemma PreparedKeyWaits(s: State, request: Api.StartRequest)
    requires ShopOk(s) && request.key !in s.catalog.idempotency && s.catalog.nextOrderSequence < 9999
    requires request.cartId in s.catalog.carts
    requires var cart := s.catalog.carts[request.cartId];
             FromWire(cart.amount).Ok? && Reservable(s.doc.stock, cart.lines)
    ensures Api.OrderId(s.catalog.nextOrderSequence + 1).Some?
    ensures var id := Api.OrderId(s.catalog.nextOrderSequence + 1).value;
            var cart := s.catalog.carts[request.cartId];
            var asked := Next(Next(s, Catalogue(Api.PrepareCall(request.key))), Request(request));
            var started := Next(asked, Deliver(CommandFor(request, id, cart)));
            var waiting := Next(started, Other(ScheduledCall(id)));
            var ended := Next(Next(waiting, Catalogue(Api.UnstopCall(id))), Other(ScheduledCall(id)));
            && CurrentState(started.doc, id).status == Created
            && CurrentState(waiting.doc, id).status == Reserved
            && Some(waiting.doc.stock) == Take(s.doc.stock, cart.lines)
            && Terminal(CurrentState(ended.doc, id).status)
  {
    hide AllGood, Owned, Planned, Api.Numbered, Api.OrderNumber, Api.OrderId, History, Take, Reservable, FromWire,
      CurrentState, Api.StartPlan, RunWorkflow, StartCall, SentIds;
    var cart := s.catalog.carts[request.cartId];
    var id := PrepareNewKey(s, request.key);
    NextIdIsFresh(s, id);
    var prepared := Next(s, Catalogue(Api.PrepareCall(request.key)));
    NextKeeps(s, Catalogue(Api.PrepareCall(request.key)));
    RequestSends(prepared, request);
    var asked := Next(prepared, Request(request));
    NextKeeps(prepared, Request(request));
    var command := CommandFor(request, id, cart);
    PreparedOrderWaits(s.doc, command);
    var started := Next(asked, Deliver(command));
    NextKeeps(asked, Deliver(command));
    var waiting := Next(started, Other(ScheduledCall(id)));
    NextKeeps(started, Other(ScheduledCall(id)));
    UnstopIsClear(waiting, id);
  }

  lemma UnstopIsClear(s: State, id: string)
    requires HooksShared(s)
    ensures Next(s, Catalogue(Api.UnstopCall(id))).doc == Apply(s.doc, ClearStop(id))
  {
  }
}
