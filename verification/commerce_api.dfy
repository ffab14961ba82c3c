// How the commerce API maps idempotency keys to order ids.
module CommerceApi {
  import opened Wrappers
  import opened Numerals
  import opened Binary64
  import opened Orders
  import opened OrderLaws

  datatype Mapping = Mapping(orderId: string, started: bool)

  datatype Cart = Cart(lines: seq<Line>, amount: Double, currency: string)

  datatype Catalog = Catalog(nextOrderSequence: nat, idempotency: map<string, Mapping>, carts: map<string, Cart>,
                             stopAt: map<string, Status>)

  datatype StartRequest = StartRequest(cartId: string, shippingAddressId: string, paymentMethodId: string, key: string)

  datatype Plan = Plan(command: StartCommand, alreadyStarted: bool)

  // ---- Order ids -------------------------------------------------------------------------------------

  function Zeros(n: nat): string {
    seq(n, _ => '0')
  }

  /** "order-" and the number padded to four digits. Five digits wrap the padding's length and throw. */
  function OrderId(n: nat): Option<string> {
    if |ToText(n)| > 4 then None else Some("order-" + (Zeros(4 - |ToText(n)|) + ToText(n)))
  }

  lemma {:induction false} ZerosAreZero(n: nat)
    ensures AllDigits(Zeros(n)) && NatOf(Zeros(n)) == 0
  {
    if n > 0 {
      ZerosAreZero(n - 1);
      assert Zeros(n)[..n - 1] == Zeros(n - 1);
    }
  }

  function OrderNumber(id: string): nat {
    if |id| >= 6 && AllDigits(id[6..]) then NatOf(id[6..]) else 0
  }

  /** An id is "order-" and four digits that denote its number. */
  lemma IdIsPadded(n: nat)
    requires OrderId(n).Some?
    ensures var id := OrderId(n).value;
            |id| == 10 && id[..6] == "order-" && AllDigits(id[6..]) && NatOf(id[6..]) == n
  {
    var zeros, digits := Zeros(4 - |ToText(n)|), ToText(n);
    ToTextReadsBack(n);
    ZerosAreZero(4 - |ToText(n)|);
    NatOfConcat(zeros, digits);
    assert OrderId(n).value[6..] == zeros + digits;
  }

  /** The number can be read back from the id, so ids of different numbers differ. */
  lemma OrderNumberOfId(n: nat)
    requires OrderId(n).Some?
    ensures OrderNumber(OrderId(n).value) == n
  {
    IdIsPadded(n);
  }

  /** The first 9999 numbers have an id, and no others. */
  lemma IdsUpTo9999(n: nat)
    ensures OrderId(n).Some? <==> n <= 9999
  {
    assert Pow10(4) == 10000;
    if n <= 9999 {
      ToTextLength(n, 4);
    } else if |ToText(n)| <= 4 {
      ToTextReadsBack(n);
      NatOfBound(ToText(n));
      Pow10Grows(|ToText(n)|, 4);
    }
  }

  lemma {:induction false} Pow10Grows(a: nat, b: nat)
    requires a <= b
    ensures Pow10(a) <= Pow10(b)
  {
    if a < b {
      Pow10Grows(a, b - 1);
    }
  }

  // ---- Calls -------------------------------------------------------------------------------------------

  /** None when the id cannot be built; then nothing of the update is saved. */
  function Allocate(s: Catalog, key: string): Option<Catalog> {
    var next := s.nextOrderSequence + 1;
    var id := OrderId(next);
    if id.None? then None
    else Some(s.(nextOrderSequence := next, idempotency := s.idempotency[key := Mapping(id.value, false)]))
  }

  function Mapped(s: Catalog, key: string): Option<Catalog> {
    if key in s.idempotency then Some(s) else Allocate(s, key)
  }

  function PlanFor(s: Catalog, request: StartRequest): Plan
    requires request.key in s.idempotency && request.cartId in s.carts
  {
    var mapping, cart := s.idempotency[request.key], s.carts[request.cartId];
    Plan(StartCommand(mapping.orderId, request.cartId, request.shippingAddressId, request.paymentMethodId, request.key,
                      "start:" + request.key, cart.lines, cart.amount, cart.currency), mapping.started)
  }

  /** The new state and the plan; None when it throws. */
  function StartPlan(s: Catalog, request: StartRequest): Option<(Catalog, Plan)> {
    var mapped := Mapped(s, request.key);
    if mapped.None? || request.cartId !in mapped.value.carts then None
    else
      var m := mapped.value;
      Some((m.(idempotency := m.idempotency[request.key := m.idempotency[request.key].(started := true)]),
            PlanFor(m, request)))
  }

  function PrepareReserved(s: Catalog, key: string): Option<Catalog> {
    var mapped := Mapped(s, key);
    if mapped.None? then None
    else Some(mapped.value.(stopAt := mapped.value.stopAt[mapped.value.idempotency[key].orderId := Reserved]))
  }

  datatype ApiCall =
    | StartOrderCall(request: StartRequest)
    | PrepareCall(key: string)
    | PendingCall(key: string) // always allocates, and overwrites what the key had
    | UnstopCall(orderId: string)

  function Serve(s: Catalog, call: ApiCall): Option<Catalog> {
    match call
    case StartOrderCall(request) =>
      var done := StartPlan(s, request);
      if done.None? then None else Some(done.value.0)
    case PrepareCall(key) => PrepareReserved(s, key)
    case PendingCall(key) => Allocate(s, key)
    case UnstopCall(orderId) => Some(s.(stopAt := s.stopAt - {orderId}))
  }

  function Served(s: Catalog, call: ApiCall): Catalog {
    var done := Serve(s, call);
    if done.None? then s else done.value
  }

  function ServeAll(s: Catalog, calls: seq<ApiCall>): Catalog {
    if calls == [] then s else Served(ServeAll(s, calls[..|calls| - 1]), calls[|calls| - 1])
  }

  function Empty(carts: map<string, Cart>): Catalog {
    Catalog(0, map[], carts, map[])
  }

  // ---- What every interleaving keeps ----------------------------------------------------------------------

  ghost predicate Numbered(s: Catalog) {
    && (forall k | k in s.idempotency ::
          1 <= OrderNumber(s.idempotency[k].orderId) <= s.nextOrderSequence
          && OrderId(OrderNumber(s.idempotency[k].orderId)) == Some(s.idempotency[k].orderId))
    && (forall k, l | k in s.idempotency && l in s.idempotency && k != l ::
          s.idempotency[k].orderId != s.idempotency[l].orderId)
  }

  lemma AllocateKeeps(s: Catalog, key: string)
    requires Numbered(s) && Allocate(s, key).Some?
    ensures Numbered(Allocate(s, key).value)
    ensures var t := Allocate(s, key).value;
            && t.nextOrderSequence == s.nextOrderSequence + 1 && key in t.idempotency && t.carts == s.carts
            && OrderNumber(t.idempotency[key].orderId) == s.nextOrderSequence + 1
            && forall k | k in s.idempotency :: k in t.idempotency
                && (k != key ==> t.idempotency[k] == s.idempotency[k])
  {
    hide OrderId, OrderNumber;
    OrderNumberOfId(s.nextOrderSequence + 1);
  }

  lemma MappedKeeps(s: Catalog, key: string)
    requires Numbered(s) && Mapped(s, key).Some?
    ensures var m := Mapped(s, key).value;
            && Numbered(m) && key in m.idempotency && s.nextOrderSequence <= m.nextOrderSequence && m.carts == s.carts
            && forall k | k in s.idempotency :: k in m.idempotency && m.idempotency[k] == s.idempotency[k]
  {
    hide Numbered, OrderNumber, OrderId;
    if key !in s.idempotency {
      AllocateKeeps(s, key);
    }
  }

  /** The key has the same order, started if it was. */
  predicate SameMapping(s: Catalog, t: Catalog, key: string)
    requires key in s.idempotency && key in t.idempotency
  {
    t.idempotency[key].orderId == s.idempotency[key].orderId
    && (s.idempotency[key].started ==> t.idempotency[key].started)
  }

  /** A call overwrites a key's id only when it is a create-pending for it that goes through. */
  predicate Overwrites(s: Catalog, call: ApiCall, key: string) {
    call.PendingCall? && call.key == key && Allocate(s, key).Some?
  }

  lemma StartingKeeps(m: Catalog, key: string)
    requires Numbered(m) && key in m.idempotency
    ensures Numbered(m.(idempotency := m.idempotency[key := m.idempotency[key].(started := true)]))
  {
    hide OrderId, OrderNumber;
  }

  lemma StoppingKeeps(s: Catalog, t: Catalog)
    requires Numbered(s) && t == s.(stopAt := t.stopAt)
    ensures Numbered(t)
  {
    hide OrderId, OrderNumber;
  }

  lemma CallKeeps(s: Catalog, call: ApiCall)
    requires Numbered(s)
    ensures var t := Served(s, call);
            && Numbered(t) && s.nextOrderSequence <= t.nextOrderSequence && t.carts == s.carts
            && forall k | k in s.idempotency :: k in t.idempotency
                 && if Overwrites(s, call, k) then OrderNumber(t.idempotency[k].orderId) > s.nextOrderSequence
                    else SameMapping(s, t, k)
  {
    hide OrderId, OrderNumber, Numbered, Allocate;
    match call
    case StartOrderCall(request) =>
      if Mapped(s, request.key).Some? {
        MappedKeeps(s, request.key);
        StartingKeeps(Mapped(s, request.key).value, request.key);
      }
    case PrepareCall(key) =>
      if Mapped(s, key).Some? {
        MappedKeeps(s, key);
        StoppingKeeps(Mapped(s, key).value, Served(s, call));
      }
    case PendingCall(key) =>
      if Allocate(s, key).Some? { AllocateKeeps(s, key); }
    case UnstopCall(_) => StoppingKeeps(s, Served(s, call));
  }

  ghost predicate Overwritten(s: Catalog, calls: seq<ApiCall>, key: string) {
    exists i | 0 <= i < |calls| :: OverwrittenAt(s, calls, key, i)
  }

  ghost predicate OverwrittenAt(s: Catalog, calls: seq<ApiCall>, key: string, i: nat)
    requires i < |calls|
  {
    Overwrites(ServeAll(s, calls[..i]), calls[i], key)
  }

  lemma {:induction false} RunKeeps(s: Catalog, calls: seq<ApiCall>, key: string)
    requires Numbered(s) && key in s.idempotency
    ensures var t := ServeAll(s, calls);
            && Numbered(t) && key in t.idempotency && s.nextOrderSequence <= t.nextOrderSequence && t.carts == s.carts
            && if Overwritten(s, calls, key) then OrderNumber(t.idempotency[key].orderId) > s.nextOrderSequence
               else SameMapping(s, t, key)
  {
    hide Numbered, OrderNumber, Overwrites, Served;
    if calls != [] {
      var front, last := calls[..|calls| - 1], calls[|calls| - 1];
      RunKeeps(s, front, key);
      CallKeeps(ServeAll(s, front), last);
      assert forall i | 0 <= i < |front| :: front[..i] == calls[..i];
      assert forall i | 0 <= i < |front| :: OverwrittenAt(s, front, key, i) <==> OverwrittenAt(s, calls, key, i);
      assert OverwrittenAt(s, calls, key, |front|) <==> Overwrites(ServeAll(s, front), last, key);
    }
  }

  /** Over any interleaving of calls a mapped key keeps its order id exactly when no create-pending
      for that key went through. */
  lemma KeyKeepsIdExactly(s: Catalog, calls: seq<ApiCall>, key: string)
    requires Numbered(s) && key in s.idempotency
    ensures var t := ServeAll(s, calls);
            key in t.idempotency
            && (t.idempotency[key].orderId == s.idempotency[key].orderId <==> !Overwritten(s, calls, key))
  {
    hide OrderId, OrderNumber, Overwritten, ServeAll;
    RunKeeps(s, calls, key);
  }

  lemma {:induction false} ReachableIsNumbered(carts: map<string, Cart>, calls: seq<ApiCall>)
    ensures Numbered(ServeAll(Empty(carts), calls))
  {
    hide Numbered, Served, Empty;
    if calls == [] {
      EmptyIsNumbered(carts);
    } else {
      ReachableIsNumbered(carts, calls[..|calls| - 1]);
      CallKeeps(ServeAll(Empty(carts), calls[..|calls| - 1]), calls[|calls| - 1]);
    }
  }

  lemma EmptyIsNumbered(carts: map<string, Cart>)
    ensures Numbered(Empty(carts))
  {
  }

  /** In every reachable state different keys have different orders, hence different reservations and
      payments: the document holds at most one of each per key. */
  lemma KeysDoNotShareEffects(carts: map<string, Cart>, calls: seq<ApiCall>, k: string, l: string)
    requires var s := ServeAll(Empty(carts), calls); k in s.idempotency && l in s.idempotency && k != l
    ensures var s := ServeAll(Empty(carts), calls);
            var p, q := s.idempotency[k].orderId, s.idempotency[l].orderId;
            p != q && ReservationId(p) != ReservationId(q) && PaymentId(p) != PaymentId(q)
  {
    hide ServeAll, OrderNumber, OrderId;
    ReachableIsNumbered(carts, calls);
    var s := ServeAll(Empty(carts), calls);
    IdsInjective(s.idempotency[k].orderId, s.idempotency[l].orderId);
  }

  /** A second start of the same key, whatever happens between, plans the same command for the same
      order and knows that it was started, unless a create-pending took the key's order away. */
  lemma StartingAgain(s: Catalog, request: StartRequest, calls: seq<ApiCall>)
    requires Numbered(s) && StartPlan(s, request).Some?
    requires !Overwritten(StartPlan(s, request).value.0, calls, request.key)
    ensures var (started, plan) := StartPlan(s, request).value;
            var again := StartPlan(ServeAll(started, calls), request);
            again.Some? && again.value.1 == Plan(plan.command, true)
  {
    hide OrderId, OrderNumber, ServeAll, Overwritten;
    CallKeeps(s, StartOrderCall(request));
    MappedKeeps(s, request.key);
    RunKeeps(StartPlan(s, request).value.0, calls, request.key);
  }

  /** A start request throws exactly for an unknown cart, or when its key is new and all ids are given out. */
  lemma StartThrowsExactly(s: Catalog, request: StartRequest)
    ensures StartPlan(s, request) == None
       <==> request.cartId !in s.carts || (request.key !in s.idempotency && s.nextOrderSequence >= 9999)
  {
    hide OrderId;
    IdsUpTo9999(s.nextOrderSequence + 1);
  }

  /** A new key gets the next number's id; its order is not started before, and is afterwards. */
  lemma FirstStart(s: Catalog, request: StartRequest)
    requires request.key !in s.idempotency && StartPlan(s, request).Some?
    ensures var (t, plan) := StartPlan(s, request).value;
            && !plan.alreadyStarted && OrderId(s.nextOrderSequence + 1) == Some(plan.command.orderId)
            && t == s.(nextOrderSequence := s.nextOrderSequence + 1,
                       idempotency := s.idempotency[request.key := Mapping(plan.command.orderId, true)])
  {
    hide OrderId;
  }

  /** The first order ever started is order 1. */
  lemma FirstOrder(carts: map<string, Cart>, request: StartRequest)
    requires request.cartId in carts
    ensures StartPlan(Empty(carts), request).Some?
    ensures StartPlan(Empty(carts), request).value.1.command.orderId == "order-0001"
  {
    assert ToText(1) == "1" && Zeros(3) == "000" && "order-" + ("000" + "1") == "order-0001";
    FirstStart(Empty(carts), request);
  }

  /** The key's order was started: a start request for the key went through, and no create-pending took the
      order away since. */
  ghost predicate StartedIn(carts: map<string, Cart>, calls: seq<ApiCall>, key: string) {
    calls != [] &&
    var front, last := calls[..|calls| - 1], calls[|calls| - 1];
    var s := ServeAll(Empty(carts), front);
    if last.StartOrderCall? && last.request.key == key && StartPlan(s, last.request).Some? then true
    else StartedIn(carts, front, key) && !Overwrites(s, last, key)
  }

  lemma StartedStep(s: Catalog, call: ApiCall, key: string)
    ensures var t := Served(s, call);
            var before := key in s.idempotency && s.idempotency[key].started;
            (key in t.idempotency && t.idempotency[key].started)
            <==> (call.StartOrderCall? && call.request.key == key && StartPlan(s, call.request).Some?)
                 || (before && !Overwrites(s, call, key))
  {
    hide OrderId;
  }

  /** In every run a mapping says that its order was started exactly when it was, and so does the plan that
      the next start request of the key gets. */
  lemma {:induction false} StartedIsRecorded(carts: map<string, Cart>, calls: seq<ApiCall>, key: string)
    ensures var s := ServeAll(Empty(carts), calls);
            (key in s.idempotency && s.idempotency[key].started) <==> StartedIn(carts, calls, key)
  {
    hide Served, StartPlan, Overwrites;
    if calls != [] {
      var front, last := calls[..|calls| - 1], calls[|calls| - 1];
      StartedIsRecorded(carts, front, key);
      StartedStep(ServeAll(Empty(carts), front), last, key);
    }
  }

  lemma PlanKnowsStart(carts: map<string, Cart>, calls: seq<ApiCall>, request: StartRequest)
    requires StartPlan(ServeAll(Empty(carts), calls), request).Some?
    ensures StartPlan(ServeAll(Empty(carts), calls), request).value.1.alreadyStarted
       <==> StartedIn(carts, calls, request.key)
  {
    hide ServeAll, StartedIn, OrderId;
    StartedIsRecorded(carts, calls, request.key);
  }

  /** Preparing a key stops its own order at InventoryReserved, under the id it had if it had one, and
      no other key's order. */
  lemma PrepareStopsItsOrderOnly(s: Catalog, key: string)
    requires Numbered(s) && PrepareReserved(s, key).Some?
    ensures var t := PrepareReserved(s, key).value;
            && key in t.idempotency && Lookup(t.stopAt, t.idempotency[key].orderId) == Some(Reserved)
            && (key in s.idempotency ==> t.idempotency[key] == s.idempotency[key])
            && forall k | k in s.idempotency && k != key ::
                 k in t.idempotency && t.idempotency[k] == s.idempotency[k]
                 && Lookup(t.stopAt, s.idempotency[k].orderId) == Lookup(s.stopAt, s.idempotency[k].orderId)
  {
    hide OrderId, OrderNumber, Allocate;
    MappedKeeps(s, key);
    var m := Mapped(s, key).value;
    assert m.stopAt == s.stopAt by { MappedStops(s, key); }
    assert forall k | k in s.idempotency && k != key :: m.idempotency[k].orderId != m.idempotency[key].orderId;
  }

  lemma MappedStops(s: Catalog, key: string)
    requires Mapped(s, key).Some?
    ensures Mapped(s, key).value.stopAt == s.stopAt
  {
    hide OrderId;
  }

  // ---- The state updated in place -----------------------------------------------------------------------------

  class CommerceStore {
    var nextOrderSequence: nat
    var idempotency: map<string, Mapping>
    var carts: map<string, Cart>
    var stopAt: map<string, Status>

    ghost function Value(): Catalog
      reads this
    {
      Catalog(nextOrderSequence, idempotency, carts, stopAt)
    }

    constructor (carts: map<string, Cart>)
      ensures Value() == Empty(carts)
    {
      nextOrderSequence, idempotency, this.carts, stopAt := 0, map[], carts, map[];
    }

    /** std::string(4 - size, '0') + text; false when the length wraps and the string throws. */
    method BuildId(n: nat) returns (id: Option<string>)
      ensures id == OrderId(n)
    {
      var text := ToText(n);
      if |text| > 4 { return None; }
      var zeros := "";
      while |zeros| < 4 - |text|
        invariant |zeros| <= 4 - |text| && zeros == Zeros(|zeros|)
      {
        zeros := zeros + ['0'];
      }
      id := Some("order-" + (zeros + text));
    }

    method AllocateFor(key: string) returns (ok: bool)
      modifies this`nextOrderSequence, this`idempotency
      ensures var done := Allocate(old(Value()), key); ok == done.Some? && (ok ==> Value() == done.value)
      ensures !ok ==> idempotency == old(idempotency)
    {
      hide OrderId;
      nextOrderSequence := nextOrderSequence + 1;
      var id := BuildId(nextOrderSequence);
      ok := id.Some?;
      if ok {
        idempotency := idempotency[key := Mapping(id.value, false)];
      }
    }

    /** One update: a request that throws leaves the stored state as it was. */
    method Start(request: StartRequest) returns (plan: Option<Plan>)
      modifies this
      ensures Value() == Served(old(Value()), StartOrderCall(request))
      ensures plan == if StartPlan(old(Value()), request).None? then None
                      else Some(StartPlan(old(Value()), request).value.1)
    {
      hide OrderId;
      var stored := nextOrderSequence;
      var ok := true;
      if request.key !in idempotency {
        ok := AllocateFor(request.key);
      }
      if !ok {
        nextOrderSequence := stored;
        return None;
      }
      if request.cartId !in carts {
        var keep := if stored == nextOrderSequence then idempotency else idempotency - {request.key};
        assert keep == old(idempotency);
        nextOrderSequence, idempotency := stored, keep;
        return None;
      }
      plan := Some(PlanFor(Catalog(nextOrderSequence, idempotency, carts, stopAt), request));
      idempotency := idempotency[request.key := idempotency[request.key].(started := true)];
    }

    method Prepare(key: string) returns (ok: bool)
      modifies this
      ensures Value() == Served(old(Value()), PrepareCall(key)) && ok == Serve(old(Value()), PrepareCall(key)).Some?
    {
      hide OrderId;
      var stored := nextOrderSequence;
      ok := true;
      if key !in idempotency {
        ok := AllocateFor(key);
      }
      if ok {
        stopAt := stopAt[idempotency[key].orderId := Reserved];
      } else {
        nextOrderSequence := stored;
      }
    }

    method CreatePending(key: string) returns (ok: bool)
      modifies this
      ensures Value() == Served(old(Value()), PendingCall(key)) && ok == Serve(old(Value()), PendingCall(key)).Some?
    {
      hide OrderId;
      var stored := nextOrderSequence;
      ok := AllocateFor(key);
      if !ok {
        nextOrderSequence := stored;
      }
    }
  }
}
