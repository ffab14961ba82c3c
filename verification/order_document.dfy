// The shared document changed in place, as the code runs it, proved against the functions of Orders.
module OrderDocument {
  import opened Wrappers
  import opened Numerals
  import opened Binary64
  import opened DecimalWire
  import opened Orders

  class CommerceDocument {
    var events: map<string, seq<StoredEvent>>
    var stock: map<string, int>
    var reservations: map<string, Reservation>
    var released: map<string, string>
    var payments: map<string, Payment>
    var paymentMethods: map<string, PaymentMethod>
    var paymentAttempts: map<string, string>
    var readModels: map<string, OrderState>
    var stopAt: map<string, Status>

    ghost function Value(): Document
      reads this
    {
      Document(events, stock, reservations, released, payments, paymentMethods, paymentAttempts, readModels, stopAt)
    }

    constructor (seed: map<string, int>, methods: map<string, PaymentMethod>)
      ensures Value() == Seeded(seed, methods)
    {
      events, stock, reservations, released, payments := map[], seed, map[], map[], map[];
      paymentMethods, paymentAttempts, readModels, stopAt := methods, map[], map[], map[];
    }

    method ReadStream(orderId: string) returns (stream: seq<StoredEvent>)
      ensures stream == Stream(Value(), orderId)
    {
      stream := if orderId in events then events[orderId] else [];
    }

    method AppendEvent(orderId: string, body: Body, commandId: string, expected: nat) returns (ok: bool)
      modifies this`events
      ensures var end := Orders.AppendEvent(old(Value()), orderId, body, commandId, expected);
              ok == end.Some? && Value() == if ok then end.value else old(Value())
    {
      var stream := ReadStream(orderId);
      if |stream| != expected { return false; }
      var event := StoredEvent(orderId + ":" + ToText(expected + 1), commandId, orderId, body, expected + 1);
      events := events[orderId := stream + [event]];
      ok := true;
    }

    static method FoldStream(stream: seq<StoredEvent>, orderId: string) returns (a: Aggregate)
      ensures a == Fold(stream, orderId)
    {
      hide FoldStep;
      a := NoEvents(orderId);
      assert stream[..0] == [];
      for i := 0 to |stream|
        invariant a == Fold(stream[..i], orderId)
      {
        assert stream[..i + 1][..i] == stream[..i];
        a := FoldStep(a, stream[i]);
      }
      assert stream[..|stream|] == stream;
    }

    method SaveProjection(orderId: string)
      modifies this`readModels
      ensures Value() == Orders.SaveProjection(old(Value()), orderId)
    {
      hide Fold, ProjectionOf;
      var stream := ReadStream(orderId);
      var a := FoldStream(stream, orderId);
      readModels := readModels[orderId := ProjectionOf(a)];
    }

    method Rebuild(orderId: string) returns (ok: bool)
      modifies this`readModels
      ensures var end := Orders.Rebuild(old(Value()), orderId);
              ok == end.Some? && Value() == if ok then end.value else old(Value())
    {
      hide Fold, ProjectionOf;
      var stream := ReadStream(orderId);
      ok := stream != [];
      if ok {
        SaveProjection(orderId);
      }
    }

    /** The first line that is not covered; None when all are. */
    method FindShort(lines: seq<Line>) returns (short: Option<Line>)
      ensures short == FirstShort(stock, lines)
    {
      short := None;
      assert lines[..0] == [];
      for i := 0 to |lines|
        invariant short == FirstShort(stock, lines[..i]) == None
      {
        assert lines[..i + 1][..i] == lines[..i];
        var available := if lines[i].sku in stock then stock[lines[i].sku] else 0;
        if available < lines[i].quantity {
          short := Some(lines[i]);
          ShortStays(stock, lines, i + 1);
          return;
        }
      }
      assert lines[..|lines|] == lines;
    }

    /** Subtracts every line; false when a SKU is missing, which throws. */
    method TakeLines(lines: seq<Line>) returns (ok: bool)
      modifies this`stock
      ensures var taken := Take(old(stock), lines); ok == taken.Some? && (ok ==> stock == taken.value)
    {
      assert lines[..0] == [];
      for i := 0 to |lines|
        invariant Take(old(stock), lines[..i]) == Some(stock)
      {
        assert lines[..i + 1][..i] == lines[..i];
        if lines[i].sku !in stock {
          TakeStaysNone(old(stock), lines, i + 1);
          return false;
        }
        stock := stock[lines[i].sku := stock[lines[i].sku] - lines[i].quantity];
      }
      assert lines[..|lines|] == lines;
      ok := true;
    }

    method GiveLines(lines: seq<Line>) returns (ok: bool)
      modifies this`stock
      ensures var given := Give(old(stock), lines); ok == given.Some? && (ok ==> stock == given.value)
    {
      assert lines[..0] == [];
      for i := 0 to |lines|
        invariant Give(old(stock), lines[..i]) == Some(stock)
      {
        assert lines[..i + 1][..i] == lines[..i];
        if lines[i].sku !in stock {
          GiveStaysNone(old(stock), lines, i + 1);
          return false;
        }
        stock := stock[lines[i].sku := stock[lines[i].sku] + lines[i].quantity];
      }
      assert lines[..|lines|] == lines;
      ok := true;
    }

    method Reserve(orderId: string, id: string, lines: seq<Line>) returns (ok: bool, accepted: bool, reason: string)
      modifies this`stock, this`reservations
      ensures var reply := Orders.Reserve(old(Value()), orderId, id, lines);
              ok == reply.Some? && (ok ==> Reply(Value(), accepted, reason) == reply.value)
    {
      hide Take, FirstShort, ShortReason;
      if id in reservations {
        return true, reservations[id].accepted, reservations[id].reason;
      }
      var short := FindShort(lines);
      if short.Some? {
        reason := ShortReason(short.value.sku);
        reservations := reservations[id := Reservation(orderId, false, reason, lines)];
        return true, false, reason;
      }
      ok := TakeLines(lines);
      accepted, reason := true, "";
      if ok {
        reservations := reservations[id := Reservation(orderId, true, "", lines)];
      }
    }

    method Release(id: string, reason: string) returns (ok: bool)
      modifies this`stock, this`released
      ensures var end := Orders.Release(old(Value()), id, reason); ok == end.Some? && (ok ==> Value() == end.value)
    {
      hide Give;
      ok := true;
      if id in reservations && id !in released {
        ok := GiveLines(reservations[id].lines);
        if ok {
          released := released[id := reason];
        }
      }
    }

    method Authorize(orderId: string, id: string, methodId: string, amount: Double, currency: string)
      returns (ok: bool, accepted: bool, reason: string)
      modifies this`payments, this`paymentAttempts
      ensures var reply := Orders.Authorize(old(Value()), orderId, id, methodId, amount, currency);
              ok == reply.Some? && (ok ==> Reply(Value(), accepted, reason) == reply.value)
    {
      hide FromWire, Written, UnknownMethod;
      var read := FromWire(amount);
      accepted, reason := false, "";
      if read.Err? { return false, false, ""; }
      if id in payments {
        return true, payments[id].accepted, payments[id].reason;
      }
      var seed := if methodId in paymentMethods then paymentMethods[methodId] else UnknownMethod();
      accepted := seed.shouldAuthorize;
      reason := if accepted then "" else seed.failureReason;
      payments := payments[id := Payment(orderId, accepted, reason, Written(read.value), currency)];
      if !accepted {
        paymentAttempts := paymentAttempts[orderId := reason];
      }
      ok := true;
    }

    /** One step: ok is false when it throws, moved tells whether there was a step. */
    method AdvanceOnce(orderId: string, commandId: string, start: Option<StartCommand>) returns (ok: bool, moved: bool)
      modifies this`events, this`stock, this`reservations, this`released, this`payments, this`paymentAttempts
      ensures var step := Advance(old(Value()), orderId, commandId, start);
              && (ok <==> !step.Throws?) && (moved ==> ok) && (ok ==> (moved <==> step.Moves?))
              && (step.Stays? ==> Value() == old(Value()))
              && (step.Moves? ==> Value() == step.doc)
    {
      hide Fold, Orders.Reserve, Orders.Authorize, Orders.Release, Orders.AppendEvent, FromWire, Read, Written,
        ReservationId, PaymentId;
      var stream := ReadStream(orderId);
      var a := FoldStream(stream, orderId);
      FoldKeepsId(stream, orderId);
      moved := false;
      if a.version == 0 {
        if start == None { return true, false; }
        if FromWire(start.value.amount).Err? { return false, false; }
        var c := start.value;
        ok := AppendEvent(orderId, OrderStarted(c.cartId, c.shippingAddressId, c.paymentMethodId, c.lines,
                                                Written(Read(c.amount)), c.currency), commandId, a.version);
        return ok, ok;
      }
      match a.status {
        case Created =>
          var accepted, reason;
          ok, accepted, reason := Reserve(orderId, ReservationId(orderId), a.lines);
          if ok {
            var body := if accepted then InventoryReserved(ReservationId(orderId))
                else InventoryReservationFailed(reason);
            ok := AppendEvent(orderId, body, commandId, a.version);
          }
          return ok, ok;
        case Reserved =>
          var accepted, reason;
          ok, accepted, reason := Authorize(orderId, PaymentId(orderId), a.paymentMethodId, Written(a.amount),
            a.currency);
          if ok {
            var body := if accepted then PaymentAuthorized(PaymentId(orderId)) else PaymentFailed(reason);
            ok := AppendEvent(orderId, body, commandId, a.version);
          }
          return ok, ok;
        case Authorized =>
          ok := AppendEvent(orderId, OrderConfirmed, commandId, a.version);
          return ok, ok;
        case PayFailed =>
          ok := Release(a.reservationId, a.reason);
          if ok {
            ok := AppendEvent(orderId, InventoryReleased(a.reservationId, a.reason), commandId, a.version);
          }
          return ok, ok;
        case Released =>
          ok := AppendEvent(orderId, OrderFailed(a.reason), commandId, a.version);
          return ok, ok;
        case ReserveFailed =>
          ok := AppendEvent(orderId, OrderFailed(a.reason), commandId, a.version);
          return ok, ok;
        case _ =>
          return true, false;
      }
    }

    method CommandApplied(orderId: string, commandId: string) returns (applied: bool)
      ensures applied == CommandAlreadyApplied(Value(), orderId, commandId)
    {
      if commandId == "" { return false; }
      var stream := ReadStream(orderId);
      for i := 0 to |stream|
        invariant forall j | 0 <= j < i :: stream[j].sourceCommandId != commandId
      {
        if stream[i].sourceCommandId == commandId {
          assert stream[i] in stream;
          return true;
        }
      }
      applied := false;
    }

    method RunWorkflow(orderId: string, commandId: string, start: Option<StartCommand>, max: nat) returns (ok: bool)
      modifies this
      ensures var ran := Orders.RunWorkflow(old(Value()), orderId, commandId, start, max);
              ok == ran.Some? && (ok ==> Value() == ran.value)
    {
      hide Fold, Advance, CommandAlreadyApplied, Orders.SaveProjection, Stream;
      var applied := CommandApplied(orderId, commandId);
      if applied {
        SaveProjection(orderId);
        return true;
      }
      var step := 0;
      while step < max
        invariant 0 <= step <= max
        invariant RunSteps(old(Value()), orderId, commandId, start, max)
               == RunSteps(Value(), orderId, commandId, start, max - step)
      {
        var stream := ReadStream(orderId);
        var before := FoldStream(stream, orderId);
        if Terminal(before.status) { break; }
        if before.version > 0 && orderId in stopAt && stopAt[orderId] == before.status { break; }
        var moved;
        ok, moved := AdvanceOnce(orderId, commandId, start);
        if !ok { return false; }
        if !moved { break; }
        SaveProjection(orderId);
        step := step + 1;
      }
      assert RunSteps(old(Value()), orderId, commandId, start, max) == Some(Value());
      SaveProjection(orderId);
      ok := true;
    }

    /** A call inside update: the document is loaded, changed and saved, unless the call throws. */
    method Update(call: Call) returns (ok: bool)
      modifies this
      ensures Value() == Apply(old(Value()), call) && ok == Perform(old(Value()), call).Some?
    {
      hide Orders.RunWorkflow, Orders.Rebuild;
      var loaded := (events, stock, reservations, released, payments);
      var others := (paymentMethods, paymentAttempts, readModels, stopAt);
      ok := true;
      match call {
        case Work(orderId, commandId, start, max) => ok := RunWorkflow(orderId, commandId, start, max);
        case RebuildProjection(orderId) => ok := Rebuild(orderId);
        case DeleteProjection(orderId) => readModels := readModels - {orderId};
        case SetStop(orderId, status) => stopAt := stopAt[orderId := status];
        case ClearStop(orderId) => stopAt := stopAt - {orderId};
      }
      if !ok {
        events, stock, reservations, released, payments := loaded.0, loaded.1, loaded.2, loaded.3, loaded.4;
        paymentMethods, paymentAttempts, readModels, stopAt := others.0, others.1, others.2, others.3;
      }
    }
  }

  lemma {:induction false} ShortStays(stock: map<string, int>, lines: seq<Line>, n: nat)
    requires n <= |lines| && FirstShort(stock, lines[..n]).Some?
    ensures FirstShort(stock, lines) == FirstShort(stock, lines[..n])
    decreases |lines|
  {
    if n < |lines| {
      var front := lines[..|lines| - 1];
      assert front[..n] == lines[..n];
      ShortStays(stock, front, n);
    } else {
      assert lines[..n] == lines;
    }
  }

  lemma {:induction false} TakeStaysNone(stock: map<string, int>, lines: seq<Line>, n: nat)
    requires n <= |lines| && Take(stock, lines[..n]) == None
    ensures Take(stock, lines) == None
    decreases |lines|
  {
    if n < |lines| {
      var front := lines[..|lines| - 1];
      assert front[..n] == lines[..n];
      TakeStaysNone(stock, front, n);
    } else {
      assert lines[..n] == lines;
    }
  }

  lemma {:induction false} GiveStaysNone(stock: map<string, int>, lines: seq<Line>, n: nat)
    requires n <= |lines| && Give(stock, lines[..n]) == None
    ensures Give(stock, lines) == None
    decreases |lines|
  {
    if n < |lines| {
      var front := lines[..|lines| - 1];
      assert front[..n] == lines[..n];
      GiveStaysNone(stock, front, n);
    } else {
      assert lines[..n] == lines;
    }
  }
}
