// Where the stock goes: what is available plus what accepted, unreleased reservations hold never changes.
module OrderStock {
  import opened Orders
  import opened OrderLaws

  // ---- Taking and giving line by line -----------------------------------------------------------------

  function QuantityIn(lines: seq<Line>, sku: string): int {
    if lines == [] then 0
    else
      var last := lines[|lines| - 1];
      QuantityIn(lines[..|lines| - 1], sku) + if last.sku == sku then last.quantity else 0
  }

  lemma {:induction false} TakeChanges(stock: map<string, int>, lines: seq<Line>)
    requires Take(stock, lines).Some?
    ensures var taken := Take(stock, lines).value;
            taken.Keys == stock.Keys
            && forall sku | sku in stock :: taken[sku] == stock[sku] - QuantityIn(lines, sku)
    ensures forall l | l in lines :: l.sku in stock
  {
    if lines != [] {
      TakeChanges(stock, lines[..|lines| - 1]);
      assert lines == lines[..|lines| - 1] + [lines[|lines| - 1]];
    }
  }

  lemma {:induction false} GiveChanges(stock: map<string, int>, lines: seq<Line>)
    requires forall l | l in lines :: l.sku in stock
    ensures Give(stock, lines).Some?
    ensures var given := Give(stock, lines).value;
            given.Keys == stock.Keys
            && forall sku | sku in stock :: given[sku] == stock[sku] + QuantityIn(lines, sku)
  {
    if lines != [] {
      assert forall l | l in lines[..|lines| - 1] :: l in lines;
      GiveChanges(stock, lines[..|lines| - 1]);
    }
  }

  // ---- What reservations hold ---------------------------------------------------------------------------

  function Share(r: Reservation, released: bool, sku: string): int {
    if r.accepted && !released then QuantityIn(r.lines, sku) else 0
  }

  /** The quantity of a SKU that accepted reservations hold and that was not released. */
  ghost function Held(reservations: map<string, Reservation>, released: map<string, string>, sku: string): int
    decreases |reservations|
  {
    if reservations == map[] then 0
    else
      var k :| k in reservations;
      Share(reservations[k], k in released, sku) + Held(reservations - {k}, released, sku)
  }

  lemma {:induction false} HeldWithout(reservations: map<string, Reservation>, released: map<string, string>,
                                       sku: string, k: string)
    requires k in reservations
    ensures Held(reservations, released, sku)
         == Share(reservations[k], k in released, sku) + Held(reservations - {k}, released, sku)
    decreases |reservations|
  {
    hide Share;
    var j :| j in reservations && Held(reservations, released, sku)
             == Share(reservations[j], j in released, sku) + Held(reservations - {j}, released, sku);
    if j != k {
      var rest := reservations - {j};
      HeldWithout(rest, released, sku, k);
      assert rest - {k} == (reservations - {k}) - {j};
      HeldWithout(reservations - {k}, released, sku, j);
    }
  }

  lemma {:induction false} HeldIgnores(reservations: map<string, Reservation>, r1: map<string, string>,
                                       r2: map<string, string>, sku: string)
    requires forall k | k in reservations :: k in r1 <==> k in r2
    ensures Held(reservations, r1, sku) == Held(reservations, r2, sku)
    decreases |reservations|
  {
    hide Share;
    if reservations != map[] {
      var k :| k in reservations && Held(reservations, r1, sku)
               == Share(reservations[k], k in r1, sku) + Held(reservations - {k}, r1, sku);
      HeldIgnores(reservations - {k}, r1, r2, sku);
      HeldWithout(reservations, r2, sku, k);
    }
  }

  function HeldIn(doc: Document, k: string, sku: string): int {
    if k in doc.reservations then Share(doc.reservations[k], k in doc.released, sku) else 0
  }

  ghost function HeldTotal(doc: Document, sku: string): int {
    Held(doc.reservations, doc.released, sku)
  }

  lemma SameWithout<V>(m: map<string, V>, n: map<string, V>, k: string)
    requires forall j | j != k :: Lookup(n, j) == Lookup(m, j)
    ensures n - {k} == m - {k}
  {
    forall j | j != k ensures (j in n) == (j in m) && (j in n ==> n[j] == m[j]) {
      assert Lookup(n, j) == Lookup(m, j);
    }
  }

  /** When only one reservation id is touched, the total moves by what that id's share moves. */
  lemma HeldMoves(doc: Document, d: Document, k: string, sku: string)
    requires forall j | j != k :: Lookup(d.reservations, j) == Lookup(doc.reservations, j)
    requires forall j | j != k :: Lookup(d.released, j) == Lookup(doc.released, j)
    ensures HeldTotal(d, sku) - HeldIn(d, k, sku) == HeldTotal(doc, sku) - HeldIn(doc, k, sku)
  {
    hide Share, Held;
    var rest := doc.reservations - {k};
    SameWithout(doc.reservations, d.reservations, k);
    forall j | j in rest ensures j in doc.released <==> j in d.released {
      assert Lookup(d.released, j) == Lookup(doc.released, j);
    }
    HeldIgnores(rest, doc.released, d.released, sku);
    SplitTotal(doc, k, sku);
    SplitTotal(d, k, sku);
  }

  lemma SplitTotal(doc: Document, k: string, sku: string)
    ensures HeldTotal(doc, sku) == HeldIn(doc, k, sku) + Held(doc.reservations - {k}, doc.released, sku)
  {
    hide Share, Held;
    if k in doc.reservations {
      HeldWithout(doc.reservations, doc.released, sku, k);
    } else {
      assert doc.reservations - {k} == doc.reservations;
    }
  }

  /** What an order with this history holds. */
  function HeldBy(b: seq<Body>, sku: string): int {
    if |b| >= 2 && b[1].InventoryReserved? && !(|b| >= 4 && b[2].PaymentFailed?) then QuantityIn(Lines(b), sku) else 0
  }

  lemma RecordedHolds(doc: Document, orderId: string, b: seq<Body>, sku: string)
    requires Recorded(doc, orderId, b) && Legal(b, orderId)
    ensures HeldIn(doc, ReservationId(orderId), sku) == HeldBy(b, sku)
  {
    hide ReservationId, PaymentId, QuantityIn, PaymentFor, AttemptFor;
  }

  /** What an order holds changes when it reserves and when it releases. */
  lemma HeldByNext(b: seq<Body>, body: Body, sku: string)
    requires b != []
    ensures HeldBy(b + [body], sku) - HeldBy(b, sku)
         == if |b| == 1 && body.InventoryReserved? then QuantityIn(Lines(b), sku)
            else if |b| == 3 && b[1].InventoryReserved? && b[2].PaymentFailed? then -QuantityIn(Lines(b), sku)
            else 0
  {
    hide QuantityIn;
    var c := b + [body];
    assert c[0] == b[0] && c[|b|] == body && Lines(c) == Lines(b);
    assert |b| >= 2 ==> c[1] == b[1];
    assert |b| >= 3 ==> c[2] == b[2];
  }

  lemma StatusPlaces(b: seq<Body>, orderId: string)
    requires Legal(b, orderId) && b != []
    ensures StatusOf(b) == Created <==> |b| == 1
    ensures StatusOf(b) == PayFailed <==> |b| == 3 && b[1].InventoryReserved? && b[2].PaymentFailed?
    ensures |b| == 1 ==> Lines(b) == b[0].lines && b[0].OrderStarted? && b[|b| - 1] == b[0]
  {
    hide ReservationId, PaymentId;
  }

  /** A step moves stock between the shelf and the order, and nothing else. */
  lemma NextHolds(b: seq<Body>, stock: map<string, int>, methods: map<string, PaymentMethod>, orderId: string)
    requires Legal(b, orderId) && b != [] && LinesStocked(b, stock) && NextStock(b, stock).Some?
    ensures var next, c := NextStock(b, stock).value, b + [NextBody(b, stock, methods, orderId)];
            && next.Keys == stock.Keys && LinesStocked(c, next)
            && forall sku | sku in stock :: next[sku] + HeldBy(c, sku) == stock[sku] + HeldBy(b, sku)
  {
    hide QuantityIn, Take, Give, FirstShort, ShortReason, ReservationId, PaymentId, MethodIn, HeldBy, StatusOf, Legal;
    StatusPlaces(b, orderId);
    var body := NextBody(b, stock, methods, orderId);
    var c := b + [body];
    assert Lines(c) == Lines(b) && c[|b|] == body && (|b| >= 2 ==> c[1] == b[1]);
    if StatusOf(b) == Created && FirstShort(stock, Lines(b)).None? {
      TakeChanges(stock, Lines(b));
    } else if StatusOf(b) == PayFailed {
      GiveChanges(stock, Lines(b));
    }
    forall sku | sku in stock
      ensures NextStock(b, stock).value[sku] + HeldBy(c, sku) == stock[sku] + HeldBy(b, sku)
    {
      HeldByNext(b, body, sku);
    }
  }

  /** Stocked and held together are the same in both documents, SKU by SKU. */
  ghost predicate Balanced(doc: Document, d: Document) {
    && d.stock.Keys == doc.stock.Keys
    && forall sku | sku in doc.stock :: d.stock[sku] + HeldTotal(d, sku) == doc.stock[sku] + HeldTotal(doc, sku)
  }
}
