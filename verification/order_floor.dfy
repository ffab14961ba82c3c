// When stock cannot go below zero, and the input with which it does.
module OrderFloor {
  import opened Wrappers
  import opened Orders
  import opened OrderLaws
  import opened OrderStock
  import opened OrderRuns
  import opened OrderRepeats

  ghost predicate NonNegative(stock: map<string, int>) {
    forall sku | sku in stock :: stock[sku] >= 0
  }

  /** No negative quantity, and every SKU on at most one line. */
  ghost predicate Clean(lines: seq<Line>) {
    && (forall i | 0 <= i < |lines| :: lines[i].quantity >= 0)
    && (forall i, j | 0 <= i < j < |lines| :: lines[i].sku != lines[j].sku)
  }

  lemma {:induction false} CoveredLineByLine(stock: map<string, int>, lines: seq<Line>)
    ensures FirstShort(stock, lines) == None
            <==> forall i | 0 <= i < |lines| :: lines[i].quantity <= Available(stock, lines[i].sku)
  {
    hide Available;
    if lines != [] {
      var front, last := lines[..|lines| - 1], lines[|lines| - 1];
      CoveredLineByLine(stock, front);
      assert forall i | 0 <= i < |front| :: front[i] == lines[i];
    }
  }

  lemma {:induction false} CleanQuantity(lines: seq<Line>, sku: string)
    requires Clean(lines)
    ensures QuantityIn(lines, sku) >= 0
    ensures forall i | 0 <= i < |lines| && lines[i].sku == sku :: QuantityIn(lines, sku) == lines[i].quantity
    ensures (forall i | 0 <= i < |lines| :: lines[i].sku != sku) ==> QuantityIn(lines, sku) == 0
  {
    if lines != [] {
      var front := lines[..|lines| - 1];
      assert forall i | 0 <= i < |front| :: front[i] == lines[i];
      CleanQuantity(front, sku);
    }
  }

  /** An accepted reservation leaves no SKU below zero exactly when, SKU by SKU, its lines together
      ask for no more than there is. */
  lemma TakeStaysNonNegativeExactly(stock: map<string, int>, lines: seq<Line>)
    requires Take(stock, lines).Some?
    ensures NonNegative(Take(stock, lines).value) <==> forall sku | sku in stock :: QuantityIn(lines, sku) <= stock[sku]
  {
    hide Take, QuantityIn;
    TakeChanges(stock, lines);
    var taken := Take(stock, lines).value;
    assert forall sku | sku in stock :: taken[sku] >= 0 <==> QuantityIn(lines, sku) <= stock[sku];
  }

  /** Giving back leaves no SKU below zero exactly when no SKU's lines together are more negative than
      its stock makes up for, which takes negative quantities. */
  lemma GiveStaysNonNegativeExactly(stock: map<string, int>, lines: seq<Line>)
    requires forall l | l in lines :: l.sku in stock
    ensures Give(stock, lines).Some?
    ensures NonNegative(Give(stock, lines).value)
            <==> forall sku | sku in stock :: -QuantityIn(lines, sku) <= stock[sku]
  {
    hide Give, QuantityIn;
    GiveChanges(stock, lines);
    var given := Give(stock, lines).value;
    assert forall sku | sku in stock :: given[sku] >= 0 <==> -QuantityIn(lines, sku) <= stock[sku];
  }

  /** The check looks at each line alone, so two lines of one SKU can take twice what there is. */
  lemma RepeatedSkuOversells(sku: string, quantity: int)
    requires quantity > 0
    ensures var lines := [Line(sku, quantity), Line(sku, quantity)];
            FirstShort(map[sku := quantity], lines) == None
                && Take(map[sku := quantity], lines) == Some(map[sku := -quantity])
  {
    var one, stock := Line(sku, quantity), map[sku := quantity];
    var lines := [one, one];
    assert lines[..1] == [one] && [one][..0] == [];
    assert FirstShort(stock, [one]) == None && FirstShort(stock, lines) == None;
    assert Take(stock, []) == Some(stock) && Take(stock, [one]) == Some(stock[sku := 0]);
    assert Take(stock, lines) == Some(stock[sku := 0][sku := -quantity]);
    assert stock[sku := 0][sku := -quantity] == map[sku := -quantity];
  }

  lemma CleanTake(stock: map<string, int>, lines: seq<Line>)
    requires Clean(lines) && NonNegative(stock) && FirstShort(stock, lines) == None && Take(stock, lines).Some?
    ensures NonNegative(Take(stock, lines).value)
  {
    hide Take, QuantityIn, FirstShort;
    CoveredLineByLine(stock, lines);
    TakeStaysNonNegativeExactly(stock, lines);
    forall sku | sku in stock ensures QuantityIn(lines, sku) <= stock[sku] {
      CleanQuantity(lines, sku);
      if i :| 0 <= i < |lines| && lines[i].sku == sku {
        assert lines[i].quantity <= Available(stock, lines[i].sku);
      }
    }
  }

  lemma CleanGive(stock: map<string, int>, lines: seq<Line>)
    requires Clean(lines) && NonNegative(stock) && forall l | l in lines :: l.sku in stock
    ensures Give(stock, lines).Some? && NonNegative(Give(stock, lines).value)
  {
    hide Give, QuantityIn, Clean;
    GiveChanges(stock, lines);
    forall sku | sku in stock ensures Give(stock, lines).value[sku] >= 0 {
      CleanQuantity(lines, sku);
    }
  }

  lemma CleanStep(doc: Document, o: string)
    requires Sound(doc, o) && History(doc, o) != [] && NonNegative(doc.stock) && Clean(Lines(History(doc, o)))
    requires NextStock(History(doc, o), doc.stock).Some?
    ensures NonNegative(NextStock(History(doc, o), doc.stock).value)
  {
    hide Sound, History, NonNegative, Clean, Take, Give, FirstShort, Legal, Lines;
    var b := History(doc, o);
    if StatusOf(b) == Created && FirstShort(doc.stock, Lines(b)) == None {
      CleanTake(doc.stock, Lines(b));
    } else if StatusOf(b) == PayFailed {
      LinesOfSound(doc, o);
      LegalIn(doc, o);
      StatusPlaces(b, o);
      CleanGive(doc.stock, Lines(b));
    }
  }

  ghost predicate Floor(doc: Document, o: string) {
    NonNegative(doc.stock) && Clean(Lines(History(doc, o)))
  }

  lemma MovedFloor(doc: Document, d: Document, o: string, start: Option<StartCommand>)
    requires Sound(doc, o) && Moved(doc, d, o, start) && Floor(doc, o)
    requires start.Some? ==> Clean(start.value.lines)
    ensures Floor(d, o)
  {
    hide Sound, History, NonNegative, Clean, NextStock, NextBody, Touched, Terminal, StatusOf;
    var b := History(doc, o);
    if b != [] {
      CleanStep(doc, o);
      assert History(d, o)[0] == b[0];
    }
  }

  lemma {:induction false} RunStepsFloor(doc: Document, o: string, commandId: string, start: Option<StartCommand>,
                                         max: nat)
    requires Sound(doc, o) && Floor(doc, o)
    requires start.Some? ==> Clean(start.value.lines)
    ensures var ran := RunSteps(doc, o, commandId, start, max); ran.Some? ==> Floor(ran.value, o)
    decreases max
  {
    hide Sound, History, NonNegative, Clean, Advance, Halted, SaveProjection, SameElsewhere, Balanced, NextStock,
      NextBody,
      Shown, Terminal, StatusOf, Lines;
    if max > 0 && !Halted(doc, o) && Advance(doc, o, commandId, start).Moves? {
      var d := Advance(doc, o, commandId, start).doc;
      AdvanceKeeps(doc, o, commandId, start);
      MovedFloor(doc, d, o, start);
      SavingKeeps(d, o);
      SavedHistory(d, o, o);
      SavedStock(d, o);
      RunStepsFloor(SaveProjection(d, o), o, commandId, start, max - 1);
    }
  }

  lemma SavedStock(doc: Document, o: string)
    ensures SaveProjection(doc, o).stock == doc.stock
  {
  }

  ghost predicate AllClean(doc: Document) {
    forall o :: Clean(Lines(History(doc, o)))
  }

  ghost predicate CleanCall(call: Call) {
    call.Work? && call.start.Some? ==> Clean(call.start.value.lines)
  }

  lemma CallFloor(doc: Document, call: Call)
    requires AllGood(doc) && NonNegative(doc.stock) && AllClean(doc) && CleanCall(call)
    ensures NonNegative(Apply(doc, call).stock) && AllClean(Apply(doc, call))
  {
    hide AllGood, History, NonNegative, Clean, RunSteps, SaveProjection, Sound, Lines, CommandAlreadyApplied, Stream,
      SameElsewhere;
    var d := Apply(doc, call);
    match call
    case Work(p, commandId, start, max) =>
      SoundIn(doc, p);
      assert Clean(Lines(History(doc, p)));
      WorkKeeps(doc, p, commandId, start, max);
      RunStepsFloor(doc, p, commandId, start, max);
      SavedStock(doc, p);
      SavedHistory(doc, p, p);
      var ran := RunSteps(doc, p, commandId, start, max);
      if ran.Some? {
        SavedStock(ran.value, p);
        SavedHistory(ran.value, p, p);
      }
      if RunWorkflow(doc, p, commandId, start, max).Some? {
        OthersStayClean(doc, d, p);
      }
    case RebuildProjection(p) =>
      SavedStock(doc, p);
      forall o ensures History(d, o) == History(doc, o) { SavedHistory(doc, p, o); }
    case _ =>
      forall o ensures History(d, o) == History(doc, o) { SameHistory(doc, d, o); }
  }

  lemma OthersStayClean(doc: Document, d: Document, p: string)
    requires SameElsewhere(doc, d, p) && AllClean(doc) && Clean(Lines(History(d, p)))
    ensures AllClean(d)
  {
    hide History, SameElsewhere, Clean, Lines;
    forall o ensures Clean(Lines(History(d, o))) {
      if o != p {
        ElsewhereHistory(doc, d, p, o);
        assert Clean(Lines(History(doc, o)));
      }
    }
  }

  /** When no started order has negative quantities or a SKU twice, no interleaving of calls takes
      any stock below zero. */
  lemma {:induction false} StockStaysNonNegative(stock: map<string, int>, methods: map<string, PaymentMethod>,
                                                 calls: seq<Call>)
    requires NonNegative(stock) && forall i | 0 <= i < |calls| :: CleanCall(calls[i])
    ensures var doc := Run(Seeded(stock, methods), calls); NonNegative(doc.stock) && AllClean(doc)
  {
    hide Apply, NonNegative, CleanCall, AllClean, Seeded;
    if calls == [] {
      SeededIsClean(stock, methods);
    } else {
      var front := calls[..|calls| - 1];
      StockStaysNonNegative(stock, methods, front);
      ReachableIsGood(stock, methods, front);
      CallFloor(Run(Seeded(stock, methods), front), calls[|calls| - 1]);
    }
  }

  lemma SeededIsClean(stock: map<string, int>, methods: map<string, PaymentMethod>)
    ensures Seeded(stock, methods).stock == stock && AllClean(Seeded(stock, methods))
  {
  }
}
