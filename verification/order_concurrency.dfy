// The order document under the lock: concurrent calls leave what some sequence of calls leaves.
module OrderConcurrency {
  import opened Orders
  import opened OrderStock
  import opened OrderRuns
  import Store = StateStore

  /** The function a call hands to update. */
  function UpdateOf(call: Call): Store.Update<Document> {
    (doc: Document) => Perform(doc, call)
  }

  ghost predicate IsCall(f: Store.Update<Document>) {
    exists call :: f == UpdateOf(call)
  }

  /** Callers only ever update the document with calls. */
  ghost predicate OnlyCalls(steps: seq<Store.Label<Document>>) {
    forall i | 0 <= i < |steps| && steps[i].Call? :: IsCall(steps[i].f)
  }

  ghost predicate CallerOurs(c: Store.Caller<Document>) {
    c.Acquiring? || c.Locked? || c.Loaded? ==> IsCall(c.f)
  }

  ghost predicate HistoryOurs(history: seq<Store.Entry<Document>>) {
    forall i | 0 <= i < |history| :: IsCall(history[i].f)
  }

  ghost predicate Ours(s: Store.System<Document>) {
    (forall p :: CallerOurs(Store.At(s, p))) && HistoryOurs(s.history)
  }

  lemma MarkOurs(history: seq<Store.Entry<Document>>, token: nat, outcome: Store.Outcome)
    requires HistoryOurs(history)
    ensures HistoryOurs(Store.Mark(history, token, outcome))
  {
    hide IsCall;
    Store.MarkKeeps(history, token, outcome);
  }

  lemma HistoryStaysOurs(s: Store.System<Document>, step: Store.Label<Document>)
    requires Ours(s) && Store.Next(s, step).Some?
    ensures HistoryOurs(Store.Next(s, step).value.history)
  {
    hide IsCall, Store.Mark, Store.CompareAndDelete, HistoryOurs;
    match step
    case Acquire(p) => OneMoreOurs(s.history, Store.Entry(p, Store.At(s, p).token, Store.At(s, p).f, Store.Pending));
    case Compute(p) => MarkOurs(s.history, Store.At(s, p).token, Store.Done);
    case Save(p) => MarkOurs(s.history, Store.At(s, p).token, Store.Done);
    case Fail(p) => MarkOurs(s.history, Store.At(s, p).token, Store.Failed);
    case Crash(p) =>
      if Store.Working(Store.At(s, p)) { MarkOurs(s.history, Store.At(s, p).token, Store.Failed); }
    case _ =>
  }

  lemma OneMoreOurs(history: seq<Store.Entry<Document>>, e: Store.Entry<Document>)
    requires HistoryOurs(history) && IsCall(e.f)
    ensures HistoryOurs(history + [e])
  {
    hide IsCall;
  }

  lemma CallersStayOurs(s: Store.System<Document>, step: Store.Label<Document>)
    requires Ours(s) && Store.Next(s, step).Some? && (step.Call? ==> IsCall(step.f))
    ensures forall p :: CallerOurs(Store.At(Store.Next(s, step).value, p))
  {
    hide IsCall, Store.Mark, Store.CompareAndDelete, HistoryOurs;
    var t := Store.Next(s, step).value;
    if step.Tick? || step.Expire? {
      assert forall q :: Store.At(t, q) == Store.At(s, q);
    } else {
      assert forall q :: q != step.p ==> Store.At(t, q) == Store.At(s, q);
      assert CallerOurs(Store.At(s, step.p));
      assert CallerOurs(Store.At(t, step.p));
    }
  }

  lemma {:induction false} RunStaysOurs(doc: Document, steps: seq<Store.Label<Document>>)
    requires Store.Execute(doc, steps).Some? && OnlyCalls(steps)
    ensures Ours(Store.Execute(doc, steps).value)
  {
    hide Store.Next, IsCall, CallerOurs;
    if steps == [] {
      NothingOurs(doc);
    } else {
      var front, last := steps[..|steps| - 1], steps[|steps| - 1];
      RunStaysOurs(doc, front);
      HistoryStaysOurs(Store.Execute(doc, front).value, last);
      CallersStayOurs(Store.Execute(doc, front).value, last);
    }
  }

  lemma NothingOurs(doc: Document)
    ensures Ours(Store.Start(doc))
  {
  }

  lemma RunOneMore(doc: Document, calls: seq<Call>, call: Call)
    ensures Run(doc, calls + [call]) == Apply(Run(doc, calls), call)
  {
    hide Apply;
    assert (calls + [call])[..|calls|] == calls;
  }

  lemma {:induction false} InOrderIsRun(doc: Document, history: seq<Store.Entry<Document>>) returns (calls: seq<Call>)
    requires HistoryOurs(history)
    ensures Store.InOrder(doc, history) == Run(doc, calls) && |calls| <= |history|
  {
    hide Run, Perform;
    if history == [] {
      calls := [];
      NoCalls(doc);
    } else {
      var front, last := history[..|history| - 1], history[|history| - 1];
      calls := InOrderIsRun(doc, front);
      if last.outcome.Done? && last.f(Store.InOrder(doc, front)).Some? {
        var call :| last.f == UpdateOf(call);
        RunOneMore(doc, calls, call);
        calls := calls + [call];
      }
    }
  }

  lemma NoCalls(doc: Document)
    ensures Run(doc, []) == doc
  {
  }

  /** However workflow calls run concurrently, while callers do not overlap the document is the one
      that some sequence of the calls leaves. */
  lemma ConcurrentCallsAreARun(doc: Document, steps: seq<Store.Label<Document>>) returns (calls: seq<Call>)
    requires Store.Execute(doc, steps).Some? && Store.NoOverlap(doc, steps) && OnlyCalls(steps)
    ensures Store.Execute(doc, steps).value.doc == Run(doc, calls)
  {
    hide Store.Execute, Store.NoOverlap, OnlyCalls, Run, HistoryOurs, Store.InOrder;
    RunStaysOurs(doc, steps);
    Store.UpdatesAreAtomic(doc, steps);
    calls := InOrderIsRun(doc, Store.Execute(doc, steps).value.history);
  }

  /** So concurrent calls that each finish within the lock's time keep every order sound and the stock
      conserved. */
  lemma ConcurrentStockIsConserved(stock: map<string, int>, methods: map<string, PaymentMethod>,
                                   steps: seq<Store.Label<Document>>, sku: string)
    requires Store.Execute(Seeded(stock, methods), steps).Some? && OnlyCalls(steps) && sku in stock
    requires Store.Timely(Seeded(stock, methods), steps)
    ensures var doc := Store.Execute(Seeded(stock, methods), steps).value.doc;
            AllGood(doc) && sku in doc.stock && doc.stock[sku] + HeldTotal(doc, sku) == stock[sku]
  {
    hide *;
    var seed := Seeded(stock, methods);
    Store.TimelyLocksHold(seed, steps);
    Store.HeldLocksDoNotOverlap(seed, steps);
    var calls := ConcurrentCallsAreARun(seed, steps);
    ReachableAllGood(stock, methods, calls);
    StockIsConserved(stock, methods, calls, sku);
  }

  lemma ReachableAllGood(stock: map<string, int>, methods: map<string, PaymentMethod>, calls: seq<Call>)
    ensures AllGood(Run(Seeded(stock, methods), calls))
  {
    hide Run, AllGood, Seeded;
    ReachableIsGood(stock, methods, calls);
  }
}
