// Repeating a command changes nothing; events are only ever added; the public status never goes back.
module OrderRepeats {
  import opened Wrappers
  import opened Numerals
  import opened Binary64
  import opened DecimalWire
  import opened Orders
  import opened OrderLaws
  import opened OrderStock
  import opened OrderRuns

  // ---- The same command twice -----------------------------------------------------------------------------------

  /** d has one event more, stored under the command's id. */
  ghost predicate Signed(doc: Document, d: Document, o: string, commandId: string) {
    && |Stream(d, o)| == |Stream(doc, o)| + 1 && Stream(doc, o) <= Stream(d, o)
    && Stream(d, o)[|Stream(doc, o)|].sourceCommandId == commandId
  }

  lemma AppendSigns(doc: Document, d: Document, o: string, commandId: string, body: Body, expected: nat)
    requires d.events == doc.events
    ensures var step := Appended(AppendEvent(d, o, body, commandId, expected));
            step.Moves? ==> Signed(doc, step.doc, o, commandId)
  {
    hide ToText;
  }

  lemma ReserveKeepsEvents(doc: Document, o: string, id: string, lines: seq<Line>)
    ensures var r := Reserve(doc, o, id, lines); r.Some? ==> r.value.doc.events == doc.events
  {
    hide Take, FirstShort, ShortReason;
    var r := Reserve(doc, o, id, lines);
    if id in doc.reservations {
      assert r.value.doc.events == doc.events;
    } else if FirstShort(doc.stock, lines).Some? {
      assert r.value.doc.events == doc.events;
    } else {
      assert r.Some? ==> r.value.doc.events == doc.events;
    }
  }

  lemma AuthorizeKeepsEvents(doc: Document, o: string, id: string, methodId: string, amount: Double, currency: string)
    ensures var p := Authorize(doc, o, id, methodId, amount, currency); p.Some? ==> p.value.doc.events == doc.events
  {
    hide FromWire, Read, Written, MethodOf;
  }

  lemma ReleaseKeepsEvents(doc: Document, id: string, reason: string)
    ensures var d := Release(doc, id, reason); d.Some? ==> d.value.events == doc.events
  {
    hide Give;
  }

  lemma StepsSign(doc: Document, commandId: string, a: Aggregate)
    ensures var s := ReserveStep(doc, commandId, a); s.Moves? ==> Signed(doc, s.doc, a.orderId, commandId)
    ensures var s := AuthorizeStep(doc, commandId, a); s.Moves? ==> Signed(doc, s.doc, a.orderId, commandId)
    ensures var s := ReleaseStep(doc, commandId, a); s.Moves? ==> Signed(doc, s.doc, a.orderId, commandId)
  {
    hide Reserve, Authorize, Release, Written, ReservationId, PaymentId, AppendEvent, Signed, Appended;
    ReserveKeepsEvents(doc, a.orderId, ReservationId(a.orderId), a.lines);
    AuthorizeKeepsEvents(doc, a.orderId, PaymentId(a.orderId), a.paymentMethodId, Written(a.amount), a.currency);
    ReleaseKeepsEvents(doc, a.reservationId, a.reason);
    forall d: Document, body: Body | d.events == doc.events
      ensures var s := Appended(AppendEvent(d, a.orderId, body, commandId, a.version));
              s.Moves? ==> Signed(doc, s.doc, a.orderId, commandId)
    {
      AppendSigns(doc, d, a.orderId, commandId, body, a.version);
    }
  }

  lemma StartSigns(doc: Document, o: string, commandId: string, command: StartCommand, version: nat)
    ensures var s := StartOrder(doc, o, commandId, command, version); s.Moves? ==> Signed(doc, s.doc, o, commandId)
  {
    hide FromWire, Read, Written, AppendEvent, Signed, Appended;
    AppendSigns(doc, doc, o, commandId,
                OrderStarted(command.cartId, command.shippingAddressId, command.paymentMethodId, command.lines,
                             Written(Read(command.amount)), command.currency), version);
  }

  /** Whatever step is taken, it stores one event under the command's id. */
  lemma AdvanceSigns(doc: Document, o: string, commandId: string, start: Option<StartCommand>)
    requires Advance(doc, o, commandId, start).Moves?
    ensures Signed(doc, Advance(doc, o, commandId, start).doc, o, commandId)
  {
    hide Fold, StartOrder, ReserveStep, AuthorizeStep, ReleaseStep, AppendEvent, Signed, Appended;
    FoldKeepsId(Stream(doc, o), o);
    var a := Fold(Stream(doc, o), o);
    if a.version == 0 {
      StartSigns(doc, o, commandId, start.value, a.version);
    } else {
      StepsSign(doc, commandId, a);
      AppendSigns(doc, doc, o, commandId, OrderConfirmed, a.version);
      AppendSigns(doc, doc, o, commandId, OrderFailed(a.reason), a.version);
    }
  }

  lemma SavingKeepsStream(doc: Document, o: string)
    ensures Stream(SaveProjection(doc, o), o) == Stream(doc, o)
    ensures SaveProjection(SaveProjection(doc, o), o) == SaveProjection(doc, o)
    ensures SaveProjection(doc, o).stopAt == doc.stopAt
  {
    hide Fold, ProjectionOf;
    var d := SaveProjection(doc, o);
    assert Stream(d, o) == Stream(doc, o) && CurrentState(d, o) == CurrentState(doc, o);
    assert d.readModels[o := CurrentState(doc, o)] == d.readModels;
  }

  /** A loop either stores nothing, because it stops at once, or leaves the command's id behind. */
  lemma {:induction false} RunStepsSigns(doc: Document, o: string, commandId: string, start: Option<StartCommand>,
                                         max: nat)
    requires RunSteps(doc, o, commandId, start, max).Some?
    ensures var d := RunSteps(doc, o, commandId, start, max).value;
            && Stream(doc, o) <= Stream(d, o)
            && (d == doc || exists e | e in Stream(d, o) :: e.sourceCommandId == commandId)
            && (d == doc ==> max == 0 || Halted(doc, o) || Advance(doc, o, commandId, start).Stays?)
    decreases max
  {
    hide Stream, Halted, Advance, SaveProjection;
    if max > 0 && !Halted(doc, o) && Advance(doc, o, commandId, start).Moves? {
      var step := Advance(doc, o, commandId, start).doc;
      AdvanceSigns(doc, o, commandId, start);
      SavingKeepsStream(step, o);
      RunStepsSigns(SaveProjection(step, o), o, commandId, start, max - 1);
      var d := RunSteps(SaveProjection(step, o), o, commandId, start, max - 1).value;
      assert Stream(d, o)[|Stream(doc, o)|] in Stream(d, o);
      assert |Stream(d, o)| > |Stream(doc, o)|;
    }
  }

  lemma StopsAgain(doc: Document, d: Document, o: string, commandId: string, start: Option<StartCommand>)
    requires Stream(d, o) == Stream(doc, o) && d.stopAt == doc.stopAt
    ensures Halted(d, o) <==> Halted(doc, o)
    ensures Advance(doc, o, commandId, start).Stays? ==> Advance(d, o, commandId, start).Stays?
  {
    hide Fold, FromWire, Read, Written, Reserve, Authorize, Release, AppendEvent, ReservationId, PaymentId;
  }

  /** A call repeated at once with the same command id, step limit and hooks changes nothing: no
      event, no stock, no record, no projection. */
  lemma RepeatChangesNothing(doc: Document, o: string, commandId: string, start: Option<StartCommand>, max: nat)
    requires commandId != "" && RunWorkflow(doc, o, commandId, start, max).Some?
    ensures var d := RunWorkflow(doc, o, commandId, start, max).value;
            RunWorkflow(d, o, commandId, start, max) == Some(d)
  {
    hide Stream, Halted, Advance, SaveProjection;
    var d := RunWorkflow(doc, o, commandId, start, max).value;
    SavingKeepsStream(doc, o);
    if !CommandAlreadyApplied(doc, o, commandId) {
      RunStepsSigns(doc, o, commandId, start, max);
      var ran := RunSteps(doc, o, commandId, start, max).value;
      SavingKeepsStream(ran, o);
      if ran == doc {
        StopsAgain(doc, d, o, commandId, start);
      }
    }
  }

  // ---- The public status ---------------------------------------------------------------------------------------

  function Rank(status: Status): nat {
    match status
    case Absent => 0
    case Created => 1
    case Reserved => 2
    case Authorized => 3
    case _ => 4
  }

  lemma LongerRanksHigher(b: seq<Body>, c: seq<Body>, o: string)
    requires b <= c && Legal(c, o)
    ensures Rank(PublicStatus(StatusOf(b))) <= Rank(PublicStatus(StatusOf(c)))
  {
    hide ReservationId, PaymentId, FromWire;
    assert forall i | 0 <= i < |b| :: b[i] == c[i];
  }

  /** No call removes or changes an event of any order: ids, versions, command ids and bodies stay. */
  lemma CallExtends(doc: Document, call: Call, o: string)
    requires AllGood(doc)
    ensures Stream(doc, o) <= Stream(Apply(doc, call), o)
    ensures History(doc, o) <= History(Apply(doc, call), o)
  {
    hide AllGood, History, Stream, RunSteps, SameElsewhere, Balanced, Sound, Shown, SaveProjection,
      CommandAlreadyApplied;
    var d := Apply(doc, call);
    match call
    case Work(p, commandId, start, max) =>
      SoundIn(doc, p);
      WorkKeeps(doc, p, commandId, start, max);
      if RunWorkflow(doc, p, commandId, start, max).Some? {
        if o != p {
          ElsewhereHistory(doc, d, p, o);
        } else {
          WorkExtends(doc, o, commandId, start, max);
        }
      }
    case RebuildProjection(p) => SavedHistory(doc, p, o);
    case _ => SameHistory(doc, d, o);
    PrefixHistory(doc, d, o);
  }

  lemma WorkExtends(doc: Document, o: string, commandId: string, start: Option<StartCommand>, max: nat)
    ensures var ran := RunWorkflow(doc, o, commandId, start, max);
            ran.Some? ==> Stream(doc, o) <= Stream(ran.value, o)
  {
    hide Stream, RunSteps, SaveProjection, CommandAlreadyApplied;
    SavingKeepsStream(doc, o);
    var ran := RunSteps(doc, o, commandId, start, max);
    if ran.Some? {
      RunStepsSigns(doc, o, commandId, start, max);
      SavingKeepsStream(ran.value, o);
    }
  }

  lemma PrefixHistory(doc: Document, d: Document, o: string)
    requires Stream(doc, o) <= Stream(d, o)
    ensures History(doc, o) <= History(d, o)
  {
  }

  lemma ElsewhereHistory(doc: Document, d: Document, p: string, o: string)
    requires SameElsewhere(doc, d, p) && o != p
    ensures History(d, o) == History(doc, o) && Stream(d, o) == Stream(doc, o)
  {
    hide Bodies, ReservationId, PaymentId;
    assert Stream(d, o) == Stream(doc, o);
  }

  lemma SavedHistory(doc: Document, p: string, o: string)
    ensures History(SaveProjection(doc, p), o) == History(doc, o)
    ensures Stream(SaveProjection(doc, p), o) == Stream(doc, o)
  {
    hide Bodies, CurrentState;
  }

  lemma SameHistory(doc: Document, d: Document, o: string)
    requires d.events == doc.events
    ensures History(d, o) == History(doc, o) && Stream(d, o) == Stream(doc, o)
  {
    hide Bodies;
  }

  lemma StatusOfState(doc: Document, o: string)
    requires Sound(doc, o)
    ensures CurrentState(doc, o).status == PublicStatus(StatusOf(History(doc, o)))
  {
    hide FromWire, Recorded, LinesStocked, ReservationId, PaymentId, Read, Written, Legal, Numbered, PublicStatus;
    if History(doc, o) == [] {
      assert Fold(Stream(doc, o), o) == NoEvents(o);
    } else {
      FoldIsSummary(Stream(doc, o), o);
    }
  }

  /** No call of any kind moves what clients see of an order backwards, compensation included. */
  lemma StatusNeverGoesBack(doc: Document, call: Call, o: string)
    requires AllGood(doc)
    ensures Rank(CurrentState(doc, o).status) <= Rank(CurrentState(Apply(doc, call), o).status)
  {
    hide AllGood, History, Apply, Sound, CurrentState, Rank, PublicStatus, StatusOf, Legal;
    CallExtends(doc, call, o);
    CallKeeps(doc, call);
    SoundIn(doc, o);
    SoundIn(Apply(doc, call), o);
    StatusOfState(doc, o);
    StatusOfState(Apply(doc, call), o);
    LegalIn(Apply(doc, call), o);
    LongerRanksHigher(History(doc, o), History(Apply(doc, call), o), o);
  }

  lemma {:induction false} RunExtends(doc: Document, calls: seq<Call>, o: string)
    requires AllGood(doc)
    ensures AllGood(Run(doc, calls)) && Stream(doc, o) <= Stream(Run(doc, calls), o)
  {
    hide AllGood, Stream, Apply, History;
    if calls != [] {
      var front, last := calls[..|calls| - 1], calls[|calls| - 1];
      RunExtends(doc, front, o);
      CallExtends(Run(doc, front), last, o);
      CallKeeps(Run(doc, front), last);
    }
  }

  lemma NothingFollowsTheEnd(b: seq<Body>, c: seq<Body>, o: string)
    requires b <= c && Legal(c, o) && Terminal(StatusOf(b))
    ensures b == c
  {
    hide ReservationId, PaymentId;
    assert forall i | 0 <= i < |b| :: b[i] == c[i];
  }

  /** Along any run what clients see of an order never goes back, and once it is Confirmed or Failed
      its events and its state are final. */
  lemma RunNeverGoesBack(doc: Document, calls: seq<Call>, o: string)
    requires AllGood(doc)
    ensures var before, after := CurrentState(doc, o), CurrentState(Run(doc, calls), o);
            && Rank(before.status) <= Rank(after.status)
            && (Terminal(before.status) ==> after == before && Stream(Run(doc, calls), o) == Stream(doc, o))
  {
    hide AllGood, History, Run, Sound, CurrentState, Rank, StatusOf, Legal, Stream;
    var d := Run(doc, calls);
    RunExtends(doc, calls, o);
    PrefixHistory(doc, d, o);
    SoundIn(doc, o);
    SoundIn(d, o);
    StatusOfState(doc, o);
    StatusOfState(d, o);
    LegalIn(d, o);
    LongerRanksHigher(History(doc, o), History(d, o), o);
    if Terminal(CurrentState(doc, o).status) {
      NothingFollowsTheEnd(History(doc, o), History(d, o), o);
      SameLengthSameStream(doc, d, o);
    }
  }

  lemma SameLengthSameStream(doc: Document, d: Document, o: string)
    requires Stream(doc, o) <= Stream(d, o) && History(doc, o) == History(d, o)
    ensures Stream(d, o) == Stream(doc, o) && CurrentState(d, o) == CurrentState(doc, o)
  {
    hide Fold, ProjectionOf;
    assert |Stream(d, o)| == |History(d, o)|;
  }
}
