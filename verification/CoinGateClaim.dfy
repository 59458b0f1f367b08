/** One CoinGate order under any sequence of notifications: the atomic paid claim, and
    the effects that follow it one by one, interleaved with everything else. */
module CoinGateClaim {
  import opened Common
  import opened Commissions
  import opened Ledger
  import opened LedgerTheorems

  predicate IsPaidStatus(status: string) {
    status == "paid" || status == "confirmed"
  }

  /** The order row, the effects of past claims that have not run yet, and the ledger.
      `claims` counts the notifications that won the paid claim, `inserts` the engine
      calls for this order that put rows in. */
  datatype World = World(status: string, claims: nat, engineDue: bool, refundsDue: nat, inserts: nat, tables: Tables)

  /** A notification first makes its claim; the winner's engine call and a refund's
      reversal are later steps, and other calls may come in between. A handler that throws
      or dies before its later step takes that step with it. */
  datatype Event =
    | Deliver(status: string)
    | Engine(added: seq<Commission>)
    | EngineDies
    | Reverse
    | ReverseDies
    | Other(action: Action)

  ghost predicate NoRows(t: Tables, paymentRef: string) {
    forall i :: 0 <= i < |t.rows| ==> t.rows[i].paymentRef != paymentRef
  }

  /** No row of the order is EARNED or PAID. */
  ghost predicate NoLiveRow(t: Tables, paymentRef: string) {
    forall r :: r in t.rows && r.paymentRef == paymentRef ==> r.status == REVERSED
  }

  /** The claim: an update restricted to orders that are not paid yet. */
  function Claim(w: World, status: string): World {
    var claimed := !IsPaidStatus(w.status);
    var won := claimed && IsPaidStatus(status);
    w.(status := if claimed then status else w.status,
       claims := if won then w.claims + 1 else w.claims,
       engineDue := w.engineDue || won,
       refundsDue := if status == "refunded" then w.refundsDue + 1 else w.refundsDue)
  }

  ghost predicate EngineCall(added: seq<Commission>, paymentRef: string) {
    forall r :: r in added ==> NewRow(r) && r.paymentRef == paymentRef
  }

  ghost predicate Elsewhere(a: Action, paymentRef: string) {
    a.Accrue? ==> forall r :: r in a.added ==> r.paymentRef != paymentRef
  }

  ghost function Happen(w: World, e: Event, paymentRef: string): World {
    match e
    case Deliver(status) => Claim(w, status)
    case Engine(added) =>
      if !w.engineDue || !EngineCall(added, paymentRef) then w
      else if NoRows(w.tables, paymentRef) && added != [] then
        w.(engineDue := false, inserts := w.inserts + 1, tables := Step(w.tables, Accrue(added)))
      else w.(engineDue := false)
    case EngineDies => w.(engineDue := false)
    case Reverse =>
      if w.refundsDue == 0 then w
      else w.(refundsDue := w.refundsDue - 1, tables := Step(w.tables, Refund(paymentRef)))
    case ReverseDies => if w.refundsDue == 0 then w else w.(refundsDue := w.refundsDue - 1)
    case Other(a) => if Elsewhere(a, paymentRef) then w.(tables := Step(w.tables, a)) else w
  }

  ghost function History(w: World, events: seq<Event>, paymentRef: string): World
    decreases |events|
  {
    if events == [] then w else History(Happen(w, events[0], paymentRef), events[1..], paymentRef)
  }

  /** A new order: not paid, nothing due, nothing in the ledger. */
  ghost predicate Fresh(w: World, paymentRef: string) {
    && !IsPaidStatus(w.status) && w.claims == 0 && !w.engineDue && w.refundsDue == 0 && w.inserts == 0
    && NoRows(w.tables, paymentRef)
  }

  ghost predicate ClaimInv(w: World, paymentRef: string) {
    && w.claims <= 1
    && (IsPaidStatus(w.status) <==> w.claims == 1)
    && (w.engineDue || w.claims == 0 ==> w.inserts == 0 && NoRows(w.tables, paymentRef))
    && (w.engineDue ==> w.claims == 1)
    && w.inserts <= 1
  }

  /** A ledger call that accrues nothing for a payment leaves a payment without rows so. */
  lemma NoRowsStay(t: Tables, a: Action, paymentRef: string)
    requires NoRows(t, paymentRef) && Elsewhere(a, paymentRef)
    ensures NoRows(Step(t, a), paymentRef)
  {
    StepEvolves(t, a);
    var u := Step(t, a);
    forall i | 0 <= i < |u.rows|
      ensures u.rows[i].paymentRef != paymentRef
    {
      if i < |t.rows| {
        assert Evolves(t.rows[i], u.rows[i]);
      } else {
        NewRowsAreAdded(t.rows, a.added, i);
      }
    }
  }

  lemma HappenKeepsInv(w: World, e: Event, paymentRef: string)
    requires ClaimInv(w, paymentRef)
    ensures ClaimInv(Happen(w, e, paymentRef), paymentRef)
  {
    match e
    case Deliver(status) =>
    case Engine(added) =>
    case EngineDies =>
    case ReverseDies =>
    case Reverse =>
      if NoRows(w.tables, paymentRef) { NoRowsStay(w.tables, Refund(paymentRef), paymentRef); }
    case Other(a) =>
      if NoRows(w.tables, paymentRef) && Elsewhere(a, paymentRef) { NoRowsStay(w.tables, a, paymentRef); }
  }

  lemma {:induction false} HistoryKeepsInv(w: World, events: seq<Event>, paymentRef: string)
    requires ClaimInv(w, paymentRef)
    ensures ClaimInv(History(w, events, paymentRef), paymentRef)
    decreases |events|
  {
    if events != [] {
      HappenKeepsInv(w, events[0], paymentRef);
      HistoryKeepsInv(Happen(w, events[0], paymentRef), events[1..], paymentRef);
    }
  }

  lemma {:induction false} PaidNeverChanges(w: World, events: seq<Event>, paymentRef: string)
    requires IsPaidStatus(w.status)
    ensures History(w, events, paymentRef).status == w.status
    decreases |events|
  {
    if events != [] {
      PaidNeverChanges(Happen(w, events[0], paymentRef), events[1..], paymentRef);
    }
  }

  /** At most once, under every interleaving: one notification wins the claim, one engine
      call inserts rows, and a paid or confirmed status is final. */
  lemma AtMostOnce(w: World, first: seq<Event>, more: seq<Event>, paymentRef: string)
    requires Fresh(w, paymentRef)
    ensures var u := History(w, first, paymentRef);
            && u.claims <= 1 && u.inserts <= 1
            && (IsPaidStatus(u.status) ==> History(u, more, paymentRef).status == u.status)
  {
    HistoryKeepsInv(w, first, paymentRef);
    var u := History(w, first, paymentRef);
    if IsPaidStatus(u.status) {
      PaidNeverChanges(u, more, paymentRef);
    }
  }

  // ------------------------------------------------------------- refund after payment

  /** The winner's engine call is behind us, made or lost: no other will ever be due. */
  predicate EngineDone(w: World) {
    IsPaidStatus(w.status) && !w.engineDue
  }

  lemma NoLiveRowStays(t: Tables, a: Action, paymentRef: string)
    requires NoLiveRow(t, paymentRef) && Elsewhere(a, paymentRef)
    ensures NoLiveRow(Step(t, a), paymentRef)
  {
    assert Run(t, [a]) == Step(t, a) by { assert [a][1..] == []; }
    RefundIsFinal(t, [a], paymentRef);
  }

  lemma {:induction false} ReversedForGood(w: World, events: seq<Event>, paymentRef: string)
    requires EngineDone(w) && NoLiveRow(w.tables, paymentRef)
    ensures NoLiveRow(History(w, events, paymentRef).tables, paymentRef)
    decreases |events|
  {
    if events != [] {
      var next := Happen(w, events[0], paymentRef);
      match events[0] {
        case Other(a) => if Elsewhere(a, paymentRef) { NoLiveRowStays(w.tables, a, paymentRef); }
        case Reverse => NoLiveRowStays(w.tables, Refund(paymentRef), paymentRef);
        case _ =>
      }
      ReversedForGood(next, events[1..], paymentRef);
    }
  }

  /** A row the engine could still bring. */
  function LateRow(paymentRef: string): Commission {
    Commission("sponsor", "payer", paymentRef, CoinGate, 1, 100, 20.0, 20, "EUR", false, None, 0, EARNED, false, None,
               None)
  }

  lemma OneEvent(w: World, e: Event, paymentRef: string)
    ensures History(w, [e], paymentRef) == Happen(w, e, paymentRef)
  {
    assert [e][1..] == [];
  }

  lemma TwoEvents(w: World, e: Event, f: Event, paymentRef: string)
    ensures History(w, [e, f], paymentRef) == Happen(Happen(w, e, paymentRef), f, paymentRef)
  {
    assert [e, f][1..] == [f];
    OneEvent(Happen(w, e, paymentRef), f, paymentRef);
  }

  /** With the engine call not behind us, some continuation earns a commission again. */
  lemma LateEngineRevives(w: World, paymentRef: string)
    requires ClaimInv(w, paymentRef) && !EngineDone(w)
    ensures exists events :: !NoLiveRow(History(w, events, paymentRef).tables, paymentRef)
  {
    var row := LateRow(paymentRef);
    var ready := if w.engineDue then w else Happen(w, Deliver("paid"), paymentRef);
    var events := if w.engineDue then [Engine([row])] else [Deliver("paid"), Engine([row])];
    OneEvent(w, Engine([row]), paymentRef);
    TwoEvents(w, Deliver("paid"), Engine([row]), paymentRef);
    var end := Happen(ready, Engine([row]), paymentRef);
    assert History(w, events, paymentRef) == end;
    assert InsertRows(ready.tables.rows, [row][..0]) == ready.tables.rows;
    assert end.tables.rows == ready.tables.rows + [row];
    assert row in end.tables.rows;
  }

  /** When a refund is final: after a refund's reversal has run, no row of the order is
      ever EARNED or PAID again, in any continuation, if and only if the paid claim was
      won before and its engine call has already run, or died with its handler. A refund that arrives before the
      payment, or between the claim and the engine call, is not final. */
  lemma RefundFinalIff(w: World, paymentRef: string)
    requires ClaimInv(w, paymentRef) && w.refundsDue > 0
    ensures var u := Happen(w, Reverse, paymentRef);
            (forall events :: NoLiveRow(History(u, events, paymentRef).tables, paymentRef)) <==> EngineDone(w)
  {
    var u := Happen(w, Reverse, paymentRef);
    HappenKeepsInv(w, Reverse, paymentRef);
    assert NoLiveRow(u.tables, paymentRef);
    if EngineDone(w) {
      forall events
        ensures NoLiveRow(History(u, events, paymentRef).tables, paymentRef)
      {
        ReversedForGood(u, events, paymentRef);
      }
    } else {
      LateEngineRevives(u, paymentRef);
    }
  }

  lemma AccrueIntoNone(t: Tables, row: Commission, paymentRef: string)
    requires EngineCall([row], paymentRef)
    ensures NoRows(t, paymentRef) ==>
              Step(t, Accrue([row])).rows == t.rows + [row] && !NoLiveRow(Step(t, Accrue([row])), paymentRef)
  {
    assert row in [row];
    if NoRows(t, paymentRef) {
      assert InsertRows(t.rows, [row][..0]) == t.rows;
      assert row in t.rows + [row];
    }
  }

  /** Such a history, for every new order and every row its payment earns: the refund's
      reversal runs between the paid claim and its engine call, and the row outlives it. */
  lemma RefundBeforeEngineIsLost(w: World, row: Commission, paymentRef: string)
    requires Fresh(w, paymentRef) && EngineCall([row], paymentRef)
    ensures !NoLiveRow(History(w, [Deliver("paid"), Deliver("refunded"), Reverse, Engine([row])], paymentRef).tables,
                       paymentRef)
  {
    var w2 := Happen(Happen(w, Deliver("paid"), paymentRef), Deliver("refunded"), paymentRef);
    var w3 := Happen(w2, Reverse, paymentRef);
    NoRowsStay(w.tables, Refund(paymentRef), paymentRef);
    AccrueIntoNone(w3.tables, row, paymentRef);
    TwoEvents(w2, Reverse, Engine([row]), paymentRef);
    assert [Deliver("paid"), Deliver("refunded"), Reverse, Engine([row])][1..]
           == [Deliver("refunded"), Reverse, Engine([row])];
    assert [Deliver("refunded"), Reverse, Engine([row])][1..] == [Reverse, Engine([row])];
  }

  // ---------------------------------------------------------- a winner that dies

  lemma {:induction false} NoRowsForGood(w: World, events: seq<Event>, paymentRef: string)
    requires EngineDone(w) && NoRows(w.tables, paymentRef)
    ensures NoRows(History(w, events, paymentRef).tables, paymentRef)
    decreases |events|
  {
    if events != [] {
      match events[0] {
        case Other(a) => if Elsewhere(a, paymentRef) { NoRowsStay(w.tables, a, paymentRef); }
        case Reverse => NoRowsStay(w.tables, Refund(paymentRef), paymentRef);
        case _ =>
      }
      NoRowsForGood(Happen(w, events[0], paymentRef), events[1..], paymentRef);
    }
  }

  /** An order without rows can still earn commissions if and only if it is not paid yet or
      its winner's engine call is still to come: no later notification makes that call. */
  lemma CommissionsStillComeIff(w: World, paymentRef: string)
    requires ClaimInv(w, paymentRef) && NoRows(w.tables, paymentRef)
    ensures (exists events :: !NoRows(History(w, events, paymentRef).tables, paymentRef)) <==> !EngineDone(w)
  {
    if EngineDone(w) {
      forall events
        ensures NoRows(History(w, events, paymentRef).tables, paymentRef)
      {
        NoRowsForGood(w, events, paymentRef);
      }
    } else {
      LateEngineRevives(w, paymentRef);
      var events :| !NoLiveRow(History(w, events, paymentRef).tables, paymentRef);
      assert !NoRows(History(w, events, paymentRef).tables, paymentRef);
    }
  }

  /** So a handler that dies between its claim and its engine call leaves a paid order that
      never earns anybody anything, however often the notification is repeated. */
  lemma DeadWinnerEarnsNothing(w: World, later: seq<Event>, paymentRef: string)
    requires Fresh(w, paymentRef)
    ensures var u := History(w, [Deliver("paid"), EngineDies] + later, paymentRef);
            u.status == "paid" && NoRows(u.tables, paymentRef)
  {
    var dead := Happen(Happen(w, Deliver("paid"), paymentRef), EngineDies, paymentRef);
    var events := [Deliver("paid"), EngineDies] + later;
    assert events[0] == Deliver("paid") && events[1..] == [EngineDies] + later && ([EngineDies] + later)[1..] == later;
    assert History(w, events, paymentRef) == History(dead, later, paymentRef);
    NoRowsForGood(dead, later, paymentRef);
    PaidNeverChanges(dead, later, paymentRef);
  }

  // ------------------------------------------------------------ one handler, unbroken

  /** A notification handled in one go: claim, then the winner's engine call, then the
      reversal if it reports a refund. */
  function HandlerEvents(w: World, status: string, added: seq<Commission>): seq<Event> {
    [Deliver(status)]
    + (if IsPaidStatus(status) && !IsPaidStatus(w.status) then [Engine(added)] else [])
    + (if status == "refunded" then [Reverse] else [])
  }

  ghost function Handle(w: World, status: string, added: seq<Commission>, paymentRef: string): World {
    History(w, HandlerEvents(w, status, added), paymentRef)
  }

  lemma HandleShape(w: World, status: string, added: seq<Commission>, paymentRef: string)
    ensures var claimed := Claim(w, status);
            var won := IsPaidStatus(status) && !IsPaidStatus(w.status);
            Handle(w, status, added, paymentRef) ==
            if won then Happen(claimed, Engine(added), paymentRef)
            else if status == "refunded" then Happen(claimed, Reverse, paymentRef)
            else claimed
  {
    OneEvent(w, Deliver(status), paymentRef);
    TwoEvents(w, Deliver(status), Engine(added), paymentRef);
    TwoEvents(w, Deliver(status), Reverse, paymentRef);
    var won := IsPaidStatus(status) && !IsPaidStatus(w.status);
    assert HandlerEvents(w, status, added) ==
           if won then [Deliver(status), Engine(added)]
           else if status == "refunded" then [Deliver(status), Reverse] else [Deliver(status)];
  }

  /** What one handler run does to the order's status and to the ledger. */
  lemma HandleEffects(w: World, status: string, added: seq<Commission>, paymentRef: string)
    requires !w.engineDue && w.refundsDue == 0 && w.claims == 0
    requires EngineCall(added, paymentRef) && (added != [] ==> NoRows(w.tables, paymentRef))
    ensures var won := IsPaidStatus(status) && !IsPaidStatus(w.status);
            var after := Handle(w, status, added, paymentRef);
            && after.status == (if IsPaidStatus(w.status) then w.status else status)
            && after.claims == (if won then 1 else 0)
            && after.tables == if won then Step(w.tables, Accrue(added))
                               else if status == "refunded" then Step(w.tables, Refund(paymentRef))
                               else w.tables
  {
    HandleShape(w, status, added, paymentRef);
    if added == [] {
      assert InsertRows(w.tables.rows, added) == w.tables.rows;
    }
  }

  /** Handlers that run one after another: once a refund notification follows the paid one,
      the order's commissions are gone for good. */
  lemma PaidThenRefunded(w: World, status: string, added: seq<Commission>, between: seq<Event>, later: seq<Event>,
                         paymentRef: string)
    requires Fresh(w, paymentRef) && IsPaidStatus(status) && EngineCall(added, paymentRef)
    ensures var paid := Handle(w, status, added, paymentRef);
            var refunded := Handle(History(paid, between, paymentRef), "refunded", [], paymentRef);
            NoLiveRow(History(refunded, later, paymentRef).tables, paymentRef)
  {
    HandleShape(w, status, added, paymentRef);
    var paid := Handle(w, status, added, paymentRef);
    EngineStaysDone(paid, between, paymentRef);
    var before := History(paid, between, paymentRef);
    HandleShape(before, "refunded", [], paymentRef);
    ReversedForGood(Handle(before, "refunded", [], paymentRef), later, paymentRef);
  }

  /** Even handlers that run one after another lose a refund that is delivered first: the
      later paid notification still wins its claim and earns the row. */
  lemma RefundBeforePaymentIsLost(w: World, row: Commission, paymentRef: string)
    requires Fresh(w, paymentRef) && EngineCall([row], paymentRef)
    ensures var refunded := Handle(w, "refunded", [], paymentRef);
            !NoLiveRow(Handle(refunded, "paid", [row], paymentRef).tables, paymentRef)
  {
    var refunded := Handle(w, "refunded", [], paymentRef);
    HandleShape(w, "refunded", [], paymentRef);
    HandleShape(refunded, "paid", [row], paymentRef);
    NoRowsStay(w.tables, Refund(paymentRef), paymentRef);
    AccrueIntoNone(refunded.tables, row, paymentRef);
  }

  lemma {:induction false} EngineStaysDone(w: World, events: seq<Event>, paymentRef: string)
    requires EngineDone(w)
    ensures EngineDone(History(w, events, paymentRef))
    decreases |events|
  {
    if events != [] {
      EngineStaysDone(Happen(w, events[0], paymentRef), events[1..], paymentRef);
    }
  }
}
