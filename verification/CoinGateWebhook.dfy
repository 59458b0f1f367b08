/** The CoinGate notification handler: verification, the atomic claim, and the effects. */
module CoinGateWebhook {
  import opened Common
  import opened Commissions
  import opened Qualification
  import opened CommissionEngine
  import opened Ledger
  import opened PayoutService
  import opened CoinGateClaim

  /** One entry of an order's history: the token is not kept. */
  datatype Receipt = Receipt(status: string, receivedAt: int, payload: Notification)

  datatype Order = Order(userId: string, ipnToken: string, coingateOrderId: Option<string>, amount: Cents,
                         currency: string, yearly: bool, status: string, history: seq<Receipt>)

  /** The body of a notification; a missing field is the empty string. */
  datatype Notification = Notification(orderId: string, token: string, status: string, id: string)

  /** The newest CoinGate subscription of the user. */
  datatype Subscription = Subscription(currentPeriodEnd: int, active: bool)

  /** One call that activates a subscription; times are in milliseconds. */
  datatype Activation = Activation(userId: string, externalRef: string, periodStart: int, periodEnd: int)

  /** A won claim: the status, the entry in the history, and the CoinGate id, which is
      kept once it is known. */
  function ClaimedOrder(order: Order, n: Notification, now: int): Order {
    order.(status := n.status, history := order.history + [Receipt(n.status, now, n.(token := ""))],
           coingateOrderId := if order.coingateOrderId.None? && n.id != "" then Some(n.id) else order.coingateOrderId)
  }

  const DAY := 24 * 3600 * 1000

  /** A renewal extends a running subscription and starts a lapsed one anew. */
  function ActivationOf(orderId: string, order: Order, existing: Option<Subscription>, now: int): Activation {
    var from := if existing.Some? && existing.value.active && existing.value.currentPeriodEnd > now
                then existing.value.currentPeriodEnd else now;
    Activation(order.userId, if order.coingateOrderId.Some? then order.coingateOrderId.value else orderId, now,
               from + if order.yearly then 365 * DAY else 30 * DAY)
  }

  function PaymentOf(order: Order, localOrderId: string): Payment {
    Payment(order.userId, localOrderId, CoinGate, order.amount, order.currency)
  }

  /** A paid period begins when the running one ends, or at once if none is running: paid time is
      never lost and never counted twice, and it is a year of 365 days or a month of 30. */
  lemma ActivationExtends(orderId: string, order: Order, existing: Option<Subscription>, now: int)
    ensures var a := ActivationOf(orderId, order, existing, now);
            var length := if order.yearly then 31_536_000_000 else 2_592_000_000;
            && a.userId == order.userId && a.periodStart == now
            && a.externalRef == (match order.coingateOrderId case None => orderId case Some(id) => id)
            && a.periodEnd >= now + length
            && (match existing
                case Some(s) =>
                  if s.active && s.currentPeriodEnd >= now then a.periodEnd == s.currentPeriodEnd + length
                  else a.periodEnd == now + length
                case None => a.periodEnd == now + length)
  {
  }

  /** Several renewals, each made while the period before it is running. */
  ghost predicate OnTime(orders: seq<Order>, times: seq<int>, end: int)
    requires |orders| == |times|
    decreases |orders|
  {
    orders != [] ==>
      && times[0] <= end
      && OnTime(orders[1..], times[1..], ActivationOf("", orders[0], Some(Subscription(end, true)), times[0]).periodEnd)
  }

  function EndAfter(orders: seq<Order>, times: seq<int>, end: int): int
    requires |orders| == |times|
    decreases |orders|
  {
    if orders == [] then end
    else EndAfter(orders[1..], times[1..],
                  ActivationOf("", orders[0], Some(Subscription(end, true)), times[0]).periodEnd)
  }

  /** How many of the orders are for a year. */
  function Years(orders: seq<Order>): nat {
    if orders == [] then 0 else (if orders[0].yearly then 1 else 0) + Years(orders[1..])
  }

  /** However early each of them is made, renewals in time add up to the days paid for. */
  lemma {:induction false} RenewalsAddUp(orders: seq<Order>, times: seq<int>, end: int)
    requires |orders| == |times| && OnTime(orders, times, end)
    ensures EndAfter(orders, times, end)
            == end + 86_400_000 * (365 * Years(orders) + 30 * (|orders| - Years(orders)))
    decreases |orders|
  {
    if orders != [] {
      ActivationExtends("", orders[0], Some(Subscription(end, true)), times[0]);
      RenewalsAddUp(orders[1..], times[1..],
                    ActivationOf("", orders[0], Some(Subscription(end, true)), times[0]).periodEnd);
    }
  }

  /** What a verified notification does to the order's status and to the ledger: the claim is won
      by "paid" or "confirmed" on an order that is neither yet, and then the sponsors are
      credited for this order; "refunded" reverses; anything else moves the status alone. */
  lemma NotificationEffects(t: Tables, snaps: Snapshots, order: Order, n: Notification, c: Context)
    requires PlanOk(c.plan)
    ensures var added := EngineRows(t.rows, snaps, PaymentOf(order, n.orderId), c);
            var after := Handle(World(order.status, 0, false, 0, 0, t), n.status, added, n.orderId);
            var closed := order.status == "paid" || order.status == "confirmed";
            var won := (n.status == "paid" || n.status == "confirmed") && !closed;
            && after.status == (if closed then order.status else n.status)
            && after.claims == (if won then 1 else 0)
            && after.tables == (if won then t.(rows := t.rows + added)
                                else if n.status == "refunded" then Step(t, Refund(n.orderId)) else t)
            && (forall r :: r in added ==> CreditedFor(r, order, n.orderId))
  {
    var p := PaymentOf(order, n.orderId);
    EngineInsertsExactly(t.rows, snaps, p, c);
    var added := EngineRows(t.rows, snaps, p, c);
    HandleEffects(World(order.status, 0, false, 0, 0, t), n.status, added, n.orderId);
    forall r | r in added
      ensures CreditedFor(r, order, n.orderId)
    {
      var pl, i := CreditedBy(t.rows, snaps, p, c, r);
    }
  }

  /** A row that credits a sponsor for this order: the order's client, amount and currency, and
      the order itself as the payment. */
  predicate CreditedFor(r: Commission, order: Order, orderId: string) {
    r.sourceUserId == order.userId && r.paymentRef == orderId && r.provider == CoinGate
    && r.baseAmount == order.amount && r.currency == order.currency
  }

  class CoinGateHandler {
    var orders: map<string, Order>
    /** The activation calls made, in order. */
    var activations: seq<Activation>
    const service: CommissionService

    constructor (orders: map<string, Order>, service: CommissionService)
      ensures this.orders == orders && activations == [] && this.service == service
    {
      this.orders := orders;
      activations := [];
      this.service := service;
    }

    /** A notification is answered 400 if incomplete, 404 for an unknown order, 401 for a
        wrong token, and then changes nothing. Otherwise the order and the ledger move
        exactly as one unbroken handling of the claim, and a subscription is activated
        exactly when the paid claim is won, until 30 or 365 days after what was paid for. */
    method HandleCoinGateIpn(n: Notification, existing: Option<Subscription>, c: Context) returns (code: nat)
      requires service.Valid() && PlanOk(c.plan)
      modifies this`orders, this`activations, service`commissions, service.engine.qualification
      ensures service.Valid()
      ensures code in {200, 400, 401, 404}
      ensures code == 400 <==> n.orderId == "" || n.token == "" || n.status == ""
      ensures code == 404 <==> code != 400 && n.orderId !in old(orders)
      ensures code == 401 <==> code !in {400, 404} && old(orders)[n.orderId].ipnToken != n.token
      ensures code != 200 ==>
                orders == old(orders) && activations == old(activations) && service.View() == old(service.View())
      ensures code == 200 ==>
                var order := old(orders)[n.orderId];
                var added := EngineRows(old(service.commissions), old(service.engine.qualification.snapshots),
                                        PaymentOf(order, n.orderId), c);
                var after := Handle(World(order.status, 0, false, 0, 0, old(service.View())), n.status, added,
                                    n.orderId);
                && service.View() == after.tables
                && n.orderId in orders
                && orders == (if order.status == "paid" || order.status == "confirmed" then old(orders)
                              else old(orders)[n.orderId := orders[n.orderId]])
                && orders[n.orderId]
                   == (if order.status == "paid" || order.status == "confirmed" then order
                       else order.(status := n.status,
                                   coingateOrderId := if order.coingateOrderId.Some? || n.id == ""
                                                      then order.coingateOrderId else Some(n.id),
                                   history := order.history + [Receipt(n.status, c.now, n.(token := ""))]))
                && orders[n.orderId].status == after.status
                && activations == old(activations)
                   + if after.claims == 1 then [ActivationOf(n.orderId, order, existing, c.now)] else []
    {
      if n.orderId == "" || n.token == "" || n.status == "" {
        return 400;
      }
      if n.orderId !in orders {
        return 404;
      }
      var order := orders[n.orderId];
      if order.ipnToken != n.token {
        return 401;
      }
      Apply(n, order, existing, c);
      code := 200;
    }

    /** The claim and its effects, once the notification is verified. */
    method Apply(n: Notification, order: Order, existing: Option<Subscription>, c: Context)
      requires service.Valid() && PlanOk(c.plan) && n.orderId in orders && orders[n.orderId] == order
      modifies this`orders, this`activations, service`commissions, service.engine.qualification
      ensures service.Valid()
      ensures var added := EngineRows(old(service.commissions), old(service.engine.qualification.snapshots),
                                      PaymentOf(order, n.orderId), c);
              var after := Handle(World(order.status, 0, false, 0, 0, old(service.View())), n.status, added, n.orderId);
              && service.View() == after.tables
              && orders == (if IsPaidStatus(order.status) then old(orders)
                            else old(orders)[n.orderId := ClaimedOrder(order, n, c.now)])
              && orders[n.orderId].status == after.status
              && activations == old(activations)
                 + if after.claims == 1 then [ActivationOf(n.orderId, order, existing, c.now)] else []
    {
      NotificationEffects(service.View(), service.engine.qualification.snapshots, order, n, c);
      var claimed := !IsPaidStatus(order.status);
      if claimed {
        orders := orders[n.orderId := ClaimedOrder(order, n, c.now)];
      }
      if claimed && IsPaidStatus(n.status) {
        activations := activations + [ActivationOf(n.orderId, order, existing, c.now)];
        var _ := service.ProcessPaymentCommissions(PaymentOf(order, n.orderId), c);
      }
      if n.status == "refunded" {
        var _ := service.ReverseCommissionsForPayment(n.orderId);
      }
    }
  }
}
