/**
 * Subscription payments settled from the gateway's events (apps/api/src/billing/billing.service.ts,
 * packages/contracts/src/billing.ts, apps/api/src/billing/invoice.ts).
 */
module Billing {
  import opened Calendar
  import opened OutboxRows

  datatype PlanCode = Starter | Growth | BusinessPlan

  /** Paise a month, before GST. */
  function MonthPrice(plan: PlanCode): (r: nat)
    ensures r > 0
  {
    match plan case Starter => 49900 case Growth => 99900 case BusinessPlan => 249900
  }

  function PriceOf(plan: PlanCode, period: Period): (r: nat) { if period.Month? then MonthPrice(plan) else 10 * MonthPrice(plan) }

  /** The GST on a price, rounded half up to the paisa; `rate` is in percent. */
  function SubscriptionGst(amount: nat, rate: nat): (r: nat) { (2 * amount * rate + 100) / 200 }

  // ----- Where a business stands

  /** A plan no longer offered is none. */
  datatype Subscriber = Subscriber(plan: Option<PlanCode>, trialEndsAt: Option<int>, paidUntil: Option<int>)

  datatype BillingState = Trial | Paid | PastDue | ReadOnly

  const GRACE_MS := 7 * DAY_MS

  function LaterOf(a: Option<int>, b: Option<int>): (r: Option<int>) {
    if a.None? then b else if b.None? || a.value >= b.value then a else b
  }

  function BillingStateAt(s: Subscriber, now: int): (r: BillingState) {
    var endsAt := LaterOf(s.trialEndsAt, s.paidUntil);
    if endsAt.Some? && endsAt.value > now then (if s.paidUntil.Some? && s.paidUntil.value > now then Paid else Trial)
    else if endsAt.Some? && endsAt.value + GRACE_MS > now then PastDue
    else ReadOnly
  }

  // ----- The time a payment buys

  function Latest(now: int, at: Option<int>): (r: int) { if at.Some? && at.value > now then at.value else now }

  /** Time left, worth the same money at another plan's price, rounded half up to the millisecond. */
  function Carried(left: nat, fromPrice: nat, toPrice: nat): (r: nat)
    requires toPrice > 0
  {
    (2 * (left * fromPrice) + toPrice) / (2 * toPrice)
  }

  function LeftAt(s: Subscriber, base: int): (r: nat) {
    if s.paidUntil.Some? && s.paidUntil.value > base then s.paidUntil.value - base else 0
  }

  function PeriodFrom(s: Subscriber, plan: PlanCode, now: int): (r: int) {
    var base := Latest(now, s.trialEndsAt);
    if s.plan == Some(plan) then Latest(base, s.paidUntil)
    else base + if s.plan.Some? then Carried(LeftAt(s, base), MonthPrice(s.plan.value), MonthPrice(plan)) else 0
  }

  function PeriodTo(s: Subscriber, plan: PlanCode, period: Period, now: int): (r: int) {
    AddBillingPeriod(PeriodFrom(s, plan, now), period)
  }

  // ----- The ledger

  datatype CheckoutStatus = Pending | Settled | Failed
  datatype Checkout = Checkout(business: Id, plan: PlanCode, period: Period, amount: nat, gst: nat, total: nat, status: CheckoutStatus)

  /** The supply's tax, and the checkout it was paid by. */
  datatype Invoice = Invoice(
    fiscalYear: int, seqNo: nat, checkout: Id, plan: PlanCode, period: Period, periodFrom: int, periodTo: int,
    amount: nat, cgst: nat, sgst: nat, igst: nat, total: nat)

  datatype GatewayEvent = GatewayEvent(eventId: nat, checkout: Id, succeeded: bool, amount: nat)

  datatype Ledger = Ledger(
    checkouts: map<Id, Checkout>, events: set<nat>, subscribers: map<Id, Subscriber>, last: map<int, nat>, invoices: seq<Invoice>)

  datatype Gst = Gst(cgst: nat, sgst: nat, igst: nat)

  /** In our own state, or an unknown one, half each; in another, IGST. */
  function SplitSubscriptionGst(gst: nat, ours: Option<string>, buyer: Option<string>): (r: Gst)
    ensures r.cgst + r.sgst + r.igst == gst
  {
    if gst > 0 && ours.Some? && buyer.Some? && buyer != ours then Gst(0, 0, gst) else Gst(gst / 2, gst - gst / 2, 0)
  }

  function LastIn(last: map<int, nat>, year: int): (r: nat) { if year in last then last[year] else 0 }

  /** What the server knows when an event comes: the time, and our and the buyer's states. */
  datatype Moment = Moment(now: int, ours: Option<string>, buyer: Option<string>)

  function InvoiceFor(l: Ledger, id: Id, at: Moment): (r: Invoice)
    requires id in l.checkouts && l.checkouts[id].business in l.subscribers
  {
    var c, s, year := l.checkouts[id], l.subscribers[l.checkouts[id].business], FiscalYearOf(at.now);
    var gst := SplitSubscriptionGst(c.gst, at.ours, at.buyer);
    Invoice(year, LastIn(l.last, year) + 1, id, c.plan, c.period, PeriodFrom(s, c.plan, at.now), PeriodTo(s, c.plan, c.period, at.now),
      c.amount, gst.cgst, gst.sgst, gst.igst, c.total)
  }

  /** A payment counted: the business has its time, the checkout is settled, and the next invoice issued. */
  function Counted(l: Ledger, id: Id, at: Moment): (r: Ledger)
    requires id in l.checkouts && l.checkouts[id].business in l.subscribers
  {
    var c, invoice := l.checkouts[id], InvoiceFor(l, id, at);
    Ledger(l.checkouts[id := c.(status := CheckoutStatus.Settled)], l.events,
      l.subscribers[c.business := l.subscribers[c.business].(plan := Some(c.plan), paidUntil := Some(invoice.periodTo))],
      l.last[invoice.fiscalYear := invoice.seqNo], l.invoices + [invoice])
  }

  /** Every checkout is a business's. */
  ghost predicate HasBusinesses(l: Ledger) {
    forall id :: id in l.checkouts ==> l.checkouts[id].business in l.subscribers
  }

  function Applied(l: Ledger, event: GatewayEvent, at: Moment): (r: Ledger)
    requires HasBusinesses(l)
  {
    if event.checkout !in l.checkouts || event.eventId in l.events then l
    else
      var recorded, c := l.(events := l.events + {event.eventId}), l.checkouts[event.checkout];
      if !c.status.Pending? then recorded
      else if event.succeeded && event.amount == c.total then Counted(recorded, event.checkout, at)
      else recorded.(checkouts := l.checkouts[event.checkout := c.(status := Failed)])
  }

  /** A checkout begun for a plan at its price. */
  function Begun(l: Ledger, id: Id, business: Id, plan: PlanCode, period: Period, gstRate: nat): (r: Ledger) {
    var amount := PriceOf(plan, period);
    var gst := SubscriptionGst(amount, gstRate);
    l.(checkouts := l.checkouts[id := Checkout(business, plan, period, amount, gst, amount + gst, Pending)])
  }

  // ----- The service

  class BillingService {
    var checkouts: map<Id, Checkout>
    var events: set<nat>
    var subscribers: map<Id, Subscriber>
    var last: map<int, nat>
    var invoices: seq<Invoice>

    function Books(): Ledger
      reads this
    {
      Ledger(checkouts, events, subscribers, last, invoices)
    }

    constructor (businesses: map<Id, Subscriber>)
      ensures Books() == Ledger(map[], {}, businesses, map[], [])
    {
      checkouts, events, subscribers, last, invoices := map[], {}, businesses, map[], [];
    }

    method Begin(id: Id, business: Id, plan: PlanCode, period: Period, gstRate: nat)
      requires id !in checkouts && business in subscribers
      modifies this`checkouts
      ensures Books() == Begun(old(Books()), id, business, plan, period, gstRate)
    {
      var amount := PriceOf(plan, period);
      var gst := SubscriptionGst(amount, gstRate);
      checkouts := checkouts[id := Checkout(business, plan, period, amount, gst, amount + gst, Pending)];
    }

    method ApplyEvent(event: GatewayEvent, at: Moment)
      requires HasBusinesses(Books())
      modifies this
      ensures Books() == Applied(old(Books()), event, at)
    {
      hide PeriodFrom, PeriodTo, FiscalYearOf, SplitSubscriptionGst;
      if event.checkout !in checkouts { return; }
      if event.eventId in events { return; }
      events := events + {event.eventId};
      var checkout := checkouts[event.checkout];
      if !checkout.status.Pending? { return; }
      if !event.succeeded || event.amount != checkout.total {
        checkouts := checkouts[event.checkout := checkout.(status := Failed)];
        return;
      }
      var subscriber := subscribers[checkout.business];
      var periodFrom := PeriodFrom(subscriber, checkout.plan, at.now);
      var periodTo := PeriodTo(subscriber, checkout.plan, checkout.period, at.now);
      subscribers := subscribers[checkout.business := subscriber.(plan := Some(checkout.plan), paidUntil := Some(periodTo))];
      checkouts := checkouts[event.checkout := checkout.(status := CheckoutStatus.Settled)];
      var year := FiscalYearOf(at.now);
      var count := LastIn(last, year) + 1;
      last := last[year := count];
      var gst := SplitSubscriptionGst(checkout.gst, at.ours, at.buyer);
      invoices := invoices + [Invoice(year, count, event.checkout, checkout.plan, checkout.period, periodFrom, periodTo,
        checkout.amount, gst.cgst, gst.sgst, gst.igst, checkout.total)];
    }
  }
}
