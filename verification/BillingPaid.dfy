/**
 * Which payment decides a checkout, and what counting it does (apps/api/src/billing/billing.service.ts, apps/api/src/billing/invoice.ts),
 * over any sequence of checkouts begun and events delivered.
 */
module BillingPaid {
  import opened Billing
  import opened BillingRuns
  import opened Calendar
  import opened OutboxRows

  // ----- What one event does

  /** The event is the first to reach a checkout that is waiting. */
  ghost predicate Decides(l: Ledger, event: GatewayEvent) {
    event.checkout in l.checkouts && l.checkouts[event.checkout].status == Pending && event.eventId !in l.events
  }

  /** It pays the checkout: it succeeded, for all of it. */
  ghost predicate Pays(l: Ledger, event: GatewayEvent)
    requires event.checkout in l.checkouts
  {
    event.succeeded && event.amount == l.checkouts[event.checkout].total
  }

  /** Nothing is different but this checkout's status and that the event is known. */
  ghost predicate OnlyDecided(l: Ledger, r: Ledger, event: GatewayEvent, status: CheckoutStatus)
    requires event.checkout in l.checkouts
  {
    && r.events == l.events + {event.eventId}
    && r.checkouts == l.checkouts[event.checkout := l.checkouts[event.checkout].(status := status)]
  }

  /** Counted from `base`: at once, or when the time paid for ends; on another plan time left is first worth its money. */
  ghost predicate StartsFrom(s: Subscriber, plan: PlanCode, base: int, from: int) {
    if s.plan == Some(plan) then
      from >= base && (s.paidUntil.Some? ==> from >= s.paidUntil.value) && (from == base || s.paidUntil == Some(from))
    else if s.plan.None? || s.paidUntil.None? || s.paidUntil.value <= base then from == base
    else from >= base && HalfUp((s.paidUntil.value - base) * MonthPrice(s.plan.value), MonthPrice(plan), from - base)
  }

  /** Now, or when the trial ends. */
  ghost predicate IsBase(s: Subscriber, now: int, base: int) {
    base >= now && (s.trialEndsAt.Some? ==> base >= s.trialEndsAt.value) && (base == now || s.trialEndsAt == Some(base))
  }

  /** The time a payment buys. */
  ghost predicate PeriodFits(s: Subscriber, plan: PlanCode, period: Period, now: int, from: int, to: int) {
    to == AddBillingPeriod(from, period) && exists base: int :: IsBase(s, now, base) && StartsFrom(s, plan, base, from)
  }

  /** `r` is n/d rounded half up. */
  ghost predicate HalfUp(n: nat, d: nat, r: int) { 2 * n - d < 2 * (r * d) <= 2 * n + d }

  /** GST by kind: IGST for a buyer known to be in another state than ours, else half each, the odd paisa SGST. */
  ghost predicate GstFits(gst: nat, at: Moment, invoice: Invoice) {
    if at.ours.Some? && at.buyer.Some? && at.ours != at.buyer then invoice.igst == gst && invoice.cgst == 0 == invoice.sgst
    else invoice.igst == 0 && invoice.cgst + invoice.sgst == gst && invoice.cgst <= invoice.sgst <= invoice.cgst + 1
  }

  /** The invoice a payment is answered with: its checkout's money, the next number of the financial year, the time it buys. */
  ghost predicate InvoiceFits(l: Ledger, id: Id, at: Moment, invoice: Invoice)
    requires id in l.checkouts && l.checkouts[id].business in l.subscribers
  {
    var c := l.checkouts[id];
    && invoice.checkout == id && invoice.plan == c.plan && invoice.period == c.period && invoice.amount == c.amount && invoice.total == c.total
    && YearOpens(invoice.fiscalYear) <= at.now < YearOpens(invoice.fiscalYear + 1)
    && invoice.seqNo == LastIn(l.last, invoice.fiscalYear) + 1
    && GstFits(c.gst, at, invoice)
    && PeriodFits(l.subscribers[c.business], c.plan, c.period, at.now, invoice.periodFrom, invoice.periodTo)
  }

  /** A payment counted: the business is on the plan until the invoice's end, the invoice is the only new one. */
  ghost predicate CountedOnce(l: Ledger, r: Ledger, id: Id, at: Moment)
    requires id in l.checkouts && l.checkouts[id].business in l.subscribers
  {
    var c, n := l.checkouts[id], |l.invoices|;
    && |r.invoices| == n + 1 && r.invoices[..n] == l.invoices && InvoiceFits(l, id, at, r.invoices[n])
    && r.subscribers == l.subscribers[c.business := Subscriber(Some(c.plan), l.subscribers[c.business].trialEndsAt, Some(r.invoices[n].periodTo))]
    && r.last == l.last[r.invoices[n].fiscalYear := r.invoices[n].seqNo]
  }

  lemma CarriedIs(left: nat, fromPrice: nat, toPrice: nat)
    requires toPrice > 0
    ensures HalfUp(left * fromPrice, toPrice, Carried(left, fromPrice, toPrice))
  {
    RoundedHalfUp(left * fromPrice, toPrice);
  }

  lemma RoundedHalfUp(n: nat, d: nat)
    requires d > 0
    ensures HalfUp(n, d, (2 * n + d) / (2 * d))
  {
    var q, r := (2 * n + d) / (2 * d), (2 * n + d) % (2 * d);
    DivMod(2 * n + d, 2 * d);
    assert q * (2 * d) == 2 * (q * d);
  }

  lemma PeriodIs(s: Subscriber, plan: PlanCode, period: Period, now: int)
    ensures PeriodFits(s, plan, period, now, PeriodFrom(s, plan, now), PeriodTo(s, plan, period, now))
  {
    hide AddBillingPeriod, MonthPrice, Carried, HalfUp;
    var base := Latest(now, s.trialEndsAt);
    if s.plan.Some? && s.plan.value != plan {
      CarriedIs(LeftAt(s, base), MonthPrice(s.plan.value), MonthPrice(plan));
      NothingCarried(MonthPrice(s.plan.value), MonthPrice(plan));
    }
    assert IsBase(s, now, base);
    assert StartsFrom(s, plan, base, PeriodFrom(s, plan, now));
  }

  lemma NothingCarried(fromPrice: nat, toPrice: nat)
    requires toPrice > 0
    ensures Carried(0, fromPrice, toPrice) == 0
  {
    assert 0 * fromPrice == 0;
  }

  lemma InvoiceIs(l: Ledger, id: Id, at: Moment)
    requires id in l.checkouts && l.checkouts[id].business in l.subscribers
    ensures InvoiceFits(l, id, at, InvoiceFor(l, id, at))
  {
    hide AddBillingPeriod, FiscalYearOf, PeriodFrom, PeriodTo, PeriodFits, YearOpens;
    var c := l.checkouts[id];
    FiscalYearIs(at.now);
    PeriodIs(l.subscribers[c.business], c.plan, c.period, at.now);
  }

  /**
   * The first event to reach a waiting checkout decides it: it is settled, and the payment counted, if and only if the event
   * is a success for its total; else it has failed, and no one's time, number or invoice is touched.
   */
  lemma FirstEventDecides(l: Ledger, event: GatewayEvent, at: Moment)
    requires HasBusinesses(l) && Decides(l, event)
    ensures var r := Applied(l, event, at);
            if Pays(l, event) then OnlyDecided(l, r, event, CheckoutStatus.Settled) && CountedOnce(l, r, event.checkout, at)
            else OnlyDecided(l, r, event, Failed) && r.subscribers == l.subscribers && r.last == l.last && r.invoices == l.invoices
  {
    hide InvoiceFits, PeriodFrom, PeriodTo, FiscalYearOf, SplitSubscriptionGst;
    InvoiceIs(l, event.checkout, at);
    if Pays(l, event) {
      var r := Applied(l, event, at);
      assert r.invoices == l.invoices + [InvoiceFor(l.(events := l.events + {event.eventId}), event.checkout, at)];
    }
  }

  /** Any other event, of a checkout decided already or one delivered before, only becomes known. */
  lemma OthersChangeNothing(l: Ledger, event: GatewayEvent, at: Moment)
    requires HasBusinesses(l) && !Decides(l, event)
    ensures Applied(l, event, at) == if event.checkout in l.checkouts then l.(events := l.events + {event.eventId}) else l
  {
  }

  /** What a checkout is begun at: the plan's price, ten months' of it for a year, and the GST on it to the paisa. */
  lemma BegunAtPrice(l: Ledger, id: Id, business: Id, plan: PlanCode, period: Period, gstRate: nat)
    ensures var r := Begun(l, id, business, plan, period, gstRate);
            && id in r.checkouts && r == l.(checkouts := l.checkouts[id := r.checkouts[id]])
            && var c := r.checkouts[id];
               && c.business == business && c.plan == plan && c.period == period && c.status == Pending
               && c.amount == MonthPrice(plan) * (match period case Month => 1 case Year => 10)
               && HalfUp(c.amount * gstRate, 100, c.gst) && c.total == c.amount + c.gst
  {
    hide MonthPrice, SubscriptionGst, HalfUp;
    GstIs(PriceOf(plan, period), gstRate);
  }

  lemma GstIs(amount: nat, rate: nat)
    ensures HalfUp(amount * rate, 100, SubscriptionGst(amount, rate))
  {
    RoundedHalfUp(amount * rate, 100);
    assert 2 * amount * rate == 2 * (amount * rate);
  }

  // ----- Over whole runs

  /** The run's k-th step is the delivery that decided the checkout. */
  ghost predicate DecidedAt(businesses: map<Id, Subscriber>, steps: seq<Step>, id: Id, k: nat) {
    && k < |steps| && steps[k].Deliver? && steps[k].event.checkout == id && Decides(Run(businesses, steps[..k]), steps[k].event)
  }

  ghost predicate PaidAt(businesses: map<Id, Subscriber>, steps: seq<Step>, id: Id, k: nat) {
    DecidedAt(businesses, steps, id, k) && Pays(Run(businesses, steps[..k]), steps[k].event)
  }

  /**
   * A checkout is pending while nothing has decided it, settled exactly when what did was a success for its total, and else
   * failed; and nothing decides one that isn't known.
   */
  ghost predicate StatusOf(businesses: map<Id, Subscriber>, steps: seq<Step>, id: Id) {
    var l := Run(businesses, steps);
    && ((exists k: nat :: DecidedAt(businesses, steps, id, k)) ==> id in l.checkouts)
    && (id in l.checkouts ==>
          && (l.checkouts[id].status == Pending <==> forall k: nat :: !DecidedAt(businesses, steps, id, k))
          && (l.checkouts[id].status == CheckoutStatus.Settled <==> exists k: nat :: PaidAt(businesses, steps, id, k)))
  }

  lemma DecidedBefore(businesses: map<Id, Subscriber>, steps: seq<Step>, id: Id, k: nat)
    requires k < |steps| - 1
    ensures DecidedAt(businesses, steps, id, k) <==> DecidedAt(businesses, steps[..|steps| - 1], id, k)
    ensures PaidAt(businesses, steps, id, k) <==> PaidAt(businesses, steps[..|steps| - 1], id, k)
  {
    hide Run;
    assert steps[..|steps| - 1][..k] == steps[..k];
  }

  lemma LastDecides(businesses: map<Id, Subscriber>, steps: seq<Step>, id: Id)
    requires steps != []
    ensures var n := |steps| - 1;
            var before, step := Run(businesses, steps[..n]), steps[n];
            && (DecidedAt(businesses, steps, id, n) <==> step.Deliver? && step.event.checkout == id && Decides(before, step.event))
            && (PaidAt(businesses, steps, id, n) <==>
                  step.Deliver? && step.event.checkout == id && Decides(before, step.event) && Pays(before, step.event))
  {
    hide Run;
  }

  /** What a step makes of one checkout's status. */
  lemma StatusNext(before: Ledger, step: Step, id: Id)
    requires Sound(before)
    ensures var r := if MayTake(before, step) then Took(before, step) else before;
            && (id in before.checkouts ==> id in r.checkouts)
            && (id in before.checkouts && step.Deliver? && step.event.checkout == id && Decides(before, step.event) ==>
                  r.checkouts[id].status == if Pays(before, step.event) then CheckoutStatus.Settled else Failed)
            && (id in before.checkouts && !(step.Deliver? && step.event.checkout == id && Decides(before, step.event)) ==>
                  r.checkouts[id].status == before.checkouts[id].status)
            && (id !in before.checkouts && id in r.checkouts ==> r.checkouts[id].status == Pending && step.Begin?)
  {
    hide Counted, PriceOf, SubscriptionGst, InSequence, OneToOne, AddUp;
    if step.Deliver? { CountedStatus(before.(events := before.events + {step.event.eventId}), step.event.checkout, step.at); }
  }

  lemma CountedStatus(l: Ledger, id: Id, at: Moment)
    requires HasBusinesses(l)
    ensures id in l.checkouts ==> Counted(l, id, at).checkouts == l.checkouts[id := l.checkouts[id].(status := CheckoutStatus.Settled)]
  {
  }

  /** Over any run, a checkout's status is what the delivery that decided it makes of it. */
  lemma {:induction false} StatusDecided(businesses: map<Id, Subscriber>, steps: seq<Step>, id: Id)
    ensures StatusOf(businesses, steps, id)
  {
    hide Run, DecidedAt, PaidAt, Took, MayTake, Sound;
    if steps == [] {
      NothingDecided(businesses, id);
    } else {
      var n := |steps| - 1;
      StatusDecided(businesses, steps[..n], id);
      assert steps == steps[..n] + [steps[n]];
      RunOneMore(businesses, steps[..n], steps[n]);
      StatusNext(Run(businesses, steps[..n]), steps[n], id);
      LastDecides(businesses, steps, id);
      forall k: nat | k < n
        ensures DecidedAt(businesses, steps, id, k) <==> DecidedAt(businesses, steps[..n], id, k)
        ensures PaidAt(businesses, steps, id, k) <==> PaidAt(businesses, steps[..n], id, k)
      {
        DecidedBefore(businesses, steps, id, k);
      }
      InSteps(businesses, steps, id);
      InSteps(businesses, steps[..n], id);
    }
  }

  lemma InSteps(businesses: map<Id, Subscriber>, steps: seq<Step>, id: Id)
    ensures forall k: nat :: DecidedAt(businesses, steps, id, k) ==> k < |steps|
    ensures forall k: nat :: PaidAt(businesses, steps, id, k) ==> DecidedAt(businesses, steps, id, k)
  {
    hide Run, Decides, Pays;
  }

  lemma NothingDecided(businesses: map<Id, Subscriber>, id: Id)
    ensures StatusOf(businesses, [], id)
  {
  }

  /** The invoice answers the k-th step: a success for the whole of its checkout, then waiting. */
  ghost predicate AnswersTo(businesses: map<Id, Subscriber>, steps: seq<Step>, invoice: Invoice, k: nat) {
    && PaidAt(businesses, steps, invoice.checkout, k)
    && InvoiceFits(Run(businesses, steps[..k]), invoice.checkout, steps[k].at, invoice)
  }

  /** What a step adds to the invoices: one that answers it, if it is a payment that counts, and else none. */
  lemma InvoicesNext(before: Ledger, step: Step)
    requires Sound(before) && MayTake(before, step)
    ensures var r, n := Took(before, step), |before.invoices|;
            if step.Deliver? && Decides(before, step.event) && Pays(before, step.event) then
              |r.invoices| == n + 1 && r.invoices[..n] == before.invoices
              && r.invoices[n].checkout == step.event.checkout && InvoiceFits(before, step.event.checkout, step.at, r.invoices[n])
            else r.invoices == before.invoices
  {
    hide Applied, InvoiceFits, PriceOf, SubscriptionGst, InSequence, OneToOne, AddUp;
    if step.Deliver? {
      if Decides(before, step.event) {
        FirstEventDecides(before, step.event, step.at);
        if Pays(before, step.event) { InvoiceOf(before, step.event.checkout, step.at, Applied(before, step.event, step.at).invoices[|before.invoices|]); }
      } else {
        OthersChangeNothing(before, step.event, step.at);
      }
    }
  }

  lemma InvoiceOf(l: Ledger, id: Id, at: Moment, invoice: Invoice)
    requires id in l.checkouts && l.checkouts[id].business in l.subscribers && InvoiceFits(l, id, at, invoice)
    ensures invoice.checkout == id
  {
  }

  /** Every invoice answers a payment delivered in the run: a success, for the whole of the checkout it names. */
  lemma {:induction false} InvoicesPaidFor(businesses: map<Id, Subscriber>, steps: seq<Step>, i: nat)
    requires i < |Run(businesses, steps).invoices|
    ensures exists k: nat :: AnswersTo(businesses, steps, Run(businesses, steps).invoices[i], k)
  {
    hide Run, Took, MayTake, Sound, InvoiceFits, PaidAt;
    if steps == [] {
      NoInvoices(businesses);
    } else {
      var n := |steps| - 1;
      var before, step := Run(businesses, steps[..n]), steps[n];
      assert steps == steps[..n] + [step];
      RunOneMore(businesses, steps[..n], step);
      var invoice := Run(businesses, steps).invoices[i];
      if MayTake(before, step) { InvoicesNext(before, step); }
      if i < |before.invoices| {
        InvoicesPaidFor(businesses, steps[..n], i);
        var k: nat :| AnswersTo(businesses, steps[..n], invoice, k);
        AnswersStill(businesses, steps, invoice, k);
      } else {
        LastDecides(businesses, steps, invoice.checkout);
        assert AnswersTo(businesses, steps, invoice, n);
      }
    }
  }

  lemma NoInvoices(businesses: map<Id, Subscriber>)
    ensures Run(businesses, []).invoices == []
  {
  }

  lemma AnswersStill(businesses: map<Id, Subscriber>, steps: seq<Step>, invoice: Invoice, k: nat)
    requires steps != [] && AnswersTo(businesses, steps[..|steps| - 1], invoice, k)
    ensures AnswersTo(businesses, steps, invoice, k)
  {
    hide Run, InvoiceFits, PaidAt;
    InSteps(businesses, steps[..|steps| - 1], invoice.checkout);
    DecidedBefore(businesses, steps, invoice.checkout, k);
    assert steps[..|steps| - 1][..k] == steps[..k];
  }

  /** Where a business stands: paid while its paid time lasts, else in trial, then a week late, then reading only. */
  lemma StandsWhen(s: Subscriber, now: int)
    ensures var state := BillingStateAt(s, now);
            var paid, trial := s.paidUntil.Some? && s.paidUntil.value > now, s.trialEndsAt.Some? && s.trialEndsAt.value > now;
            var late := (s.paidUntil.Some? && s.paidUntil.value + 7 * DAY_MS > now) || (s.trialEndsAt.Some? && s.trialEndsAt.value + 7 * DAY_MS > now);
            && (state == Paid <==> paid) && (state == Trial <==> !paid && trial)
            && (state == PastDue <==> !paid && !trial && late) && (state == ReadOnly <==> !paid && !trial && !late)
  {
  }
}
