/** What holds of the billing ledger over any sequence of checkouts begun and events delivered. */
module BillingRuns {
  import opened Billing
  import opened Calendar
  import opened OutboxRows

  // ----- Invoices

  /** Invoices of a financial year. */
  function Issued(invoices: seq<Invoice>, year: int): (r: nat) {
    if invoices == [] then 0
    else Issued(invoices[..|invoices| - 1], year) + if invoices[|invoices| - 1].fiscalYear == year then 1 else 0
  }

  /** Each invoice takes its year's next count. */
  ghost predicate InSequence(l: Ledger) {
    && (forall i :: 0 <= i < |l.invoices| ==> l.invoices[i].seqNo == Issued(l.invoices[..i], l.invoices[i].fiscalYear) + 1)
    && (forall year :: LastIn(l.last, year) == Issued(l.invoices, year))
  }

  /** An invoice is for what its checkout was for, at its price. */
  ghost predicate OfCheckout(invoice: Invoice, c: Checkout) {
    && invoice.plan == c.plan && invoice.period == c.period
    && invoice.amount == c.amount && invoice.cgst + invoice.sgst + invoice.igst == c.gst && invoice.total == c.total
  }

  /** The settled checkouts are the invoiced ones, one invoice each, and each invoice is its checkout's plan, period and money. */
  ghost predicate OneToOne(l: Ledger) {
    && (forall i, j :: 0 <= i < j < |l.invoices| ==> l.invoices[i].checkout != l.invoices[j].checkout)
    && (forall i :: 0 <= i < |l.invoices| ==>
          && l.invoices[i].checkout in l.checkouts && l.checkouts[l.invoices[i].checkout].status.Settled?
          && OfCheckout(l.invoices[i], l.checkouts[l.invoices[i].checkout]))
    && (forall id :: id in l.checkouts && l.checkouts[id].status.Settled? ==> exists i :: 0 <= i < |l.invoices| && l.invoices[i].checkout == id)
  }

  /** An invoice's parts add up to what was paid. */
  ghost predicate AddUp(l: Ledger) {
    && (forall id :: id in l.checkouts ==> l.checkouts[id].total == l.checkouts[id].amount + l.checkouts[id].gst)
    && (forall i :: 0 <= i < |l.invoices| ==> InvoiceAddsUp(l.invoices[i]))
  }

  ghost predicate InvoiceAddsUp(invoice: Invoice) {
    invoice.amount + invoice.cgst + invoice.sgst + invoice.igst == invoice.total
  }

  ghost predicate Sound(l: Ledger) { HasBusinesses(l) && InSequence(l) && OneToOne(l) && AddUp(l) }

  lemma IssuedNext(invoices: seq<Invoice>, invoice: Invoice, year: int)
    ensures Issued(invoices + [invoice], year) == Issued(invoices, year) + if invoice.fiscalYear == year then 1 else 0
  {
    assert (invoices + [invoice])[..|invoices|] == invoices;
  }

  lemma CountedInSequence(l: Ledger, id: Id, at: Moment)
    requires InSequence(l) && HasBusinesses(l) && id in l.checkouts
    ensures InSequence(Counted(l, id, at))
  {
    hide PeriodFrom, PeriodTo, FiscalYearOf, SplitSubscriptionGst, Issued;
    var r, invoice := Counted(l, id, at), InvoiceFor(l, id, at);
    forall i | 0 <= i < |r.invoices| ensures r.invoices[i].seqNo == Issued(r.invoices[..i], r.invoices[i].fiscalYear) + 1 {
      if i < |l.invoices| {
        assert r.invoices[..i] == l.invoices[..i];
      } else {
        assert r.invoices[..i] == l.invoices;
      }
    }
    forall year ensures LastIn(r.last, year) == Issued(r.invoices, year) {
      IssuedNext(l.invoices, invoice, year);
    }
  }

  lemma CountedOneToOne(l: Ledger, id: Id, at: Moment)
    requires OneToOne(l) && HasBusinesses(l) && id in l.checkouts && l.checkouts[id].status.Pending?
    ensures OneToOne(Counted(l, id, at))
  {
    hide PeriodFrom, PeriodTo, FiscalYearOf, SplitSubscriptionGst, LastIn;
    var r := Counted(l, id, at);
    forall other | other in r.checkouts && r.checkouts[other].status.Settled?
      ensures exists i :: 0 <= i < |r.invoices| && r.invoices[i].checkout == other
    {
      if other == id {
        assert r.invoices[|l.invoices|].checkout == id;
      } else {
        var i :| 0 <= i < |l.invoices| && l.invoices[i].checkout == other;
        assert r.invoices[i].checkout == other;
      }
    }
  }

  lemma CountedAddsUp(l: Ledger, id: Id, at: Moment)
    requires AddUp(l) && HasBusinesses(l) && id in l.checkouts
    ensures AddUp(Counted(l, id, at)) && HasBusinesses(Counted(l, id, at))
  {
    hide PeriodFrom, PeriodTo, FiscalYearOf, LastIn;
  }

  lemma EventKeeps(l: Ledger, event: GatewayEvent, at: Moment)
    requires Sound(l)
    ensures Sound(Applied(l, event, at))
  {
    hide Counted, Issued, InvoiceAddsUp;
    var recorded := l.(events := l.events + {event.eventId});
    if event.checkout in l.checkouts && l.checkouts[event.checkout].status.Pending? {
      CountedInSequence(recorded, event.checkout, at);
      CountedOneToOne(recorded, event.checkout, at);
      CountedAddsUp(recorded, event.checkout, at);
    }
  }

  lemma BeginKeeps(l: Ledger, id: Id, business: Id, plan: PlanCode, period: Period, gstRate: nat)
    requires Sound(l) && id !in l.checkouts && business in l.subscribers
    ensures Sound(Begun(l, id, business, plan, period, gstRate))
  {
    hide Issued, InvoiceAddsUp, PriceOf, SubscriptionGst, LastIn;
  }

  // ----- Whole runs

  datatype Step =
    | Begin(id: Id, business: Id, plan: PlanCode, period: Period, gstRate: nat)
    | Deliver(event: GatewayEvent, at: Moment)

  predicate MayTake(l: Ledger, step: Step) {
    step.Begin? ==> step.id !in l.checkouts && step.business in l.subscribers
  }

  ghost function Took(l: Ledger, step: Step): (r: Ledger)
    requires HasBusinesses(l)
  {
    match step
    case Begin(id, business, plan, period, gstRate) => Begun(l, id, business, plan, period, gstRate)
    case Deliver(event, at) => Applied(l, event, at)
  }

  /** A run from a ledger nothing has happened in; a step that can't be taken is left out. */
  ghost function Run(businesses: map<Id, Subscriber>, steps: seq<Step>): (r: Ledger)
    ensures Sound(r)
  {
    if steps == [] then Ledger(map[], {}, businesses, map[], [])
    else
      var before, step := Run(businesses, steps[..|steps| - 1]), steps[|steps| - 1];
      if MayTake(before, step) then
        assert Sound(Took(before, step)) by { StepKeeps(before, step); }
        Took(before, step)
      else before
  }

  lemma StepKeeps(l: Ledger, step: Step)
    requires Sound(l) && MayTake(l, step)
    ensures Sound(Took(l, step))
  {
    hide Sound, Applied, Begun;
    SoundBusinesses(l);
    match step
    case Begin(id, business, plan, period, gstRate) => BeginKeeps(l, id, business, plan, period, gstRate);
    case Deliver(event, at) => EventKeeps(l, event, at);
  }

  lemma SoundBusinesses(l: Ledger)
    requires Sound(l)
    ensures HasBusinesses(l)
  {
  }

  lemma {:induction false} CountsReached(invoices: seq<Invoice>, year: int, n: nat) returns (i: nat)
    requires 1 <= n <= Issued(invoices, year)
    requires forall k :: 0 <= k < |invoices| ==> invoices[k].seqNo == Issued(invoices[..k], invoices[k].fiscalYear) + 1
    ensures i < |invoices| && invoices[i].fiscalYear == year && invoices[i].seqNo == n
  {
    var last := |invoices| - 1;
    if invoices[last].fiscalYear == year && n == Issued(invoices, year) {
      i := last;
    } else {
      forall k | 0 <= k < last ensures invoices[..last][k].seqNo == Issued(invoices[..last][..k], invoices[..last][k].fiscalYear) + 1 {
        assert invoices[..last][..k] == invoices[..k];
      }
      i := CountsReached(invoices[..last], year, n);
    }
  }

  lemma {:induction false} IssuedGrows(invoices: seq<Invoice>, year: int, i: nat, j: nat)
    requires i <= j <= |invoices|
    ensures Issued(invoices[..i], year) <= Issued(invoices[..j], year)
    decreases j
  {
    if i < j {
      assert invoices[..j][..j - 1] == invoices[..j - 1];
      IssuedGrows(invoices, year, i, j - 1);
    }
  }

  /** One invoice of the year, and no other, has this count. */
  ghost predicate OneInvoice(invoices: seq<Invoice>, year: int, n: nat) {
    exists i :: 0 <= i < |invoices| && IsNumber(invoices[i], year, n) && forall j :: 0 <= j < |invoices| && IsNumber(invoices[j], year, n) ==> j == i
  }

  predicate IsNumber(invoice: Invoice, year: int, n: nat) { invoice.fiscalYear == year && invoice.seqNo == n }

  lemma CountOnce(l: Ledger, year: int, n: nat)
    requires InSequence(l) && 1 <= n <= LastIn(l.last, year)
    ensures OneInvoice(l.invoices, year, n)
  {
    hide Issued;
    var i := CountsReached(l.invoices, year, n);
    forall j | 0 <= j < |l.invoices| && IsNumber(l.invoices[j], year, n) ensures j == i {
      CountApart(l.invoices, year, i, j);
    }
  }

  lemma CountWithin(l: Ledger, i: nat)
    requires InSequence(l) && i < |l.invoices|
    ensures 1 <= l.invoices[i].seqNo <= LastIn(l.last, l.invoices[i].fiscalYear)
  {
    var year := l.invoices[i].fiscalYear;
    IssuedGrows(l.invoices, year, i + 1, |l.invoices|);
    assert l.invoices[..i + 1][..i] == l.invoices[..i];
    assert l.invoices[..|l.invoices|] == l.invoices;
  }

  /**
   * Whatever is delivered, in whatever order and however often: the settled checkouts and the invoices
   * match one to one, each invoice is for its checkout's plan and period and adds up to what was paid for it, and each financial year's invoices are
   * numbered from 1 to its last, none missing and none twice.
   */
  lemma InvoicesInOrder(businesses: map<Id, Subscriber>, steps: seq<Step>)
    ensures var l := Run(businesses, steps);
            && OneToOne(l) && AddUp(l)
            && (forall year, n :: 1 <= n <= LastIn(l.last, year) ==> OneInvoice(l.invoices, year, n))
            && (forall i :: 0 <= i < |l.invoices| ==> 1 <= l.invoices[i].seqNo <= LastIn(l.last, l.invoices[i].fiscalYear))
  {
    hide Run, OneToOne, AddUp, HasBusinesses, InSequence, LastIn, OneInvoice;
    var l := Run(businesses, steps);
    forall year, n | 1 <= n <= LastIn(l.last, year) ensures OneInvoice(l.invoices, year, n) { CountOnce(l, year, n); }
    forall i | 0 <= i < |l.invoices| ensures 1 <= l.invoices[i].seqNo <= LastIn(l.last, l.invoices[i].fiscalYear) { CountWithin(l, i); }
  }

  lemma CountApart(invoices: seq<Invoice>, year: int, i: nat, j: nat)
    requires i < |invoices| && j < |invoices| && invoices[i].fiscalYear == year && invoices[j].fiscalYear == year
    ensures i < j ==> Issued(invoices[..i], year) < Issued(invoices[..j], year)
    ensures j < i ==> Issued(invoices[..j], year) < Issued(invoices[..i], year)
  {
    if i < j {
      IssuedGrows(invoices, year, i + 1, j);
      assert invoices[..i + 1][..i] == invoices[..i];
    } else if j < i {
      IssuedGrows(invoices, year, j + 1, i);
      assert invoices[..j + 1][..j] == invoices[..j];
    }
  }

  // ----- Exactly once

  /** A delivery changes the ledger exactly when its checkout is known and its event isn't recorded yet. */
  lemma DeliveryChanges(l: Ledger, event: GatewayEvent, at: Moment)
    requires HasBusinesses(l)
    ensures Applied(l, event, at) != l <==> event.checkout in l.checkouts && event.eventId !in l.events
    ensures event.checkout in l.checkouts ==> event.eventId in Applied(l, event, at).events
  {
    hide PeriodFrom, PeriodTo, FiscalYearOf, SplitSubscriptionGst;
  }

  /** What a ledger never loses: checkouts, those not pending as they are; recorded events; and invoices, with none more for those. */
  ghost predicate Continues(l: Ledger, r: Ledger) {
    && l.events <= r.events && l.invoices <= r.invoices
    && (forall id :: id in l.checkouts ==> id in r.checkouts)
    && (forall id :: id in l.checkouts && !l.checkouts[id].status.Pending? ==> r.checkouts[id] == l.checkouts[id])
    && (forall i :: |l.invoices| <= i < |r.invoices| ==>
          r.invoices[i].checkout in l.checkouts ==> l.checkouts[r.invoices[i].checkout].status.Pending?)
  }

  lemma StepContinues(l: Ledger, step: Step)
    requires HasBusinesses(l) && MayTake(l, step)
    ensures Continues(l, Took(l, step))
  {
    hide PeriodFrom, PeriodTo, FiscalYearOf, SplitSubscriptionGst, PriceOf, SubscriptionGst;
  }

  lemma ContinuesOn(l: Ledger, m: Ledger, r: Ledger)
    requires Continues(l, m) && Continues(m, r)
    ensures Continues(l, r)
  {
    forall i | |l.invoices| <= i < |r.invoices| && r.invoices[i].checkout in l.checkouts
      ensures l.checkouts[r.invoices[i].checkout].status.Pending?
    {
      if i < |m.invoices| { assert r.invoices[i] == m.invoices[i]; }
    }
  }

  lemma RunOneMore(businesses: map<Id, Subscriber>, steps: seq<Step>, step: Step)
    ensures var before := Run(businesses, steps);
            HasBusinesses(before) && Run(businesses, steps + [step]) == if MayTake(before, step) then Took(before, step) else before
  {
    hide Took, Sound;
    assert (steps + [step])[..|steps|] == steps;
    SoundBusinesses(Run(businesses, steps));
  }

  lemma {:induction false} RunContinues(businesses: map<Id, Subscriber>, steps: seq<Step>, more: seq<Step>)
    ensures Continues(Run(businesses, steps), Run(businesses, steps + more))
  {
    hide Run, Took, Continues, MayTake;
    var l := Run(businesses, steps);
    if more == [] {
      assert steps + more == steps;
      ContinuesItself(l);
    } else {
      var n := |more| - 1;
      RunContinues(businesses, steps, more[..n]);
      assert steps + more == (steps + more[..n]) + [more[n]];
      RunOneMore(businesses, steps + more[..n], more[n]);
      var m := Run(businesses, steps + more[..n]);
      if MayTake(m, more[n]) {
        StepContinues(m, more[n]);
        ContinuesOn(l, m, Took(m, more[n]));
      }
    }
  }

  lemma ContinuesItself(l: Ledger)
    ensures Continues(l, l)
  {
  }

  /** An event once delivered for a checkout begun changes nothing at any later delivery, whatever came in between. */
  lemma ReplayChangesNothing(
    businesses: map<Id, Subscriber>, steps: seq<Step>, event: GatewayEvent, at: Moment, more: seq<Step>, again: GatewayEvent, later: Moment)
    requires event.checkout in Run(businesses, steps).checkouts && again.eventId == event.eventId
    ensures var delivered := steps + [Deliver(event, at)] + more;
            Run(businesses, delivered + [Deliver(again, later)]) == Run(businesses, delivered)
  {
    hide Run, Applied, HasBusinesses;
    var l, first := Run(businesses, steps), steps + [Deliver(event, at)];
    RunOneMore(businesses, steps, Deliver(event, at));
    DeliveryChanges(l, event, at);
    RunContinues(businesses, first, more);
    RunOneMore(businesses, first + more, Deliver(again, later));
    DeliveryChanges(Run(businesses, first + more), again, later);
  }

  /** Delivered before its checkout is begun it isn't recorded: nothing changes then, and it may count later. */
  lemma EarlyIsForgotten(businesses: map<Id, Subscriber>, steps: seq<Step>, event: GatewayEvent, at: Moment)
    requires event.checkout !in Run(businesses, steps).checkouts
    ensures Run(businesses, steps + [Deliver(event, at)]) == Run(businesses, steps)
  {
    hide Run, Applied, HasBusinesses;
    RunOneMore(businesses, steps, Deliver(event, at));
    DeliveryChanges(Run(businesses, steps), event, at);
  }

  /** A checkout leaves pending at most once: settled or failed it stays as it is in every continuation, with no more invoices for it. */
  lemma SettledStays(businesses: map<Id, Subscriber>, steps: seq<Step>, more: seq<Step>, id: Id)
    requires id in Run(businesses, steps).checkouts && !Run(businesses, steps).checkouts[id].status.Pending?
    ensures var l, r := Run(businesses, steps), Run(businesses, steps + more);
            && id in r.checkouts && r.checkouts[id] == l.checkouts[id]
            && l.invoices <= r.invoices && forall i :: |l.invoices| <= i < |r.invoices| ==> r.invoices[i].checkout != id
  {
    hide Run;
    RunContinues(businesses, steps, more);
  }

  // ----- Paid time

  /** A payment for the plan a business is on adds at least the period's days to the time it had. */
  lemma SamePlanNeverShortens(s: Subscriber, plan: PlanCode, period: Period, now: int)
    requires s.plan == Some(plan)
    ensures var to, days := PeriodTo(s, plan, period, now), if period.Month? then 28 else 365;
            && to >= now + days * DAY_MS
            && (s.paidUntil.Some? ==> to >= s.paidUntil.value + days * DAY_MS)
            && (s.trialEndsAt.Some? ==> to >= s.trialEndsAt.value + days * DAY_MS)
  {
    hide AddBillingPeriod;
    PeriodLength(PeriodFrom(s, plan, now), period);
  }

  /** Time carried to another plan is worth what it was, to within half a millisecond at the new price. */
  lemma CarriedKeepsValue(left: nat, fromPrice: nat, toPrice: nat)
    requires toPrice > 0
    ensures var value, kept := left * fromPrice, Carried(left, fromPrice, toPrice) * toPrice;
            2 * (kept - value) <= toPrice && 2 * (value - kept) <= toPrice
  {
    Halved(left * fromPrice, toPrice);
  }

  lemma Halved(value: nat, price: nat)
    requires price > 0
    ensures var kept := (2 * value + price) / (2 * price) * price;
            2 * (kept - value) <= price && 2 * (value - kept) <= price
  {
    var q, r := (2 * value + price) / (2 * price), (2 * value + price) % (2 * price);
    DivMod(2 * value + price, 2 * price);
    assert 2 * (q * price) == q * (2 * price);
  }

  lemma DivMod(n: nat, d: nat)
    requires d > 0
    ensures n == n / d * d + n % d && 0 <= n % d < d
  {
  }

  /** A changed plan starts at once, after what is left of the trial, with the carried time before its own period. */
  lemma OtherPlanStartsAtOnce(s: Subscriber, plan: PlanCode, period: Period, now: int)
    requires s.plan.Some? && s.plan.value != plan
    ensures var base := Latest(now, s.trialEndsAt);
            var carried := PeriodFrom(s, plan, now) - base;
            && carried >= 0
            && 2 * (carried * MonthPrice(plan) - LeftAt(s, base) * MonthPrice(s.plan.value)) <= MonthPrice(plan)
            && 2 * (LeftAt(s, base) * MonthPrice(s.plan.value) - carried * MonthPrice(plan)) <= MonthPrice(plan)
            && base + carried + (if period.Month? then 28 else 365) * DAY_MS <= PeriodTo(s, plan, period, now)
            && PeriodTo(s, plan, period, now) <= base + carried + (if period.Month? then 31 else 366) * DAY_MS
  {
    hide AddBillingPeriod, MonthPrice, Carried;
    var base := Latest(now, s.trialEndsAt);
    CarriedKeepsValue(LeftAt(s, base), MonthPrice(s.plan.value), MonthPrice(plan));
    PeriodLength(PeriodFrom(s, plan, now), period);
  }

  /** A counted payment leaves the business paid, on the plan it paid for, until the invoice's end. */
  lemma CountedIsPaid(l: Ledger, event: GatewayEvent, at: Moment, when: int)
    requires Sound(l) && event.checkout in l.checkouts && event.eventId !in l.events
    requires l.checkouts[event.checkout].status.Pending? && event.succeeded && event.amount == l.checkouts[event.checkout].total
    ensures var c, r := l.checkouts[event.checkout], Applied(l, event, at);
            && c.business in r.subscribers && r.subscribers[c.business].plan == Some(c.plan)
            && |r.invoices| == |l.invoices| + 1
            && r.invoices[|l.invoices|].periodTo >= at.now + (if c.period.Month? then 28 else 365) * DAY_MS
            && (at.now <= when < r.invoices[|l.invoices|].periodTo ==> BillingStateAt(r.subscribers[c.business], when) == Paid)
  {
    hide AddBillingPeriod, FiscalYearOf, SplitSubscriptionGst, InSequence, OneToOne, AddUp, Carried, MonthPrice;
    var c := l.checkouts[event.checkout];
    PeriodLength(PeriodFrom(l.subscribers[c.business], c.plan, at.now), c.period);
  }
}
