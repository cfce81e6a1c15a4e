/**
 * What a sync checks of its bills doesn't turn on which customers they are settled on
 * (apps/api/src/fallback/fallback.service.ts, apps/api/src/fallback/verify-outbox.ts).
 */
module SettledCustomers {
  import opened GrownCustomers
  import opened OutboxRows
  import opened ServerTables
  import opened Sync
  import opened Tables
  import VO = VerifyOutbox

  // ----- Whether a bill's customer is there

  lemma {:induction false} MergedAreKnown(s: Server, ctr: Counter, rows: seq<CustomerRow>)
    ensures forall id :: id in PlaceCustomers(s, ctr, rows).sameAs ==> PlaceCustomers(s, ctr, rows).sameAs[id] in s.people.customers
  {
    if rows != [] { MergedAreKnown(s, ctr, rows[..|rows| - 1]); }
  }

  /** Every row is known, merged or to be added. */
  lemma {:induction false} AllPlaced(s: Server, ctr: Counter, rows: seq<CustomerRow>)
    ensures var p := PlaceCustomers(s, ctr, rows);
            forall row :: row in rows ==> row.id in s.people.customers || row.id in p.sameAs || row in p.created
  {
    hide WithPhone;
    if rows != [] {
      var n := |rows| - 1;
      assert rows == rows[..n] + [rows[n]];
      AllPlaced(s, ctr, rows[..n]);
    }
  }

  function SettledOn(p: Placed, customer: Id): (r: Id) { if customer in p.sameAs then p.sameAs[customer] else customer }

  /** A bill's customer, once settled, is there or to be added exactly when the server has it or it is among those sent. */
  lemma FoundWhen(s: Server, ctr: Counter, rows: seq<CustomerRow>, customer: Id)
    ensures var p := PlaceCustomers(s, ctr, rows);
            SettledOn(p, customer) in s.people.customers || SettledOn(p, customer) in CreatedIds(p.created)
            <==> customer in s.people.customers || customer in CustomerIds(rows)
  {
    hide PlaceCustomers, IsNew, IsMerged;
    MergedAreKnown(s, ctr, rows);
    AllPlaced(s, ctr, rows);
    CreatedAre(s, ctr, rows);
  }

  /** The customers sent that are on the server after the first sending were there before, or among those sent first. */
  lemma KnownOrSent(s: Server, ctr: Counter, first: seq<CustomerRow>, rows: seq<CustomerRow>, customer: Id)
    requires first <= rows
    ensures var added := AddCustomers(s.people, ctr.branchId, PlaceCustomers(s, ctr, first).created);
            customer in added.customers || customer in CustomerIds(rows) <==> customer in s.people.customers || customer in CustomerIds(rows)
  {
    hide PlaceCustomers, AddCustomers, IsNew, IsMerged;
    AddedAre(s.people, ctr.branchId, PlaceCustomers(s, ctr, first).created);
    CreatedAre(s, ctr, first);
  }

  // ----- Nothing the check looks at

  function OnCustomer(entry: InvoiceEntry, customer: Id): (r: InvoiceEntry) { entry.(invoice := entry.invoice.(customerId := customer)) }

  lemma SameAmounts(entry: InvoiceEntry, customer: Id)
    ensures var r := OnCustomer(entry, customer);
            && VO.HeadProblems(r.invoice, r.lines) == VO.HeadProblems(entry.invoice, entry.lines)
            && VO.Recompute(r) == VO.Recompute(entry)
            && VO.AmountsAgree(r.invoice, r.lines, VO.Recompute(r)) == VO.AmountsAgree(entry.invoice, entry.lines, VO.Recompute(entry))
            && VO.PaymentProblems(r.invoice, r.payments) == VO.PaymentProblems(entry.invoice, entry.payments)
  {
    hide VO.LineAgrees, VO.PaidBy, VO.LineSum;
    SameTotals(entry, customer);
    hide VO.Recompute;
  }

  lemma SameTotals(entry: InvoiceEntry, customer: Id)
    ensures VO.Recompute(OnCustomer(entry, customer)) == VO.Recompute(entry)
  {
  }

  lemma SameProblems(entry: InvoiceEntry, customer: Id, maxPercent: Option<int>)
    ensures VO.InvoiceProblems(OnCustomer(entry, customer), maxPercent) == VO.InvoiceProblems(entry, maxPercent)
  {
    hide VO.ImpossibleRow, VO.StockMatches, VO.ListTotal, VO.HeadProblems, VO.AmountsAgree, VO.PaymentProblems, VO.Recompute, VO.When;
    SameAmounts(entry, customer);
  }

  lemma SettledEntry(entry: InvoiceEntry, sameAs: map<Id, Id>)
    ensures exists customer :: WithCustomer(entry, sameAs) == OnCustomer(entry, customer)
  {
    if entry.invoice.customerId in sameAs {
      assert WithCustomer(entry, sameAs) == OnCustomer(entry, sameAs[entry.invoice.customerId]);
    } else {
      assert WithCustomer(entry, sameAs) == OnCustomer(entry, entry.invoice.customerId);
    }
  }

  lemma {:induction false} SameInvoices(ctx: VO.OutboxContext, invoices: seq<InvoiceEntry>, sameAs: map<Id, Id>)
    ensures VO.InvoiceConflicts(ctx, WithCustomers(invoices, sameAs)) == VO.InvoiceConflicts(ctx, invoices)
    ensures VO.SoldLines(ctx.serverLines, WithCustomers(invoices, sameAs)) == VO.SoldLines(ctx.serverLines, invoices)
    ensures VO.StartRounding(ctx.serverRounding, WithCustomers(invoices, sameAs)) == VO.StartRounding(ctx.serverRounding, invoices)
  {
    hide VO.InvoiceProblems, VO.AddLines, VO.OnInvoices, WithCustomer;
    if invoices == [] {
      assert WithCustomers(invoices, sameAs) == invoices;
    } else {
      var n := |invoices| - 1;
      SameInvoices(ctx, invoices[..n], sameAs);
      assert WithCustomers(invoices, sameAs)[..n] == WithCustomers(invoices[..n], sameAs);
      SettledEntry(invoices[n], sameAs);
      var customer :| WithCustomer(invoices[n], sameAs) == OnCustomer(invoices[n], customer);
      SameProblems(invoices[n], customer, VO.CashierLimit(ctx, invoices[n].invoice.createdBy));
    }
  }

  /** Whoever the bills are settled on, the same is found. */
  lemma SameConflicts(ctx: VO.OutboxContext, invoices: seq<InvoiceEntry>, sameAs: map<Id, Id>, givenBack: seq<ReturnEntry>)
    ensures VO.Conflicts(ctx, WithCustomers(invoices, sameAs), givenBack) == VO.Conflicts(ctx, invoices, givenBack)
  {
    hide VO.InvoiceConflicts, VO.CheckReturns, VO.SoldLines, VO.StartRounding, WithCustomers;
    SameInvoices(ctx, invoices, sameAs);
  }

  // ----- The documents but for their customers

  function Bare(row: InvoiceRow): (r: InvoiceRow) { row.(customerId := 0) }

  function BareRows(rows: seq<InvoiceRow>): (r: seq<InvoiceRow>) ensures |r| == |rows| {
    seq(|rows|, i requires 0 <= i < |rows| => Bare(rows[i]))
  }

  function BareTable(table: map<Id, InvoiceRow>): (r: map<Id, InvoiceRow>) { map id | id in table :: Bare(table[id]) }

  lemma {:induction false} BareById(rows: seq<InvoiceRow>)
    ensures BareTable(ById(rows, INVOICE_ID)) == ById(BareRows(rows), INVOICE_ID)
  {
    if rows != [] {
      var n := |rows| - 1;
      BareById(rows[..n]);
      assert BareRows(rows)[..n] == BareRows(rows[..n]);
    }
  }

  lemma BareInserted(table: map<Id, InvoiceRow>, rows: seq<InvoiceRow>)
    ensures BareTable(Insert(table, rows, INVOICE_ID)) == Insert(BareTable(table), BareRows(rows), INVOICE_ID)
  {
    hide ById;
    BareById(rows);
  }

  lemma BareHeads(invoices: seq<InvoiceEntry>, sameAs: map<Id, Id>)
    ensures BareRows(Heads(WithCustomers(invoices, sameAs))) == BareRows(Heads(invoices))
  {
  }

  /** Two tables of bills that differ in customers only have each number once, both or neither. */
  lemma NumbersOfBare(a: Documents, b: Documents)
    requires BareTable(a.invoices) == BareTable(b.invoices) && a.receipts == b.receipts && a.givenBack == b.givenBack
    ensures UniqueNumbers(a) <==> UniqueNumbers(b)
  {
    assert a.invoices.Keys == BareTable(a.invoices).Keys == BareTable(b.invoices).Keys == b.invoices.Keys;
    forall id | id in a.invoices ensures a.invoices[id].invoiceNo == b.invoices[id].invoiceNo {
      assert Bare(a.invoices[id]) == BareTable(a.invoices)[id] == BareTable(b.invoices)[id];
    }
  }

  /** In two or at once, whoever the bills are settled on each time, the bills differ in customers only. */
  lemma BareInTwo(table: map<Id, InvoiceRow>, a: seq<InvoiceEntry>, b: seq<InvoiceEntry>, asFirst: map<Id, Id>, asNext: map<Id, Id>, asOnce: map<Id, Id>)
    requires a <= b
    ensures BareTable(Insert(Insert(table, Heads(WithCustomers(a, asFirst)), INVOICE_ID), Heads(WithCustomers(b, asNext)), INVOICE_ID))
         == BareTable(Insert(table, Heads(WithCustomers(b, asOnce)), INVOICE_ID))
  {
    hide Insert, WithCustomers, Heads, BareTable, BareRows;
    var first := Insert(table, Heads(WithCustomers(a, asFirst)), INVOICE_ID);
    BareInserted(table, Heads(WithCustomers(a, asFirst)));
    BareInserted(first, Heads(WithCustomers(b, asNext)));
    BareInserted(table, Heads(WithCustomers(b, asOnce)));
    BareHeads(a, asFirst);
    BareHeads(b, asNext);
    BareHeads(b, asOnce);
    BareGrown(a, b);
    var more := BareRows(Heads(b))[|a|..];
    InsertGrown(BareTable(table), BareRows(Heads(a)), more, INVOICE_ID);
  }

  lemma BareGrown(a: seq<InvoiceEntry>, b: seq<InvoiceEntry>)
    requires a <= b
    ensures |BareRows(Heads(b))| == |b| && BareRows(Heads(b)) == BareRows(Heads(a)) + BareRows(Heads(b))[|a|..]
  {
  }
}
