/**
 * The server's sync, seen through the protocol: every sync it takes is a step the protocol takes, with the
 * same documents, the same numbers and the same last counts.
 */
module SyncRefinesProtocol {
  import AcceptedOutbox
  import opened DocumentNumbers
  import FP = FallbackProtocol
  import opened GrownSync
  import opened OutboxRows
  import opened ResentOutbox
  import opened Rounding
  import opened ServerTables
  import opened Sync
  import opened SyncChecks
  import Tables

  function Print(number: FP.Number): (r: string) {
    DocumentNumber(number.key.series, number.key.fiscalYear, number.count)
  }

  function InvoiceDoc(id: Id): FP.DocId { FP.DocId(InvoiceKind, id) }
  function ReturnDoc(id: Id): FP.DocId { FP.DocId(ReturnKind, id) }

  /** The counter's own invoices and returns in the tables are the protocol's documents, under their printed numbers. */
  ghost predicate SameDocuments(d: Documents, ctr: Counter, docs: FP.Docs) {
    && (forall id :: InvoiceDoc(id) in docs <==> id in d.invoices && d.invoices[id].documentSeries == ctr.invoiceSeries)
    && (forall id :: ReturnDoc(id) in docs <==> id in d.givenBack && d.givenBack[id].documentSeries == ctr.returnSeries)
    && (forall id :: InvoiceDoc(id) in docs ==> d.invoices[id].invoiceNo == Print(docs[InvoiceDoc(id)]))
    && (forall id :: ReturnDoc(id) in docs ==> d.givenBack[id].returnNo == Print(docs[ReturnDoc(id)]))
  }

  ghost predicate SameCounts(sequences: map<SeqKey, nat>, last: FP.Counts) {
    forall key :: LastIn(sequences, key) == FP.Last(last, key)
  }

  ghost predicate SeenAs(s: Server, ctr: Counter, o: FP.Online) {
    SameDocuments(s.documents, ctr, o.docs) && SameCounts(s.numbers.sequences, o.last)
  }

  /** A message holds the outbox's invoices and returns under their numbers, and its sequences. */
  ghost predicate Sends(out: Outbox, m: FP.Message) {
    && (forall id :: InvoiceDoc(id) in m.docs <==> id in BillIds(out.invoices))
    && (forall id :: ReturnDoc(id) in m.docs <==> id in ReturnIds(out.givenBack))
    && (forall entry :: entry in out.invoices ==>
          && InvoiceDoc(entry.invoice.id) in m.docs
          && entry.invoice.invoiceNo == Print(m.docs[InvoiceDoc(entry.invoice.id)]))
    && (forall entry :: entry in out.givenBack ==>
          && ReturnDoc(entry.ret.id) in m.docs
          && entry.ret.returnNo == Print(m.docs[ReturnDoc(entry.ret.id)]))
    && SameCounts(RaiseAll(map[], out.sequences), m.last)
  }

  /** No document of another counter's goes by the id of one sent. */
  ghost predicate IdsOwn(d: Documents, ctr: Counter, out: Outbox) {
    && (forall id :: id in BillIds(out.invoices) && id in d.invoices ==> d.invoices[id].documentSeries == ctr.invoiceSeries)
    && (forall id :: id in ReturnIds(out.givenBack) && id in d.givenBack ==> d.givenBack[id].documentSeries == ctr.returnSeries)
  }

  // ----- Counts

  lemma RaisedFrom(m: map<SeqKey, nat>, rows: seq<SequenceRow>, key: SeqKey)
    ensures LastIn(RaiseAll(m, rows), key) == Max(LastIn(m, key), LastIn(RaiseAll(map[], rows), key))
  {
    hide RaiseAll;
    RaisedIs(m, rows, key);
    RaisedIs(map[], rows, key);
  }

  lemma SameCountsAfter(s: Server, ctr: Counter, out: Outbox, newId: Id -> Id, o: FP.Online, m: FP.Message)
    requires SameCounts(s.numbers.sequences, o.last) && Sends(out, m)
    ensures SameCounts(Taken(s, ctr, out, newId).numbers.sequences, FP.Taken(o, m).last)
  {
    hide Taken, RaiseAll;
    TakenPeople(s, ctr, out, newId);
    forall key ensures LastIn(Taken(s, ctr, out, newId).numbers.sequences, key) == FP.Last(FP.Taken(o, m).last, key) {
      RaisedFrom(s.numbers.sequences, out.sequences, key);
      assert LastIn(RaiseAll(map[], out.sequences), key) == FP.Last(m.last, key);
      assert LastIn(s.numbers.sequences, key) == FP.Last(o.last, key);
    }
  }

  // ----- Documents

  /** What is new in the tables is one of the outbox's own documents, under its number. */
  ghost predicate NewOwn(d: Documents, d1: Documents, ctr: Counter, out: Outbox) {
    && (forall id :: id in d1.invoices && id !in d.invoices ==>
          d1.invoices[id].documentSeries == ctr.invoiceSeries
          && exists entry :: entry in out.invoices && entry.invoice.id == id && d1.invoices[id].invoiceNo == entry.invoice.invoiceNo)
    && (forall id :: id in d1.givenBack && id !in d.givenBack ==>
          d1.givenBack[id].documentSeries == ctr.returnSeries
          && exists entry :: entry in out.givenBack && entry.ret.id == id && d1.givenBack[id].returnNo == entry.ret.returnNo)
    && (forall id :: id in BillIds(out.invoices) ==> id in d1.invoices)
  }

  lemma NewAreOwn(s: Server, ctr: Counter, out: Outbox, newId: Id -> Id)
    requires Owned(ctr, out)
    ensures NewOwn(s.documents, Taken(s, ctr, out, newId).documents, ctr, out)
  {
    hide Taken, PlaceCustomers, Tables.Insert, Flat;
    TakenDocuments(s, ctr, out, newId);
    var sameAs := PlaceCustomers(s, ctr, out.customers).sameAs;
    Tables.InsertedAre(s.documents.invoices, Heads(WithCustomers(out.invoices, sameAs)), INVOICE_ID);
    Tables.InsertedAre(s.documents.givenBack, ReturnHeads(out.givenBack), RETURN_ID);
    SettledAre(ctr, out, sameAs);
    ReturnsAre(ctr, out);
  }

  lemma SettledAre(ctr: Counter, out: Outbox, sameAs: map<Id, Id>)
    requires Owned(ctr, out)
    ensures forall row :: row in Heads(WithCustomers(out.invoices, sameAs)) ==>
              row.documentSeries == ctr.invoiceSeries
              && exists entry :: entry in out.invoices && entry.invoice.id == row.id && row.invoiceNo == entry.invoice.invoiceNo
    ensures forall id :: id in BillIds(out.invoices) ==> exists row :: row in Heads(WithCustomers(out.invoices, sameAs)) && row.id == id
  {
    var settled := WithCustomers(out.invoices, sameAs);
    forall row | row in Heads(settled)
      ensures row.documentSeries == ctr.invoiceSeries
      ensures exists entry :: entry in out.invoices && entry.invoice.id == row.id && row.invoiceNo == entry.invoice.invoiceNo
    {
      var k :| 0 <= k < |settled| && Heads(settled)[k] == row;
      assert out.invoices[k] in out.invoices;
      assert OwnInvoice(ctr, IdsOf(out.registers), out.invoices[k]);
    }
    forall id | id in BillIds(out.invoices) ensures exists row :: row in Heads(settled) && row.id == id {
      var entry :| entry in out.invoices && entry.invoice.id == id;
      var k :| 0 <= k < |out.invoices| && out.invoices[k] == entry;
      assert Heads(settled)[k] in Heads(settled);
    }
  }

  lemma ReturnsAre(ctr: Counter, out: Outbox)
    requires Owned(ctr, out)
    ensures forall row :: row in ReturnHeads(out.givenBack) ==>
              row.documentSeries == ctr.returnSeries && exists entry :: entry in out.givenBack && entry.ret == row
  {
    forall row | row in ReturnHeads(out.givenBack)
      ensures row.documentSeries == ctr.returnSeries && exists entry :: entry in out.givenBack && entry.ret == row
    {
      var k :| 0 <= k < |out.givenBack| && ReturnHeads(out.givenBack)[k] == row;
      assert out.givenBack[k] in out.givenBack;
      assert OwnReturn(ctr, IdsOf(out.registers), out.givenBack[k]);
    }
  }

  lemma SameInvoicesAfter(d: Documents, d1: Documents, ctr: Counter, out: Outbox, o: FP.Online, m: FP.Message, id: Id)
    requires SameDocuments(d, ctr, o.docs) && Sends(out, m) && IdsOwn(d, ctr, out) && NewOwn(d, d1, ctr, out) && NewAreSent(d, d1, out)
    ensures var docs := FP.Taken(o, m).docs;
            && (InvoiceDoc(id) in docs <==> id in d1.invoices && d1.invoices[id].documentSeries == ctr.invoiceSeries)
            && (InvoiceDoc(id) in docs ==> d1.invoices[id].invoiceNo == Print(docs[InvoiceDoc(id)]))
  {
    hide Print, ReturnIds, ReceiptIds, Flat, FP.Higher;
  }

  lemma SameReturnsAfter(d: Documents, d1: Documents, ctr: Counter, out: Outbox, o: FP.Online, m: FP.Message, id: Id)
    requires SameDocuments(d, ctr, o.docs) && Sends(out, m) && IdsOwn(d, ctr, out) && NewOwn(d, d1, ctr, out) && NewAreSent(d, d1, out)
    ensures var docs := FP.Taken(o, m).docs;
            && (ReturnDoc(id) in docs <==> id in d1.givenBack && d1.givenBack[id].documentSeries == ctr.returnSeries)
            && (ReturnDoc(id) in docs ==> d1.givenBack[id].returnNo == Print(docs[ReturnDoc(id)]))
  {
    hide Print, BillIds, ReceiptIds, Flat, FP.Higher;
  }

  // ----- Clashes

  lemma NoProtocolClash(d: Documents, ctr: Counter, out: Outbox, o: FP.Online, m: FP.Message)
    requires SameDocuments(d, ctr, o.docs) && Sends(out, m) && NumberClashes(d, out) == {}
    ensures forall id, other :: id in m.docs && other in o.docs && other !in m.docs && id.kind == other.kind ==> o.docs[other] != m.docs[id]
  {
    hide NumberClashes, Flat, Print, BillIds, ReturnIds, InvoiceNos, ReturnNos, ReceiptIds, ReceiptNos;
    UsedNumbersClash(d, out);
    forall id, other | id in m.docs && other in o.docs && id.kind == other.kind && o.docs[other] == m.docs[id] ensures other in m.docs {
      if id.kind.InvoiceKind? {
        InvoiceWithId(out, m, id.id);
        assert other == InvoiceDoc(other.id) && id == InvoiceDoc(id.id);
      } else {
        ReturnWithId(out, m, id.id);
        assert other == ReturnDoc(other.id) && id == ReturnDoc(id.id);
      }
    }
  }

  lemma InvoiceWithId(out: Outbox, m: FP.Message, id: Id)
    requires Sends(out, m) && InvoiceDoc(id) in m.docs
    ensures Print(m.docs[InvoiceDoc(id)]) in InvoiceNos(out.invoices)
  {
    hide Print, RaiseAll;
    var entry :| entry in out.invoices && entry.invoice.id == id;
    assert entry.invoice.invoiceNo == Print(m.docs[InvoiceDoc(id)]);
  }

  lemma ReturnWithId(out: Outbox, m: FP.Message, id: Id)
    requires Sends(out, m) && ReturnDoc(id) in m.docs
    ensures Print(m.docs[ReturnDoc(id)]) in ReturnNos(out.givenBack)
  {
    hide Print, RaiseAll;
    var entry :| entry in out.givenBack && entry.ret.id == id;
    assert entry.ret.returnNo == Print(m.docs[ReturnDoc(id)]);
  }

  /** A number's series is of its document's kind. */
  ghost predicate OfItsKind(docs: FP.Docs) {
    forall id :: id in docs ==> docs[id].key.kind == id.kind
  }

  /** A sync the server takes is a step of the protocol: no number clashes, and the server is seen as the protocol has it. */
  lemma TakenIsAStep(s: Server, ctr: Counter, out: Outbox, newId: Id -> Id, o: FP.Online, m: FP.Message)
    requires SeenAs(s, ctr, o) && Sends(out, m) && IdsOwn(s.documents, ctr, out) && OfItsKind(o.docs) && OfItsKind(m.docs)
    requires Accepts(s, ctr, out, newId)
    ensures !FP.Clashes(o, m)
    ensures SeenAs(Taken(s, ctr, out, newId), ctr, FP.Taken(o, m))
  {
    hide Accepts, Taken, FP.Taken, SameDocuments, Sends, IdsOwn, NewAreSent, NewOwn, SameCounts, NumberClashes;
    AcceptedOutbox.NothingClashes(s, ctr, out, newId);
    AcceptedOwned(s, ctr, out, newId);
    NoProtocolClash(s.documents, ctr, out, o, m);
    SameCountsAfter(s, ctr, out, newId, o, m);
    NewAreOwn(s, ctr, out, newId);
    SentDocuments(s, ctr, out, newId);
    SameDocumentsAfter(s.documents, Taken(s, ctr, out, newId).documents, ctr, out, o, m);
  }

  lemma SameDocumentsAfter(d: Documents, d1: Documents, ctr: Counter, out: Outbox, o: FP.Online, m: FP.Message)
    requires SameDocuments(d, ctr, o.docs) && Sends(out, m) && IdsOwn(d, ctr, out) && NewOwn(d, d1, ctr, out) && NewAreSent(d, d1, out)
    ensures SameDocuments(d1, ctr, FP.Taken(o, m).docs)
  {
    hide Sends, IdsOwn, NewOwn, NewAreSent, FP.Taken, Print;
    forall id: Id
      ensures var docs := FP.Taken(o, m).docs;
              && (InvoiceDoc(id) in docs <==> id in d1.invoices && d1.invoices[id].documentSeries == ctr.invoiceSeries)
              && (InvoiceDoc(id) in docs ==> d1.invoices[id].invoiceNo == Print(docs[InvoiceDoc(id)]))
              && (ReturnDoc(id) in docs <==> id in d1.givenBack && d1.givenBack[id].documentSeries == ctr.returnSeries)
              && (ReturnDoc(id) in docs ==> d1.givenBack[id].returnNo == Print(docs[ReturnDoc(id)]))
    {
      SameInvoicesAfter(d, d1, ctr, out, o, m, id);
      SameReturnsAfter(d, d1, ctr, out, o, m, id);
    }
  }
}
