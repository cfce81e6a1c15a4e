/** Two customers made offline with one phone number, the second after the first was sent: what sending again comes to. */
module TwoCustomers {
  import opened AcceptedOutbox
  import opened BatchShortfalls
  import opened GrownAccepted
  import opened GrownCustomers
  import opened GrownSync
  import opened OutboxRows
  import opened ResentOutbox
  import opened ServerTables
  import opened Sync
  import opened SyncChecks
  import opened Tables
  import VO = VerifyOutbox

  const TILL := Counter(1, 1, "I", "R")
  const FIRST := CustomerRow(2, 1, false, true, "Asha", Some("98"))
  const SECOND := CustomerRow(3, 1, false, true, "Asha", Some("98"))

  const CATALOG := Catalog("1", false, 10, {}, map[], map[], (at: Instant) => 0, map[])
  const NOTHING := Documents(map[], map[], map[], map[], map[], map[], map[], map[])
  const SERVER := Server(CATALOG, NOTHING, Stock(map[], map[], map[]), map[], map[],
    People(map[1 := CustomerRow(1, 1, true, false, "Walk-in", None)], map[], map[], map[]), Numbers(map[], map[]))

  /** An outbox with customers and nothing else. */
  function Only(rows: seq<CustomerRow>): (r: Outbox) { Outbox("1", [], [], [], 0, rows, []) }

  lemma NothingElse(s: Server, rows: seq<CustomerRow>, newId: Id -> Id)
    ensures var p := Prepare(s, TILL, Only(rows), newId);
            p.created == PlaceCustomers(s, TILL, rows).created && p.invoices == [] && p.givenBack == []
  {
    hide PlaceCustomers, PlaceRows, Ordered;
  }

  lemma NoneSent(s: Server, rows: seq<CustomerRow>, created: set<Id>)
    ensures var o := Only(rows);
            && BatchClashes(s, Movements([], [])) == {} && NumberClashes(s.documents, o) == {}
            && MissingClashes(s, o, [], created) == {} && ReturnClashes(s.documents, o) == {}
  {
    assert Movements([], []) == [] && Flat([], LINES) == [] && Flat([], RECEIPTS) == [];
    assert NewReturns(s.documents, {}, []) == [];
  }

  lemma NothingWrong(ctx: VO.OutboxContext)
    ensures VO.Conflicts(ctx, [], []) == []
  {
  }

  lemma NothingClashing(s: Server, rows: seq<CustomerRow>, newId: Id -> Id)
    ensures ClashesOf(s, TILL, Only(rows), newId) == {}
  {
    hide PlaceCustomers, Prepare, VerificationContext, BatchClashes, NumberClashes, MissingClashes, ReturnClashes, VO.Conflicts, Movements, ClashesOf;
    NothingElse(s, rows, newId);
    ClashesAre(s, TILL, Only(rows), newId);
    NoneSent(s, rows, CreatedIds(PlaceCustomers(s, TILL, rows).created));
    NothingWrong(VerificationContext(s, Only(rows)));
    NoConflicts([]);
  }

  lemma SameDocuments(s: Server, rows: seq<CustomerRow>, newId: Id -> Id)
    ensures Taken(s, TILL, Only(rows), newId).documents == s.documents
  {
    hide Taken, PlaceCustomers, AddDocuments;
    TakenDocuments(s, TILL, Only(rows), newId);
    assert WithCustomers([], PlaceCustomers(s, TILL, rows).sameAs) == [];
    NoneAdded(s.documents);
  }

  lemma NoneAdded(d: Documents)
    ensures AddDocuments(d, [], []) == d
  {
    hide Insert;
    assert Heads([]) == [] && ReturnHeads([]) == [];
    NoneInserted(d.invoices, INVOICE_ID);
    NoneInserted(d.saleLines, SALE_LINE_ID);
    NoneInserted(d.discounts, DISCOUNT_ID);
    NoneInserted(d.allocations, ALLOCATION_ID);
    NoneInserted(d.payments, PAYMENT_ID);
    NoneInserted(d.receipts, RECEIPT_ID);
    NoneInserted(d.givenBack, RETURN_ID);
    NoneInserted(d.returnLines, RETURN_LINE_ID);
  }

  lemma NoneInserted<R>(table: map<Id, R>, idOf: R -> Id)
    ensures Insert(table, [], idOf) == table
  {
  }

  /** The server takes customers whoever they are, if they are the counter's own. */
  lemma CustomersTaken(s: Server, rows: seq<CustomerRow>, newId: Id -> Id)
    requires s.catalog.schemaVersion == "1" && UniqueNumbers(s.documents) && DistinctCustomers(rows)
    requires forall row :: row in rows ==> row.branchId == TILL.branchId && !row.walkIn && row.offlineCode
    ensures Accepts(s, TILL, Only(rows), newId)
  {
    hide Taken, PlaceCustomers, ClashesOf, UniqueNumbers;
    NothingClashing(s, rows, newId);
    SameDocuments(s, rows, newId);
    CreatedDistinctOf(s, TILL, rows);
  }

  lemma OneMore(newId: Id -> Id)
    ensures Later(SERVER, newId, Only([FIRST]), Only([FIRST, SECOND]))
  {
    var a, b := Only([FIRST]), Only([FIRST, SECOND]);
    assert [FIRST] <= [FIRST, SECOND];
    var g := GrowthOf(a, b);
    assert g.All() == [] && g.Later() == [] by { assert Movements([], []) == []; }
  }

  lemma BothNew(rows: seq<CustomerRow>)
    requires rows == [FIRST] || rows == [FIRST, SECOND]
    ensures PlaceCustomers(SERVER, TILL, rows) == Placed(map[], rows)
  {
    hide PlaceCustomer, PlaceCustomers;
    assert [FIRST][..0] == [] && [FIRST, SECOND][..1] == [FIRST];
    NoCustomers(SERVER, TILL, [FIRST]);
    PlaceNextCustomer(SERVER, TILL, [FIRST]);
    PlaceNextCustomer(SERVER, TILL, [FIRST, SECOND]);
    assert IsNew(SERVER, TILL, FIRST) && IsNew(SERVER, TILL, SECOND);
    PlaceCustomerIs(SERVER, TILL, Placed(map[], []), FIRST);
    PlaceCustomerIs(SERVER, TILL, Placed(map[], [FIRST]), SECOND);
  }

  /** The customers on the server after the rows are sent alone. */
  lemma SentAlone(rows: seq<CustomerRow>, newId: Id -> Id)
    requires rows == [FIRST] || rows == [FIRST, SECOND]
    ensures Accepts(SERVER, TILL, Only(rows), newId)
    ensures Taken(SERVER, TILL, Only(rows), newId).people.customers.Keys == {1} + CustomerIds(rows)
  {
    hide Accepts, Taken, PlaceCustomers, AddCustomers;
    CustomersTaken(SERVER, rows, newId);
    BothNew(rows);
    TakenPeople(SERVER, TILL, Only(rows), newId);
    AddedAre(SERVER.people, TILL.branchId, rows);
  }

  /** After the first, the second is on record under the first's id, and nobody is added. */
  lemma SentAfterFirst(newId: Id -> Id)
    ensures var s1 := Taken(SERVER, TILL, Only([FIRST]), newId);
            Taken(s1, TILL, Only([FIRST, SECOND]), newId).people.customers.Keys == {1, 2}
  {
    hide Taken, Accepts, PlaceCustomers, AddCustomers;
    var s1 := Taken(SERVER, TILL, Only([FIRST]), newId);
    SentAlone([FIRST], newId);
    BothNew([FIRST]);
    TakenPeople(SERVER, TILL, Only([FIRST]), newId);
    TakenPeople(s1, TILL, Only([FIRST, SECOND]), newId);
    assert [FIRST] + [SECOND] == [FIRST, SECOND];
    SamePhoneDiffers(SERVER, s1, TILL, [FIRST], [SECOND], SECOND);
    NoneOfThemAdded(s1);
  }

  lemma NoneOfThemAdded(s: Server)
    requires s.people.customers.Keys == {1, 2}
    requires SECOND.id !in AddCustomers(s.people, TILL.branchId, PlaceCustomers(s, TILL, [FIRST, SECOND]).created).customers
    ensures AddCustomers(s.people, TILL.branchId, PlaceCustomers(s, TILL, [FIRST, SECOND]).created).customers.Keys == {1, 2}
  {
    hide PlaceCustomers, AddCustomers, IsNew, IsMerged;
    AddedAre(s.people, TILL.branchId, PlaceCustomers(s, TILL, [FIRST, SECOND]).created);
    CreatedAre(s, TILL, [FIRST, SECOND]);
  }

  /**
   * The first customer is sent and taken; sent again with the second, the outbox is taken too, but the second is taken
   * for the first, whose number it has, where sending both at once adds both.
   */
  lemma SecondTakenForFirst(newId: Id -> Id)
    ensures var a, b := Only([FIRST]), Only([FIRST, SECOND]);
            && Later(SERVER, newId, a, b) && Accepts(SERVER, TILL, a, newId) && Accepts(SERVER, TILL, b, newId)
            && !PhonesApart(SERVER, TILL, [FIRST], [SECOND])
            && Synced(SERVER, TILL, b, newId).people.customers.Keys == {1, 2, 3}
            && Synced(Synced(SERVER, TILL, a, newId), TILL, b, newId).people.customers.Keys == {1, 2}
  {
    hide Accepts, Taken, PlaceCustomers, Later;
    OneMore(newId);
    SentAlone([FIRST], newId);
    SentAlone([FIRST, SECOND], newId);
    SentAfterFirst(newId);
    GrownAccepts(SERVER, TILL, Only([FIRST]), Only([FIRST, SECOND]), newId);
    BothNew([FIRST]);
    assert SECOND in [SECOND] && FIRST in [FIRST];
  }
}
