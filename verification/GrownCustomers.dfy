/** Settling the customers of an outbox, and of the same outbox with more added. */
module GrownCustomers {
  import opened OutboxRows
  import opened ServerTables
  import opened Tables

  ghost predicate DistinctCustomers(rows: seq<CustomerRow>) {
    forall i, j :: 0 <= i < j < |rows| ==> rows[i].id != rows[j].id
  }

  function CustomerIds(rows: seq<CustomerRow>): (r: set<Id>) { set row | row in rows :: row.id }

  lemma PlaceNextCustomer(s: Server, ctr: Counter, rows: seq<CustomerRow>)
    requires rows != []
    ensures PlaceCustomers(s, ctr, rows) == PlaceCustomer(s, ctr, PlaceCustomers(s, ctr, rows[..|rows| - 1]), rows[|rows| - 1])
  {
  }

  // ----- What settling one customer does

  /** Whether the row is to be added: unknown, and no one has its phone number. */
  predicate IsNew(s: Server, ctr: Counter, row: CustomerRow) {
    row.id !in s.people.customers
    && !(HasPhone(row) && WithPhone(s.people, s.catalog.customersPerBranch, ctr.branchId, row.phone) != {})
  }

  predicate IsMerged(s: Server, ctr: Counter, row: CustomerRow) {
    row.id !in s.people.customers
    && HasPhone(row) && WithPhone(s.people, s.catalog.customersPerBranch, ctr.branchId, row.phone) != {}
  }

  lemma PlaceCustomerIs(s: Server, ctr: Counter, p: Placed, row: CustomerRow)
    ensures IsNew(s, ctr, row) ==> PlaceCustomer(s, ctr, p, row) == p.(created := p.created + [row])
    ensures row.id in s.people.customers ==> PlaceCustomer(s, ctr, p, row) == p
    ensures IsMerged(s, ctr, row) ==>
              PlaceCustomer(s, ctr, p, row)
                == p.(sameAs := p.sameAs[row.id := Smallest(WithPhone(s.people, s.catalog.customersPerBranch, ctr.branchId, row.phone))])
  {
  }

  /** The rows added are exactly the new ones, and the ids merged are exactly the merged ones'. */
  lemma {:induction false} CreatedAre(s: Server, ctr: Counter, rows: seq<CustomerRow>)
    ensures forall row :: row in PlaceCustomers(s, ctr, rows).created <==> row in rows && IsNew(s, ctr, row)
    ensures forall id :: id in PlaceCustomers(s, ctr, rows).sameAs ==>
              exists row :: row in rows && row.id == id && IsMerged(s, ctr, row)
  {
    hide IsNew, IsMerged, PlaceCustomer;
    if rows != [] {
      var n := |rows| - 1;
      assert rows == rows[..n] + [rows[n]];
      CreatedAre(s, ctr, rows[..n]);
      OneOfThree(s, ctr, rows[n]);
      PlaceCustomerIs(s, ctr, PlaceCustomers(s, ctr, rows[..n]), rows[n]);
    }
  }

  lemma OneOfThree(s: Server, ctr: Counter, row: CustomerRow)
    ensures IsNew(s, ctr, row) || IsMerged(s, ctr, row) || row.id in s.people.customers
    ensures IsNew(s, ctr, row) ==> row.id !in s.people.customers && !IsMerged(s, ctr, row)
    ensures IsMerged(s, ctr, row) ==> row.id !in s.people.customers
  {
  }

  // ----- The customers after some are added

  lemma {:induction false} AddedAre(people: People, branchId: Id, rows: seq<CustomerRow>)
    ensures var r := AddCustomers(people, branchId, rows).customers;
            && r.Keys == people.customers.Keys + CustomerIds(rows)
            && (forall id :: id in r && id !in CustomerIds(rows) ==> r[id] == people.customers[id])
            && (forall id :: id in r && id in CustomerIds(rows) ==>
                  exists row :: row in rows && row.id == id && r[id] == CustomerRow(id, branchId, false, false, row.name, row.phone))
  {
    if rows != [] {
      var n := |rows| - 1;
      assert rows == rows[..n] + [rows[n]];
      AddedAre(people, branchId, rows[..n]);
      var before, r := AddCustomers(people, branchId, rows[..n]).customers, AddCustomers(people, branchId, rows).customers;
      assert r == before[rows[n].id := CustomerRow(rows[n].id, branchId, false, false, rows[n].name, rows[n].phone)];
      assert rows[n] in rows;
      forall id | id in r && id in CustomerIds(rows)
        ensures exists row :: row in rows && row.id == id && r[id] == CustomerRow(id, branchId, false, false, row.name, row.phone)
      {
        if id != rows[n].id {
          var row :| row in rows[..n] && row.id == id && before[id] == CustomerRow(id, branchId, false, false, row.name, row.phone);
          assert row in rows;
        }
      }
    }
  }

  ghost predicate PhoneAmong(rows: seq<CustomerRow>, phone: Option<string>) {
    exists row :: row in rows && row.phone == phone
  }

  /** Adding customers with other phone numbers finds the same customers by this one. */
  lemma SamePhones(people: People, perBranch: bool, branchId: Id, rows: seq<CustomerRow>, phone: Option<string>)
    requires !PhoneAmong(rows, phone)
    requires forall row :: row in rows ==> row.id !in people.customers
    ensures WithPhone(AddCustomers(people, branchId, rows), perBranch, branchId, phone) == WithPhone(people, perBranch, branchId, phone)
  {
    hide AddCustomers;
    AddedAre(people, branchId, rows);
    var r := AddCustomers(people, branchId, rows).customers;
    forall id | id in r ensures id in WithPhone(AddCustomers(people, branchId, rows), perBranch, branchId, phone)
                             <==> id in WithPhone(people, perBranch, branchId, phone)
    {
      if id in CustomerIds(rows) {
        var row :| row in rows && row.id == id && r[id] == CustomerRow(id, branchId, false, false, row.name, row.phone);
      }
    }
  }

  /** Adding a customer with this phone number is found by it. */
  lemma PhoneFound(people: People, perBranch: bool, branchId: Id, rows: seq<CustomerRow>, row: CustomerRow)
    requires row in rows && DistinctCustomers(rows)
    ensures row.id in WithPhone(AddCustomers(people, branchId, rows), perBranch, branchId, row.phone)
  {
    hide AddCustomers;
    AddedAre(people, branchId, rows);
    assert row.id in CustomerIds(rows);
    var r := AddCustomers(people, branchId, rows).customers;
    var other :| other in rows && other.id == row.id && r[row.id] == CustomerRow(row.id, branchId, false, false, other.name, other.phone);
    var i :| 0 <= i < |rows| && rows[i] == row;
    var j :| 0 <= j < |rows| && rows[j] == other;
  }

  // ----- The server after the first sync

  ghost predicate After(s: Server, s1: Server, ctr: Counter, rows: seq<CustomerRow>) {
    s1.catalog == s.catalog && s1.people == AddCustomers(s.people, ctr.branchId, PlaceCustomers(s, ctr, rows).created)
  }

  lemma KnownAfter(s: Server, s1: Server, ctr: Counter, first: seq<CustomerRow>, row: CustomerRow)
    requires After(s, s1, ctr, first)
    ensures row.id in s1.people.customers <==>
            row.id in s.people.customers || row.id in CustomerIds(PlaceCustomers(s, ctr, first).created)
  {
    hide PlaceCustomers, AddCustomers;
    AddedAre(s.people, ctr.branchId, PlaceCustomers(s, ctr, first).created);
  }

  lemma FoundAfter(s: Server, s1: Server, ctr: Counter, first: seq<CustomerRow>, phone: Option<string>)
    requires After(s, s1, ctr, first) && !PhoneAmong(PlaceCustomers(s, ctr, first).created, phone)
    ensures WithPhone(s1.people, s1.catalog.customersPerBranch, ctr.branchId, phone)
         == WithPhone(s.people, s.catalog.customersPerBranch, ctr.branchId, phone)
  {
    hide PlaceCustomers, AddCustomers, WithPhone;
    CreatedAre(s, ctr, first);
    SamePhones(s.people, s.catalog.customersPerBranch, ctr.branchId, PlaceCustomers(s, ctr, first).created, phone);
  }

  /** A merged customer's phone number is no added one's. */
  lemma MergedPhone(s: Server, ctr: Counter, first: seq<CustomerRow>, row: CustomerRow)
    requires IsMerged(s, ctr, row)
    ensures !PhoneAmong(PlaceCustomers(s, ctr, first).created, row.phone)
  {
    hide PlaceCustomers, WithPhone;
    CreatedAre(s, ctr, first);
    forall other | other in PlaceCustomers(s, ctr, first).created ensures other.phone != row.phone {
      assert IsNew(s, ctr, other);
    }
  }

  /** Sent again, the first customers are all known or merged as before. */
  lemma {:induction false} FirstAgain(s: Server, s1: Server, ctr: Counter, first: seq<CustomerRow>, k: nat)
    requires After(s, s1, ctr, first) && DistinctCustomers(first) && k <= |first|
    ensures PlaceCustomers(s1, ctr, first[..k]) == Placed(PlaceCustomers(s, ctr, first[..k]).sameAs, [])
  {
    hide PlaceCustomers, WithPhone, After, IsNew, IsMerged, PlaceCustomer, DistinctCustomers;
    if k == 0 {
      NoCustomers(s, ctr, first);
      NoCustomers(s1, ctr, first);
    } else {
      var row := first[k - 1];
      FirstAgain(s, s1, ctr, first, k - 1);
      assert first[..k][..k - 1] == first[..k - 1];
      PlaceNextCustomer(s, ctr, first[..k]);
      PlaceNextCustomer(s1, ctr, first[..k]);
      AgainAfter(s, s1, ctr, first, row);
      PlaceCustomerIs(s, ctr, PlaceCustomers(s, ctr, first[..k - 1]), row);
      PlaceCustomerIs(s1, ctr, PlaceCustomers(s1, ctr, first[..k - 1]), row);
      OneOfThree(s, ctr, row);
    }
  }

  lemma NoCustomers(s: Server, ctr: Counter, rows: seq<CustomerRow>)
    ensures PlaceCustomers(s, ctr, rows[..0]) == Placed(map[], [])
  {
  }

  lemma SameCustomer(rows: seq<CustomerRow>, a: CustomerRow, b: CustomerRow)
    requires DistinctCustomers(rows) && a in rows && b in rows
    ensures a.id == b.id ==> a == b
  {
    var i :| 0 <= i < |rows| && rows[i] == a;
    var j :| 0 <= j < |rows| && rows[j] == b;
  }

  lemma NotCreated(s: Server, ctr: Counter, first: seq<CustomerRow>, row: CustomerRow)
    requires DistinctCustomers(first) && row in first && !IsNew(s, ctr, row)
    ensures row.id !in CustomerIds(PlaceCustomers(s, ctr, first).created)
  {
    hide PlaceCustomers, IsNew, DistinctCustomers;
    CreatedAre(s, ctr, first);
    forall r | r in PlaceCustomers(s, ctr, first).created ensures r.id != row.id {
      SameCustomer(first, r, row);
    }
  }

  lemma AgainAfter(s: Server, s1: Server, ctr: Counter, first: seq<CustomerRow>, row: CustomerRow)
    requires After(s, s1, ctr, first) && DistinctCustomers(first) && row in first
    ensures IsNew(s, ctr, row) || row.id in s.people.customers ==> row.id in s1.people.customers
    ensures IsMerged(s, ctr, row) ==>
              IsMerged(s1, ctr, row)
              && WithPhone(s1.people, s1.catalog.customersPerBranch, ctr.branchId, row.phone)
                 == WithPhone(s.people, s.catalog.customersPerBranch, ctr.branchId, row.phone)
  {
    hide PlaceCustomers, WithPhone, After, DistinctCustomers;
    KnownAfter(s, s1, ctr, first, row);
    CreatedAre(s, ctr, first);
    if IsMerged(s, ctr, row) {
      MergedPhone(s, ctr, first, row);
      FoundAfter(s, s1, ctr, first, row.phone);
      NotCreated(s, ctr, first, row);
    }
  }

  /** No customer added later has the phone number of one the first sync added. */
  ghost predicate PhonesApart(s: Server, ctr: Counter, first: seq<CustomerRow>, later: seq<CustomerRow>) {
    forall row :: row in later && HasPhone(row) && row.id !in s.people.customers ==>
      !PhoneAmong(PlaceCustomers(s, ctr, first).created, row.phone)
  }

  lemma LaterAfter(s: Server, s1: Server, ctr: Counter, first: seq<CustomerRow>, later: seq<CustomerRow>, row: CustomerRow)
    requires After(s, s1, ctr, first) && DistinctCustomers(first + later) && row in later && PhonesApart(s, ctr, first, later)
    ensures row.id in s.people.customers ==> row.id in s1.people.customers
    ensures IsNew(s, ctr, row) ==> IsNew(s1, ctr, row)
    ensures IsMerged(s, ctr, row) ==>
              IsMerged(s1, ctr, row)
              && WithPhone(s1.people, s1.catalog.customersPerBranch, ctr.branchId, row.phone)
                 == WithPhone(s.people, s.catalog.customersPerBranch, ctr.branchId, row.phone)
  {
    hide PlaceCustomers, WithPhone, After, DistinctCustomers;
    KnownAfter(s, s1, ctr, first, row);
    LaterNotCreated(s, ctr, first, later, row);
    if HasPhone(row) && row.id !in s.people.customers { FoundAfter(s, s1, ctr, first, row.phone); }
  }

  lemma LaterNotCreated(s: Server, ctr: Counter, first: seq<CustomerRow>, later: seq<CustomerRow>, row: CustomerRow)
    requires DistinctCustomers(first + later) && row in later
    ensures row.id !in CustomerIds(PlaceCustomers(s, ctr, first).created)
  {
    hide PlaceCustomers, IsNew;
    CreatedAre(s, ctr, first);
    var j :| 0 <= j < |later| && later[j] == row;
    forall r | r in PlaceCustomers(s, ctr, first).created ensures r.id != row.id {
      var i :| 0 <= i < |first| && first[i] == r;
      assert (first + later)[i] == r && (first + later)[|first| + j] == row;
    }
  }

  /** The rest are settled after the first as they would have been with them. */
  lemma {:induction false} LaterSettled(s: Server, s1: Server, ctr: Counter, first: seq<CustomerRow>, later: seq<CustomerRow>, k: nat)
    requires After(s, s1, ctr, first) && DistinctCustomers(first + later) && PhonesApart(s, ctr, first, later) && k <= |later|
    ensures var all, again := PlaceCustomers(s, ctr, first + later[..k]), PlaceCustomers(s1, ctr, first + later[..k]);
            all.sameAs == again.sameAs && all.created == PlaceCustomers(s, ctr, first).created + again.created
  {
    hide PlaceCustomers, WithPhone, After, PhonesApart, IsNew, IsMerged, PlaceCustomer, DistinctCustomers;
    if k == 0 {
      FirstDistinct(first, later);
      FirstAgain(s, s1, ctr, first, |first|);
      assert first[..|first|] == first == first + later[..0];
    } else {
      var rows, row := first + later[..k], later[k - 1];
      assert rows[..|rows| - 1] == first + later[..k - 1];
      LaterSettled(s, s1, ctr, first, later, k - 1);
      PlaceNextCustomer(s, ctr, rows);
      PlaceNextCustomer(s1, ctr, rows);
      LaterAfter(s, s1, ctr, first, later, row);
      PlaceCustomerIs(s, ctr, PlaceCustomers(s, ctr, first + later[..k - 1]), row);
      PlaceCustomerIs(s1, ctr, PlaceCustomers(s1, ctr, first + later[..k - 1]), row);
      OneOfThree(s, ctr, row);
    }
  }

  lemma FirstDistinct(first: seq<CustomerRow>, later: seq<CustomerRow>)
    requires DistinctCustomers(first + later)
    ensures DistinctCustomers(first)
  {
    forall i, j | 0 <= i < j < |first| ensures first[i].id != first[j].id {
      assert (first + later)[i] == first[i] && (first + later)[j] == first[j];
    }
  }

  lemma {:induction false} AddCustomersConcat(people: People, branchId: Id, a: seq<CustomerRow>, b: seq<CustomerRow>)
    ensures AddCustomers(people, branchId, a + b) == AddCustomers(AddCustomers(people, branchId, a), branchId, b)
  {
    if b == [] {
      assert a + b == a;
    } else {
      assert (a + b)[..|a + b| - 1] == a + b[..|b| - 1];
      AddCustomersConcat(people, branchId, a, b[..|b| - 1]);
    }
  }

  /**
   * Adding the first customers and then the rest gives the same customers, codes and wallets as adding
   * them all at once, if and only if none of the rest has the phone number of one added first: on its
   * own that one is added, and after the first it is taken for the customer with its number.
   */
  lemma CustomersAddedInTwo(s: Server, s1: Server, ctr: Counter, first: seq<CustomerRow>, later: seq<CustomerRow>)
    requires After(s, s1, ctr, first) && DistinctCustomers(first + later)
    ensures var inTwo := AddCustomers(s1.people, ctr.branchId, PlaceCustomers(s1, ctr, first + later).created);
            var atOnce := AddCustomers(s.people, ctr.branchId, PlaceCustomers(s, ctr, first + later).created);
            inTwo == atOnce <==> PhonesApart(s, ctr, first, later)
  {
    hide PlaceCustomers, WithPhone, AddCustomers, DistinctCustomers;
    if PhonesApart(s, ctr, first, later) {
      LaterSettled(s, s1, ctr, first, later, |later|);
      assert later[..|later|] == later;
      AddCustomersConcat(s.people, ctr.branchId, PlaceCustomers(s, ctr, first).created, PlaceCustomers(s1, ctr, first + later).created);
    } else {
      var row :| row in later && HasPhone(row) && row.id !in s.people.customers
                 && PhoneAmong(PlaceCustomers(s, ctr, first).created, row.phone);
      SamePhoneDiffers(s, s1, ctr, first, later, row);
    }
  }

  lemma SamePhoneDiffers(s: Server, s1: Server, ctr: Counter, first: seq<CustomerRow>, later: seq<CustomerRow>, row: CustomerRow)
    requires After(s, s1, ctr, first) && DistinctCustomers(first + later)
    requires row in later && HasPhone(row) && row.id !in s.people.customers
    requires PhoneAmong(PlaceCustomers(s, ctr, first).created, row.phone)
    ensures row.id in AddCustomers(s.people, ctr.branchId, PlaceCustomers(s, ctr, first + later).created).customers
    ensures row.id !in AddCustomers(s1.people, ctr.branchId, PlaceCustomers(s1, ctr, first + later).created).customers
  {
    hide PlaceCustomers, WithPhone, AddCustomers, DistinctCustomers, After;
    var created := PlaceCustomers(s, ctr, first).created;
    CreatedAre(s, ctr, first);
    CreatedAre(s, ctr, first + later);
    CreatedAre(s1, ctr, first + later);
    var other :| other in created && other.phone == row.phone;
    assert IsNew(s, ctr, other) && IsNew(s, ctr, row);
    assert row in first + later;
    AddedAre(s.people, ctr.branchId, PlaceCustomers(s, ctr, first + later).created);
    KnownAfter(s, s1, ctr, first, row);
    LaterNotCreated(s, ctr, first, later, row);
    CreatedDistinct(s, ctr, first, later);
    FoundByPhone(s, s1, ctr, first, other);
    AddedAre(s1.people, ctr.branchId, PlaceCustomers(s1, ctr, first + later).created);
    assert !IsNew(s1, ctr, row);
    NotCreated(s1, ctr, first + later, row);
  }

  lemma FoundByPhone(s: Server, s1: Server, ctr: Counter, first: seq<CustomerRow>, other: CustomerRow)
    requires After(s, s1, ctr, first) && other in PlaceCustomers(s, ctr, first).created
    requires DistinctCustomers(PlaceCustomers(s, ctr, first).created)
    ensures WithPhone(s1.people, s1.catalog.customersPerBranch, ctr.branchId, other.phone) != {}
  {
    PhoneFound(s.people, s.catalog.customersPerBranch, ctr.branchId, PlaceCustomers(s, ctr, first).created, other);
  }

  lemma CreatedDistinct(s: Server, ctr: Counter, first: seq<CustomerRow>, later: seq<CustomerRow>)
    requires DistinctCustomers(first + later)
    ensures DistinctCustomers(PlaceCustomers(s, ctr, first).created)
  {
    FirstDistinct(first, later);
    CreatedDistinctOf(s, ctr, first);
  }

  lemma {:induction false} CreatedDistinctOf(s: Server, ctr: Counter, rows: seq<CustomerRow>)
    requires DistinctCustomers(rows)
    ensures DistinctCustomers(PlaceCustomers(s, ctr, rows).created)
  {
    hide IsNew, IsMerged, PlaceCustomer;
    if rows != [] {
      var n := |rows| - 1;
      CreatedDistinctOf(s, ctr, rows[..n]);
      CreatedAre(s, ctr, rows[..n]);
      PlaceCustomerIs(s, ctr, PlaceCustomers(s, ctr, rows[..n]), rows[n]);
      OneOfThree(s, ctr, rows[n]);
      var created := PlaceCustomers(s, ctr, rows[..n]).created;
      forall i | 0 <= i < |created| ensures created[i].id != rows[n].id {
        assert created[i] in rows[..n];
        var j :| 0 <= j < n && rows[..n][j] == created[i];
        assert rows[j].id != rows[n].id;
      }
    }
  }
}
