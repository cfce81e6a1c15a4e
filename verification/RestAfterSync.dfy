/**
 * What a sync makes of number series, registers and customers (apps/api/src/fallback/fallback.service.ts), each in terms of
 * what the server had and what was sent.
 */
module RestAfterSync {
  import opened GrownCustomers
  import opened GrownRegisters
  import opened GrownSync
  import opened OutboxRows
  import opened RegisterCash
  import opened ServerTables
  import opened Sync
  import opened Tables

  // ----- Number series

  /** The last count is one of those there were, and none of them was higher. */
  ghost predicate Highest(last: nat, before: nat, sent: iset<nat>) {
    && last >= before && (forall count :: count in sent ==> last >= count)
    && (last == before || last in sent)
  }

  function CountOf(m: map<SeqKey, nat>, key: SeqKey): (r: nat) { if key in m then m[key] else 0 }

  ghost function SentCounts(rows: seq<SequenceRow>, key: SeqKey): (r: iset<nat>) {
    iset count: nat | SequenceRow(key.kind, key.series, key.fiscalYear, count) in rows
  }

  lemma {:induction false} RaisedTo(m: map<SeqKey, nat>, rows: seq<SequenceRow>, key: SeqKey)
    ensures Highest(CountOf(RaiseAll(m, rows), key), CountOf(m, key), SentCounts(rows, key))
  {
    if rows != [] {
      var n := |rows| - 1;
      var row := rows[n];
      assert rows == rows[..n] + [row];
      RaisedTo(m, rows[..n], key);
      forall count: nat ensures count in SentCounts(rows, key) <==> count in SentCounts(rows[..n], key) || (SeqKeyOf(row) == key && count == row.lastSeq) {
        assert row == SequenceRow(row.kind, row.series, row.fiscalYear, row.lastSeq);
      }
    }
  }

  /** Each series, and the counter's receipts, end at the highest of what was there and what was sent, and no other moves. */
  lemma NumbersAfter(s: Server, ctr: Counter, o: Outbox, newId: Id -> Id, key: SeqKey, other: Id)
    ensures var after := Taken(s, ctr, o, newId).numbers;
            && Highest(CountOf(after.sequences, key), CountOf(s.numbers.sequences, key), SentCounts(o.sequences, key))
            && ctr.id in after.receiptSeq
            && Highest(after.receiptSeq[ctr.id], if ctr.id in s.numbers.receiptSeq then s.numbers.receiptSeq[ctr.id] else 0, iset{o.receiptSeq})
            && (other != ctr.id ==> (other in after.receiptSeq <==> other in s.numbers.receiptSeq)
                                    && (other in after.receiptSeq ==> after.receiptSeq[other] == s.numbers.receiptSeq[other]))
  {
    hide Taken, RaiseAll;
    TakenPeople(s, ctr, o, newId);
    RaisedTo(s.numbers.sequences, o.sequences, key);
  }

  // ----- Customers

  /** The i-th customer added, with the i-th next code of the branch and an empty wallet. */
  ghost predicate AddedInTurn(before: People, after: People, branchId: Id, rows: seq<CustomerRow>, i: nat)
    requires i < |rows|
  {
    var id := rows[i].id;
    && id in after.customers && after.customers[id] == CustomerRow(id, branchId, false, false, rows[i].name, rows[i].phone)
    && id in after.codes && after.codes[id] == LastCode(before, branchId) + i + 1
    && id in after.wallets && after.wallets[id] == 0
  }

  ghost predicate OthersAsBefore(before: People, after: People, branchId: Id, rows: seq<CustomerRow>) {
    && (forall id :: id !in CustomerIds(rows) ==>
          && (id in after.customers <==> id in before.customers) && (id in before.customers ==> after.customers[id] == before.customers[id])
          && (id in after.codes <==> id in before.codes) && (id in before.codes ==> after.codes[id] == before.codes[id])
          && (id in after.wallets <==> id in before.wallets) && (id in before.wallets ==> after.wallets[id] == before.wallets[id]))
    && LastCode(after, branchId) == LastCode(before, branchId) + |rows|
    && (forall other :: other != branchId ==> LastCode(after, other) == LastCode(before, other))
  }

  lemma {:induction false} AddedOneByOne(people: People, branchId: Id, rows: seq<CustomerRow>)
    requires DistinctCustomers(rows)
    ensures var after := AddCustomers(people, branchId, rows);
            (forall i :: 0 <= i < |rows| ==> AddedInTurn(people, after, branchId, rows, i)) && OthersAsBefore(people, after, branchId, rows)
  {
    hide AddCustomer, AddedInTurn, OthersAsBefore;
    if rows != [] {
      var n := |rows| - 1;
      var mid, after := AddCustomers(people, branchId, rows[..n]), AddCustomers(people, branchId, rows);
      AddedOneByOne(people, branchId, rows[..n]);
      assert after == AddCustomer(mid, branchId, rows[n]);
      OneMoreAdded(people, mid, branchId, rows);
      forall i | 0 <= i < n ensures AddedInTurn(people, after, branchId, rows, i) { StillAdded(people, mid, branchId, rows, i); }
    } else {
      NoneMoreAdded(people, branchId);
    }
  }

  lemma NoneMoreAdded(people: People, branchId: Id)
    ensures OthersAsBefore(people, people, branchId, [])
  {
  }

  lemma StillAdded(people: People, mid: People, branchId: Id, rows: seq<CustomerRow>, i: nat)
    requires i < |rows| - 1 && rows[i].id != rows[|rows| - 1].id
    requires AddedInTurn(people, mid, branchId, rows[..|rows| - 1], i)
    ensures AddedInTurn(people, AddCustomer(mid, branchId, rows[|rows| - 1]), branchId, rows, i)
  {
  }

  /** Adding one customer gives it the next code and an empty wallet. */
  lemma AddedIs(people: People, branchId: Id, row: CustomerRow)
    ensures var after := AddCustomer(people, branchId, row);
            && row.id in after.customers && after.customers[row.id] == CustomerRow(row.id, branchId, false, false, row.name, row.phone)
            && row.id in after.codes && after.codes[row.id] == LastCode(people, branchId) + 1
            && row.id in after.wallets && after.wallets[row.id] == 0
            && LastCode(after, branchId) == LastCode(people, branchId) + 1
            && (forall other :: other != branchId ==> LastCode(after, other) == LastCode(people, other))
  {
  }

  lemma AddedLeaves(people: People, branchId: Id, row: CustomerRow, id: Id)
    requires id != row.id
    ensures var after := AddCustomer(people, branchId, row);
            && (id in after.customers <==> id in people.customers) && (id in people.customers ==> after.customers[id] == people.customers[id])
            && (id in after.codes <==> id in people.codes) && (id in people.codes ==> after.codes[id] == people.codes[id])
            && (id in after.wallets <==> id in people.wallets) && (id in people.wallets ==> after.wallets[id] == people.wallets[id])
  {
  }

  lemma OneMoreAdded(people: People, mid: People, branchId: Id, rows: seq<CustomerRow>)
    requires rows != [] && OthersAsBefore(people, mid, branchId, rows[..|rows| - 1])
    ensures var after := AddCustomer(mid, branchId, rows[|rows| - 1]);
            AddedInTurn(people, after, branchId, rows, |rows| - 1) && OthersAsBefore(people, after, branchId, rows)
  {
    hide AddCustomer, LastCode;
    var n := |rows| - 1;
    assert rows == rows[..n] + [rows[n]];
    AddedIs(mid, branchId, rows[n]);
    forall id: Id | id !in CustomerIds(rows) ensures id !in CustomerIds(rows[..n]) && id != rows[n].id {
      assert rows[n] in rows;
    }
    forall id: Id | id != rows[n].id { AddedLeaves(mid, branchId, rows[n], id); }
  }

  /** No two customers of a branch have one code, and none a code above the last given. */
  ghost predicate CodesApart(people: People) {
    && (forall id :: id in people.codes && id in people.customers ==> people.codes[id] <= LastCode(people, people.customers[id].branchId))
    && (forall a, b :: a in people.codes && b in people.codes && a in people.customers && b in people.customers && a != b ==>
          (people.customers[a].branchId == people.customers[b].branchId ==> people.codes[a] != people.codes[b]))
  }

  lemma AddingKeepsCodes(people: People, branchId: Id, row: CustomerRow)
    requires CodesApart(people) && row.id !in people.customers
    ensures CodesApart(AddCustomer(people, branchId, row))
  {
  }

  /** Customers added get the branch's next codes in turn and empty wallets; everyone else stays as they were. */
  lemma CustomersAfter(s: Server, ctr: Counter, o: Outbox, newId: Id -> Id)
    requires DistinctCustomers(o.customers)
    ensures var rows, after := PlaceCustomers(s, ctr, o.customers).created, Taken(s, ctr, o, newId).people;
            && (forall i :: 0 <= i < |rows| ==> AddedInTurn(s.people, after, ctr.branchId, rows, i))
            && OthersAsBefore(s.people, after, ctr.branchId, rows)
  {
    hide Taken, PlaceCustomers, AddCustomers, AddedInTurn, OthersAsBefore;
    TakenPeople(s, ctr, o, newId);
    CreatedDistinctOf(s, ctr, o.customers);
    AddedOneByOne(s.people, ctr.branchId, PlaceCustomers(s, ctr, o.customers).created);
  }

  lemma {:induction false} CodesStayApart(people: People, branchId: Id, rows: seq<CustomerRow>)
    requires CodesApart(people) && DistinctCustomers(rows) && forall row :: row in rows ==> row.id !in people.customers
    ensures CodesApart(AddCustomers(people, branchId, rows))
  {
    hide CodesApart, AddCustomer;
    if rows != [] {
      var n := |rows| - 1;
      assert rows == rows[..n] + [rows[n]];
      CodesStayApart(people, branchId, rows[..n]);
      NotAddedYet(people, branchId, rows);
      AddingKeepsCodes(AddCustomers(people, branchId, rows[..n]), branchId, rows[n]);
    }
  }

  lemma NotAddedYet(people: People, branchId: Id, rows: seq<CustomerRow>)
    requires rows != [] && DistinctCustomers(rows) && rows[|rows| - 1].id !in people.customers
    ensures rows[|rows| - 1].id !in AddCustomers(people, branchId, rows[..|rows| - 1]).customers
  {
    hide AddCustomers;
    var n := |rows| - 1;
    AddedAre(people, branchId, rows[..n]);
    forall row | row in rows[..n] ensures row.id != rows[n].id {
      var i :| 0 <= i < n && rows[i] == row;
    }
  }

  /** Whom a customer sent is merged with: someone with that phone number, not the walk-in, of the branch where customers are a branch's own. */
  ghost predicate SamePerson(s: Server, ctr: Counter, row: CustomerRow, other: Id) {
    && other in s.people.customers
    && row.phone.Some? && row.phone.value != "" && s.people.customers[other].phone == row.phone
    && !s.people.customers[other].walkIn
    && (s.catalog.customersPerBranch ==> s.people.customers[other].branchId == ctr.branchId)
  }

  /** A customer is added when unknown and nobody is the same person, and merged with somebody who is. */
  lemma CustomersSettledWhen(s: Server, ctr: Counter, rows: seq<CustomerRow>, row: CustomerRow)
    requires DistinctCustomers(rows) && row in rows
    ensures var p := PlaceCustomers(s, ctr, rows);
            && (row in p.created <==> row.id !in s.people.customers && forall other :: !SamePerson(s, ctr, row, other))
            && (row.id in p.sameAs <==> row.id !in s.people.customers && exists other :: SamePerson(s, ctr, row, other))
            && (row.id in p.sameAs ==> SamePerson(s, ctr, row, p.sameAs[row.id]))
  {
    hide PlaceCustomers, DistinctCustomers;
    CreatedAre(s, ctr, rows);
    MergedIs(s, ctr, rows, row.id);
    forall other: Id ensures SamePerson(s, ctr, row, other) <==>
      HasPhone(row) && other in WithPhone(s.people, s.catalog.customersPerBranch, ctr.branchId, row.phone)
    {
    }
    if row.id in PlaceCustomers(s, ctr, rows).sameAs {
      var merged :| merged in rows && merged.id == row.id && IsMerged(s, ctr, merged);
      SameCustomer(rows, merged, row);
    }
  }

  // ----- Registers

  /** The first sent of the registers the server didn't know that opened after this one. */
  ghost predicate ReplacedBy(registers: map<Id, RegisterRow>, sent: seq<RegisterRow>, openedAt: Instant, i: nat) {
    && i < |sent| && sent[i].id !in registers && sent[i].openedAt > openedAt
    && forall j :: 0 <= j < i ==> sent[j].id in registers || sent[j].openedAt <= openedAt
  }

  /** The register with its cash worked out: what its rows come to, and how far the count is from it. */
  ghost predicate Balanced(row: RegisterRow, was: RegisterRow, cash: CashRows, id: Id) {
    var expected := was.openingBalance + Sums(cash, id).Net();
    row == was.(expectedCash := Some(expected),
                cashDifference := match was.closingBalance case None => None case Some(counted) => Some(counted - expected))
  }

  /** A register sent: as sent if it is new, with its closing if the one the server has is open; its cash worked out if it was sent as closed. */
  ghost predicate SentRegister(before: map<Id, RegisterRow>, row: RegisterRow, sent: RegisterRow, cash: CashRows) {
    var id := sent.id;
    var was := if id !in before then sent
               else if before[id].closedAt.Some? then before[id]
               else before[id].(closingBalance := sent.closingBalance, expectedCash := sent.expectedCash,
                                cashDifference := sent.cashDifference, closedAt := sent.closedAt);
    if sent.closedAt.Some? then Balanced(row, was, cash, id) else row == was
  }

  /** One the server had that was not sent: closed, if it was open on the counter, when the first one replacing it opened. */
  ghost predicate OtherRegister(before: map<Id, RegisterRow>, row: RegisterRow, id: Id, ctr: Counter, sent: seq<RegisterRow>, cash: CashRows)
    requires id in before
  {
    if before[id].counterId == ctr.id && before[id].closedAt.None? && exists i: nat :: ReplacedBy(before, sent, before[id].openedAt, i) then
      exists i: nat :: ReplacedBy(before, sent, before[id].openedAt, i) && Balanced(row, before[id].(closedAt := Some(sent[i].openedAt)), cash, id)
    else row == before[id]
  }

  lemma {:induction false} FirstReplacing(registers: map<Id, RegisterRow>, sent: seq<RegisterRow>, openedAt: Instant)
    ensures var at := FirstAfter(Unknown(registers, sent), openedAt);
            && (at.Some? <==> exists i: nat :: ReplacedBy(registers, sent, openedAt, i))
            && (forall i: nat :: ReplacedBy(registers, sent, openedAt, i) ==> at == Some(sent[i].openedAt))
  {
    if sent != [] {
      var n := |sent| - 1;
      assert sent == sent[..n] + [sent[n]];
      FirstReplacing(registers, sent[..n], openedAt);
      UnknownNext(registers, sent, openedAt);
      forall i: nat ensures ReplacedBy(registers, sent, openedAt, i) <==>
        ReplacedBy(registers, sent[..n], openedAt, i)
        || (i == n && sent[n].id !in registers && sent[n].openedAt > openedAt && forall j: nat :: !ReplacedBy(registers, sent[..n], openedAt, j))
      {
        ReplacedNext(registers, sent, openedAt, i);
      }
      assert ReplacedBy(registers, sent, openedAt, n) ==> sent[n].id !in registers && sent[n].openedAt > openedAt;
    }
  }

  lemma UnknownNext(registers: map<Id, RegisterRow>, sent: seq<RegisterRow>, openedAt: Instant)
    requires sent != []
    ensures var n := |sent| - 1;
            var before := FirstAfter(Unknown(registers, sent[..n]), openedAt);
            FirstAfter(Unknown(registers, sent), openedAt)
              == if before.Some? then before
                 else if sent[n].id !in registers && openedAt < sent[n].openedAt then Some(sent[n].openedAt) else None
  {
    var n := |sent| - 1;
    var front, all := Unknown(registers, sent[..n]), Unknown(registers, sent);
    if sent[n].id in registers { assert all == front; } else { assert all[..|all| - 1] == front; }
  }

  lemma ReplacedNext(registers: map<Id, RegisterRow>, sent: seq<RegisterRow>, openedAt: Instant, i: nat)
    requires sent != []
    ensures var n := |sent| - 1;
            ReplacedBy(registers, sent, openedAt, i) <==>
            ReplacedBy(registers, sent[..n], openedAt, i)
            || (i == n && sent[n].id !in registers && sent[n].openedAt > openedAt && forall j: nat :: !ReplacedBy(registers, sent[..n], openedAt, j))
  {
    var n := |sent| - 1;
    assert forall j :: 0 <= j < n ==> sent[..n][j] == sent[j];
    if i == n && sent[n].id !in registers && sent[n].openedAt > openedAt && forall j: nat :: !ReplacedBy(registers, sent[..n], openedAt, j) {
      forall j | 0 <= j < n ensures sent[j].id in registers || sent[j].openedAt <= openedAt { NoneBefore(registers, sent[..n], openedAt, j); }
    }
  }

  /** One sent that could replace it is, or comes after, the one that does. */
  lemma {:induction false} FirstReplaces(registers: map<Id, RegisterRow>, sent: seq<RegisterRow>, openedAt: Instant, j: nat)
    requires j < |sent| && sent[j].id !in registers && sent[j].openedAt > openedAt
    ensures exists i: nat :: ReplacedBy(registers, sent, openedAt, i)
  {
    if i: nat :| i < j && sent[i].id !in registers && sent[i].openedAt > openedAt {
      FirstReplaces(registers, sent, openedAt, i);
    } else {
      assert ReplacedBy(registers, sent, openedAt, j);
    }
  }

  lemma NoneBefore(registers: map<Id, RegisterRow>, sent: seq<RegisterRow>, openedAt: Instant, j: nat)
    requires j < |sent| && forall i: nat :: !ReplacedBy(registers, sent, openedAt, i)
    ensures sent[j].id in registers || sent[j].openedAt <= openedAt
  {
    hide ReplacedBy;
    if sent[j].id !in registers && sent[j].openedAt > openedAt { FirstReplaces(registers, sent, openedAt, j); }
  }

  /** Every register after a sync is one of those there were or were sent, and is what this makes of it. */
  lemma RegistersAfter(s: Server, ctr: Counter, o: Outbox, newId: Id -> Id, id: Id)
    requires DistinctRegisters(o.registers)
    ensures var after := Taken(s, ctr, o, newId);
            var cash := CashRows(after.documents.payments, after.documents.givenBack, s.catalog.drawer);
            && (id in after.registers <==> id in s.registers || exists sent :: sent in o.registers && sent.id == id)
            && (forall sent :: sent in o.registers && sent.id == id ==> SentRegister(s.registers, after.registers[id], sent, cash))
            && (id in s.registers && (forall sent :: sent in o.registers ==> sent.id != id) ==>
                  OtherRegister(s.registers, after.registers[id], id, ctr, o.registers, cash))
  {
    hide Taken, Unknown, FirstAfter, ById, Sums, DistinctRegisters, ReplacedBy, RegisterAfter, SentRegister, OtherRegister;
    TakenPeople(s, ctr, o, newId);
    var cash := CashRowsOf(s.catalog, Taken(s, ctr, o, newId).documents);
    SyncRegisterIs(s.registers, ctr, o.registers, cash, id);
    SentIds(o.registers, id);
    forall sent | sent in o.registers && sent.id == id ensures SentRegister(s.registers, Taken(s, ctr, o, newId).registers[id], sent, cash) {
      SentIs(s.registers, ctr, o.registers, cash, sent);
    }
    if id in s.registers && id !in IdsOf(o.registers) { OtherIs(s.registers, ctr, o.registers, cash, id); }
  }

  lemma SentIs(registers: map<Id, RegisterRow>, ctr: Counter, sent: seq<RegisterRow>, cash: CashRows, row: RegisterRow)
    requires DistinctRegisters(sent) && row in sent
    ensures row.id in ById(sent, REGISTER_ID) && SentRegister(registers, RegisterAfter(registers, ctr, sent, cash, row.id), row, cash)
  {
    hide Unknown, FirstAfter, ById, Sums, Replaces;
    ByIdHolds(sent, REGISTER_ID);
    DistinctSame(sent, REGISTER_ID, row, ById(sent, REGISTER_ID)[row.id]);
  }

  lemma OtherIs(registers: map<Id, RegisterRow>, ctr: Counter, sent: seq<RegisterRow>, cash: CashRows, id: Id)
    requires DistinctRegisters(sent) && id in registers && id !in IdsOf(sent)
    ensures OtherRegister(registers, RegisterAfter(registers, ctr, sent, cash, id), id, ctr, sent, cash)
  {
    hide Unknown, FirstAfter, ById, Sums, DistinctRegisters, ReplacedBy, IdsOf;
    SentIds(sent, id);
    FirstReplacing(registers, sent, registers[id].openedAt);
  }
}
