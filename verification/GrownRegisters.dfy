/** Registers after an outbox is sent, and sent again once some were closed and others opened. */
module GrownRegisters {
  import opened OutboxRows
  import RegisterCash
  import opened ServerTables
  import opened Tables

  ghost predicate DistinctRegisters(rows: seq<RegisterRow>) {
    forall i, j :: 0 <= i < j < |rows| ==> rows[i].id != rows[j].id
  }

  // ----- One register

  function Fin(row: RegisterRow, closed: bool, cash: RegisterCash.CashRows, id: Id): (r: RegisterRow) {
    if closed then Reconciled(row, cash, id) else row
  }

  function TakeClosing(row: RegisterRow, sent: RegisterRow): (r: RegisterRow) {
    if row.closedAt.None? then
      row.(closingBalance := sent.closingBalance, expectedCash := sent.expectedCash,
           cashDifference := sent.cashDifference, closedAt := sent.closedAt)
    else row
  }

  /** What a sync makes of one register. */
  function RegisterAfter(registers: map<Id, RegisterRow>, ctr: Counter, sent: seq<RegisterRow>, cash: RegisterCash.CashRows, id: Id): (r: RegisterRow)
    requires id in registers || id in ById(sent, REGISTER_ID)
  {
    var byId, unknown := ById(sent, REGISTER_ID), Unknown(registers, sent);
    if id in byId then
      Fin(if id in registers then TakeClosing(registers[id], byId[id]) else byId[id], byId[id].closedAt.Some?, cash, id)
    else if Replaces(ctr, IdsOf(sent), unknown, id, registers[id]) then
      Reconciled(registers[id].(closedAt := FirstAfter(unknown, registers[id].openedAt)), cash, id)
    else registers[id]
  }

  lemma SentIds(sent: seq<RegisterRow>, id: Id)
    requires DistinctRegisters(sent)
    ensures id in ById(sent, REGISTER_ID) <==> id in IdsOf(sent)
    ensures id in ById(sent, REGISTER_ID) ==> (id in ClosedIds(sent) <==> ById(sent, REGISTER_ID)[id].closedAt.Some?)
    ensures id in ClosedIds(sent) ==> id in IdsOf(sent)
  {
    ByIdHolds(sent, REGISTER_ID);
    if id in ClosedIds(sent) {
      var row :| row in sent && row.id == id && row.closedAt.Some?;
      DistinctSame(sent, REGISTER_ID, row, ById(sent, REGISTER_ID)[id]);
    }
  }

  lemma SyncRegisterIs(registers: map<Id, RegisterRow>, ctr: Counter, sent: seq<RegisterRow>, cash: RegisterCash.CashRows, id: Id)
    requires DistinctRegisters(sent)
    ensures var r := SyncRegisters(registers, ctr, sent, cash);
            && (id in r <==> id in registers || id in ById(sent, REGISTER_ID))
            && (id in r ==> r[id] == RegisterAfter(registers, ctr, sent, cash, id))
  {
    hide Unknown, FirstAfter, Reconciled, ById, IdsOf, ClosedIds, DistinctRegisters;
    SentIds(sent, id);
  }

  // ----- The registers of a grown outbox

  /** The same register, later: what opened it stays, and once closed so does the rest. */
  predicate LaterRow(before: RegisterRow, after: RegisterRow) {
    && before.id == after.id && before.counterId == after.counterId && before.branchId == after.branchId
    && before.userId == after.userId && before.openingBalance == after.openingBalance && before.openedAt == after.openedAt
    && (before.closedAt.Some? ==> after == before)
  }

  /** Registers opened since come after the first ones, and the server hasn't heard of them. */
  ghost predicate RegistersGrown(registers: map<Id, RegisterRow>, first: seq<RegisterRow>, sent: seq<RegisterRow>) {
    && |first| <= |sent| && DistinctRegisters(sent)
    && (forall i :: 0 <= i < |first| ==> LaterRow(first[i], sent[i]))
    && (forall i :: |first| <= i < |sent| ==> sent[i].id !in registers)
  }

  lemma FirstRegistersDistinct(registers: map<Id, RegisterRow>, first: seq<RegisterRow>, sent: seq<RegisterRow>)
    requires RegistersGrown(registers, first, sent)
    ensures DistinctRegisters(first)
  {
    forall i, j | 0 <= i < j < |first| ensures first[i].id != first[j].id {
      assert LaterRow(first[i], sent[i]) && LaterRow(first[j], sent[j]);
    }
  }

  lemma ByIdAt(rows: seq<RegisterRow>, i: nat)
    requires DistinctRegisters(rows) && i < |rows|
    ensures rows[i].id in ById(rows, REGISTER_ID) && ById(rows, REGISTER_ID)[rows[i].id] == rows[i]
  {
    ByIdHolds(rows, REGISTER_ID);
    DistinctSame(rows, REGISTER_ID, rows[i], ById(rows, REGISTER_ID)[rows[i].id]);
  }

  lemma ByIdFrom(rows: seq<RegisterRow>, id: Id) returns (i: nat)
    requires id in ById(rows, REGISTER_ID)
    ensures i < |rows| && rows[i].id == id
  {
    ByIdHolds(rows, REGISTER_ID);
    i :| i < |rows| && rows[i] == ById(rows, REGISTER_ID)[id];
  }

  // ----- Which registers are unknown

  lemma {:induction false} UnknownConcat(registers: map<Id, RegisterRow>, a: seq<RegisterRow>, b: seq<RegisterRow>)
    ensures Unknown(registers, a + b) == Unknown(registers, a) + Unknown(registers, b)
  {
    if b == [] {
      assert a + b == a;
    } else {
      assert (a + b)[..|a + b| - 1] == a + b[..|b| - 1];
      UnknownConcat(registers, a, b[..|b| - 1]);
    }
  }

  lemma {:induction false} AllOrNoneUnknown(registers: map<Id, RegisterRow>, rows: seq<RegisterRow>)
    ensures (forall i :: 0 <= i < |rows| ==> rows[i].id in registers) ==> Unknown(registers, rows) == []
    ensures (forall i :: 0 <= i < |rows| ==> rows[i].id !in registers) ==> Unknown(registers, rows) == rows
  {
    if rows != [] {
      AllOrNoneUnknown(registers, rows[..|rows| - 1]);
      assert rows == rows[..|rows| - 1] + [rows[|rows| - 1]];
    }
  }

  lemma {:induction false} FirstAfterConcat(a: seq<RegisterRow>, b: seq<RegisterRow>, t: Instant)
    ensures FirstAfter(a + b, t) == if FirstAfter(a, t).Some? then FirstAfter(a, t) else FirstAfter(b, t)
  {
    if b == [] {
      assert a + b == a;
    } else {
      assert (a + b)[..|a + b| - 1] == a + b[..|b| - 1];
      FirstAfterConcat(a, b[..|b| - 1], t);
    }
  }

  lemma {:induction false} FirstAfterLater(registers: map<Id, RegisterRow>, first: seq<RegisterRow>, later: seq<RegisterRow>, t: Instant)
    requires |first| == |later| && forall i :: 0 <= i < |first| ==> LaterRow(first[i], later[i])
    ensures FirstAfter(Unknown(registers, first), t) == FirstAfter(Unknown(registers, later), t)
  {
    if first != [] {
      var n := |first| - 1;
      FirstAfterLater(registers, first[..n], later[..n], t);
      assert LaterRow(first[n], later[n]);
      FirstAfterConcat(Unknown(registers, first[..n]), if first[n].id in registers then [] else [first[n]], t);
      FirstAfterConcat(Unknown(registers, later[..n]), if later[n].id in registers then [] else [later[n]], t);
      FirstAfterOne(first[n], later[n], t);
    }
  }

  lemma FirstAfterOne(a: RegisterRow, b: RegisterRow, t: Instant)
    requires a.openedAt == b.openedAt
    ensures FirstAfter([a], t) == FirstAfter([b], t)
  {
    assert [a][..0] == [] && [b][..0] == [];
  }

  lemma UnknownGrown(registers: map<Id, RegisterRow>, registers1: map<Id, RegisterRow>, first: seq<RegisterRow>, sent: seq<RegisterRow>, t: Instant)
    requires RegistersGrown(registers, first, sent)
    requires forall id :: id in registers1 <==> id in registers || id in ById(first, REGISTER_ID)
    ensures var before := FirstAfter(Unknown(registers, first), t);
            FirstAfter(Unknown(registers, sent), t) == if before.Some? then before else FirstAfter(Unknown(registers1, sent), t)
  {
    hide Unknown, FirstAfter, ById;
    var n := |first|;
    var known, since := sent[..n], sent[n..];
    assert sent == known + since;
    UnknownConcat(registers, known, since);
    UnknownConcat(registers1, known, since);
    FirstRegistersDistinct(registers, first, sent);
    forall i | 0 <= i < |known| ensures known[i].id in registers1 {
      assert LaterRow(first[i], sent[i]);
      ByIdAt(first, i);
    }
    forall i | 0 <= i < |since| ensures since[i].id !in registers && since[i].id !in registers1 {
      NewUnsent(registers, first, sent, n + i);
    }
    AllOrNoneUnknown(registers, since);
    AllOrNoneUnknown(registers1, since);
    AllOrNoneUnknown(registers1, known);
    assert [] + since == since;
    FirstAfterConcat(Unknown(registers, known), since, t);
    FirstAfterLater(registers, first, known, t);
  }

  lemma FirstAreSent(registers: map<Id, RegisterRow>, first: seq<RegisterRow>, sent: seq<RegisterRow>, id: Id)
    requires RegistersGrown(registers, first, sent)
    ensures id in ById(first, REGISTER_ID) ==> exists j :: 0 <= j < |first| && sent[j].id == id
  {
    hide ById;
    if id in ById(first, REGISTER_ID) {
      var j := ByIdFrom(first, id);
      assert LaterRow(first[j], sent[j]);
    }
  }

  lemma NewUnsent(registers: map<Id, RegisterRow>, first: seq<RegisterRow>, sent: seq<RegisterRow>, i: nat)
    requires RegistersGrown(registers, first, sent) && |first| <= i < |sent|
    ensures sent[i].id !in registers && sent[i].id !in ById(first, REGISTER_ID)
  {
    hide ById;
    FirstAreSent(registers, first, sent, sent[i].id);
  }

  // ----- The same in two sendings

  lemma ReconciledAgain(row: RegisterRow, a: RegisterCash.CashRows, b: RegisterCash.CashRows, id: Id)
    ensures Reconciled(Reconciled(row, a, id), b, id) == Reconciled(row, b, id)
    ensures Reconciled(row, a, id).closedAt == row.closedAt
    ensures RegisterCash.Sums(a, id) == RegisterCash.Sums(b, id) ==> Reconciled(row, a, id) == Reconciled(row, b, id)
  {
    hide RegisterCash.Sums;
  }

  lemma TakenAgain(row: RegisterRow, first: RegisterRow, later: RegisterRow, a: RegisterCash.CashRows, b: RegisterCash.CashRows, id: Id)
    requires LaterRow(first, later)
    ensures Fin(TakeClosing(Fin(TakeClosing(row, first), first.closedAt.Some?, a, id), later), later.closedAt.Some?, b, id)
         == Fin(TakeClosing(row, later), later.closedAt.Some?, b, id)
    ensures Fin(TakeClosing(Fin(first, first.closedAt.Some?, a, id), later), later.closedAt.Some?, b, id)
         == Fin(later, later.closedAt.Some?, b, id)
  {
    hide Reconciled;
    ReconciledAgain(TakeClosing(row, first), a, b, id);
    ReconciledAgain(first, a, b, id);
  }

  lemma RegisterInTwo(
    registers: map<Id, RegisterRow>, ctr: Counter, first: seq<RegisterRow>, sent: seq<RegisterRow>,
    cash1: RegisterCash.CashRows, cash2: RegisterCash.CashRows, id: Id)
    requires RegistersGrown(registers, first, sent)
    requires id !in IdsOf(sent) ==> RegisterCash.Sums(cash1, id) == RegisterCash.Sums(cash2, id)
    requires id in registers || id in ById(sent, REGISTER_ID)
    ensures var registers1 := SyncRegisters(registers, ctr, first, cash1);
            && (id in registers1 || id in ById(sent, REGISTER_ID))
            && RegisterAfter(registers1, ctr, sent, cash2, id) == RegisterAfter(registers, ctr, sent, cash2, id)
  {
    hide Unknown, FirstAfter, Reconciled, ById, IdsOf, SyncRegisters, RegisterCash.Sums, LaterRow, TakeClosing, RegistersGrown;
    var registers1 := SyncRegisters(registers, ctr, first, cash1);
    FirstRegistersDistinct(registers, first, sent);
    SyncRegisterIs(registers, ctr, first, cash1, id);
    SentDistinct(registers, first, sent);
    SentIds(sent, id);
    SentIds(first, id);
    if id in ById(sent, REGISTER_ID) {
      var i := ByIdFrom(sent, id);
      if i < |first| {
        SentAt(registers, first, sent, i);
        if id in registers {
          TakenAgain(registers[id], first[i], sent[i], cash1, cash2, id);
        } else {
          TakenAgain(sent[i], first[i], sent[i], cash1, cash2, id);
        }
      } else {
        NewUnsent(registers, first, sent, i);
      }
    } else {
      FirstUnsent(registers, first, sent, id);
      UnsentInTwo(registers, ctr, first, sent, cash1, cash2, id);
    }
  }

  lemma SentDistinct(registers: map<Id, RegisterRow>, first: seq<RegisterRow>, sent: seq<RegisterRow>)
    requires RegistersGrown(registers, first, sent)
    ensures DistinctRegisters(sent)
  {
  }

  lemma SentAt(registers: map<Id, RegisterRow>, first: seq<RegisterRow>, sent: seq<RegisterRow>, i: nat)
    requires RegistersGrown(registers, first, sent) && i < |first|
    ensures i < |sent| && LaterRow(first[i], sent[i]) && first[i].id == sent[i].id
    ensures sent[i].id in ById(first, REGISTER_ID) && ById(first, REGISTER_ID)[sent[i].id] == first[i]
    ensures sent[i].id in ById(sent, REGISTER_ID) && ById(sent, REGISTER_ID)[sent[i].id] == sent[i]
  {
    assert LaterRow(first[i], sent[i]);
    FirstRegistersDistinct(registers, first, sent);
    ByIdAt(first, i);
    ByIdAt(sent, i);
  }

  lemma FirstUnsent(registers: map<Id, RegisterRow>, first: seq<RegisterRow>, sent: seq<RegisterRow>, id: Id)
    requires RegistersGrown(registers, first, sent) && id !in ById(sent, REGISTER_ID)
    ensures id !in ById(first, REGISTER_ID)
  {
    if id in ById(first, REGISTER_ID) {
      var i := ByIdFrom(first, id);
      SentAt(registers, first, sent, i);
    }
  }

  /** A register that was never sent: closed by the first register since after it, in either sending. */
  lemma UnsentInTwo(
    registers: map<Id, RegisterRow>, ctr: Counter, first: seq<RegisterRow>, sent: seq<RegisterRow>,
    cash1: RegisterCash.CashRows, cash2: RegisterCash.CashRows, id: Id)
    requires RegistersGrown(registers, first, sent) && id in registers
    requires id !in ById(sent, REGISTER_ID) && id !in ById(first, REGISTER_ID) && id !in IdsOf(sent) && id !in IdsOf(first)
    requires RegisterCash.Sums(cash1, id) == RegisterCash.Sums(cash2, id)
    ensures var registers1 := SyncRegisters(registers, ctr, first, cash1);
            && id in registers1 && RegisterAfter(registers1, ctr, sent, cash2, id) == RegisterAfter(registers, ctr, sent, cash2, id)
  {
    hide Unknown, FirstAfter, Reconciled, ById, IdsOf, SyncRegisters, RegisterCash.Sums, LaterRow, RegistersGrown;
    var registers1 := SyncRegisters(registers, ctr, first, cash1);
    FirstRegistersDistinct(registers, first, sent);
    forall other ensures other in registers1 <==> other in registers || other in ById(first, REGISTER_ID) {
      SyncRegisterIs(registers, ctr, first, cash1, other);
    }
    SyncRegisterIs(registers, ctr, first, cash1, id);
    var row := registers[id];
    UnknownGrown(registers, registers1, first, sent, row.openedAt);
    ReconciledAgain(row.(closedAt := FirstAfter(Unknown(registers, first), row.openedAt)), cash1, cash2, id);
  }

  /** Sending the first registers and then the grown list leaves each as sending the grown list alone does. */
  lemma RegistersInTwo(
    registers: map<Id, RegisterRow>, ctr: Counter, first: seq<RegisterRow>, sent: seq<RegisterRow>,
    cash1: RegisterCash.CashRows, cash2: RegisterCash.CashRows)
    requires RegistersGrown(registers, first, sent)
    requires forall id :: id !in IdsOf(sent) ==> RegisterCash.Sums(cash1, id) == RegisterCash.Sums(cash2, id)
    ensures SyncRegisters(SyncRegisters(registers, ctr, first, cash1), ctr, sent, cash2) == SyncRegisters(registers, ctr, sent, cash2)
  {
    hide SyncRegisters, RegisterAfter, RegisterCash.Sums, RegistersGrown, ById;
    var registers1 := SyncRegisters(registers, ctr, first, cash1);
    var twice, once := SyncRegisters(registers1, ctr, sent, cash2), SyncRegisters(registers, ctr, sent, cash2);
    FirstRegistersDistinct(registers, first, sent);
    SentDistinct(registers, first, sent);
    forall id: Id ensures (id in twice <==> id in once) && (id in once ==> twice[id] == once[id]) {
      SyncRegisterIs(registers, ctr, first, cash1, id);
      SyncRegisterIs(registers1, ctr, sent, cash2, id);
      SyncRegisterIs(registers, ctr, sent, cash2, id);
      if id !in ById(sent, REGISTER_ID) { FirstUnsent(registers, first, sent, id); }
      if id in once { RegisterInTwo(registers, ctr, first, sent, cash1, cash2, id); }
    }
    assert twice.Keys == once.Keys;
  }
}
