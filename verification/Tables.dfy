/** Tables of rows by id: inserting rows unless their id is taken, and totals over a table. */
module Tables {
  type Key = nat

  // ----- Inserting

  /** The rows by id, the first of each. */
  function ById<R>(rows: seq<R>, idOf: R -> Key): (r: map<Key, R>) {
    if rows == [] then map[]
    else
      var n := |rows| - 1;
      var before := ById(rows[..n], idOf);
      if idOf(rows[n]) in before then before else before[idOf(rows[n]) := rows[n]]
  }

  /** An insert that leaves a row whose id the table has as it is. */
  function Insert<R>(table: map<Key, R>, rows: seq<R>, idOf: R -> Key): (r: map<Key, R>) {
    ById(rows, idOf) + table
  }

  lemma {:induction false} ByIdConcat<R>(a: seq<R>, b: seq<R>, idOf: R -> Key)
    ensures ById(a + b, idOf) == ById(b, idOf) + ById(a, idOf)
  {
    if b == [] {
      assert a + b == a;
    } else {
      var n := |b| - 1;
      assert (a + b)[..|a + b| - 1] == a + b[..n];
      ByIdConcat(a, b[..n], idOf);
    }
  }

  /** Every row is found under its id, and every id finds one of the rows. */
  lemma {:induction false} ByIdHolds<R(!new)>(rows: seq<R>, idOf: R -> Key)
    ensures forall row :: row in rows ==> idOf(row) in ById(rows, idOf)
    ensures forall id :: id in ById(rows, idOf) ==> ById(rows, idOf)[id] in rows && idOf(ById(rows, idOf)[id]) == id
  {
    if rows != [] {
      var n := |rows| - 1;
      assert rows == rows[..n] + [rows[n]];
      ByIdHolds(rows[..n], idOf);
    }
  }

  lemma InsertStep<R>(table: map<Key, R>, rows: seq<R>, idOf: R -> Key)
    requires rows != []
    ensures var n := |rows| - 1;
            var before := Insert(table, rows[..n], idOf);
            Insert(table, rows, idOf) == if idOf(rows[n]) in before then before else before[idOf(rows[n]) := rows[n]]
  {
  }

  /** Inserting rows, then the same and more, is inserting them all at once. */
  lemma InsertGrown<R>(table: map<Key, R>, a: seq<R>, more: seq<R>, idOf: R -> Key)
    ensures Insert(Insert(table, a, idOf), a + more, idOf) == Insert(table, a + more, idOf)
  {
    ByIdConcat(a, more, idOf);
  }

  /** The table's rows stay, and what is new is one of the rows inserted. */
  lemma InsertedAre<R(!new)>(table: map<Key, R>, rows: seq<R>, idOf: R -> Key)
    ensures forall id :: id in table ==> id in Insert(table, rows, idOf) && Insert(table, rows, idOf)[id] == table[id]
    ensures forall id :: id in Insert(table, rows, idOf) && id !in table ==>
              Insert(table, rows, idOf)[id] in rows && idOf(Insert(table, rows, idOf)[id]) == id
    ensures forall row :: row in rows ==> idOf(row) in Insert(table, rows, idOf)
  {
    ByIdHolds(rows, idOf);
  }

  ghost predicate DistinctKeys<R>(rows: seq<R>, idOf: R -> Key) {
    forall i, j :: 0 <= i < j < |rows| ==> idOf(rows[i]) != idOf(rows[j])
  }

  lemma DistinctSame<R>(rows: seq<R>, idOf: R -> Key, a: R, b: R)
    requires DistinctKeys(rows, idOf) && a in rows && b in rows && idOf(a) == idOf(b)
    ensures a == b
  {
    var i :| 0 <= i < |rows| && rows[i] == a;
    var j :| 0 <= j < |rows| && rows[j] == b;
  }

  // ----- The smallest id

  predicate IsLeast(ids: set<Key>, id: Key) {
    id in ids && forall other :: other in ids ==> id <= other
  }

  lemma LeastWith(ids: set<Key>, id: Key, least: Key)
    requires id in ids && IsLeast(ids - {id}, least)
    ensures IsLeast(ids, if id < least then id else least)
  {
    forall other | other in ids ensures (if id < least then id else least) <= other {
      if other != id { assert other in ids - {id}; }
    }
  }

  lemma {:induction false} LeastExists(ids: set<Key>) returns (least: Key)
    requires ids != {}
    ensures IsLeast(ids, least)
  {
    var id :| id in ids;
    if ids == {id} {
      least := id;
    } else {
      least := LeastExists(ids - {id});
      LeastWith(ids, id, least);
      least := if id < least then id else least;
    }
  }

  lemma HasLeast(ids: set<Key>)
    requires ids != {}
    ensures exists id :: IsLeast(ids, id)
  {
    var least := LeastExists(ids);
  }

  function Smallest(ids: set<Key>): (r: Key)
    requires ids != {}
    ensures IsLeast(ids, r)
  {
    HasLeast(ids);
    var id :| IsLeast(ids, id);
    id
  }

  // ----- Totals

  /** What the rows of a table come to, each weighed by `w`. */
  function TableTotal<R>(table: map<Key, R>, w: R -> int): (r: int)
    decreases |table.Keys|
  {
    if table == map[] then 0
    else
      EmptyKeys(table);
      var id := Smallest(table.Keys);
      FewerKeys(table, id);
      w(table[id]) + TableTotal(table - {id}, w)
  }

  lemma EmptyKeys<R>(table: map<Key, R>)
    requires table != map[]
    ensures table.Keys != {}
  {
    assert table.Keys == {} ==> table == map[];
  }

  lemma FewerKeys<R>(table: map<Key, R>, id: Key)
    requires id in table
    ensures (table - {id}).Keys == table.Keys - {id} && |(table - {id}).Keys| < |table.Keys|
  {
    assert (table - {id}).Keys == table.Keys - {id};
  }

  /** A row may be taken out of the total first, whichever it is. */
  lemma {:induction false} TotalWithout<R>(table: map<Key, R>, w: R -> int, id: Key)
    requires id in table
    ensures TableTotal(table, w) == w(table[id]) + TableTotal(table - {id}, w)
    decreases |table.Keys|
  {
    EmptyKeys(table);
    var first := Smallest(table.Keys);
    FewerKeys(table, first);
    if first != id {
      FewerKeys(table, id);
      TotalWithout(table - {first}, w, id);
      assert first in table - {id};
      TotalWithout(table - {id}, w, first);
      assert table - {first} - {id} == table - {id} - {first};
    }
  }

  lemma TotalInsert<R>(table: map<Key, R>, w: R -> int, id: Key, row: R)
    requires id !in table
    ensures TableTotal(table[id := row], w) == TableTotal(table, w) + w(row)
  {
    TotalWithout(table[id := row], w, id);
    assert table[id := row] - {id} == table;
  }

  lemma TotalDrop<R>(table: map<Key, R>, w: R -> int, id: Key)
    requires id in table && w(table[id]) == 0
    ensures TableTotal(table, w) == TableTotal(table - {id}, w)
  {
    TotalWithout(table, w, id);
  }

  /** Rows that weigh nothing leave the total as it is. */
  lemma {:induction false} TotalExtra<R>(table: map<Key, R>, bigger: map<Key, R>, w: R -> int)
    requires forall id :: id in table ==> id in bigger && bigger[id] == table[id]
    requires forall id :: id in bigger && id !in table ==> w(bigger[id]) == 0
    ensures TableTotal(bigger, w) == TableTotal(table, w)
    decreases |bigger.Keys|
  {
    hide TableTotal;
    var extra := bigger.Keys - table.Keys;
    if extra == {} {
      assert bigger.Keys == table.Keys;
      assert bigger == table;
    } else {
      var id :| id in extra;
      FewerKeys(bigger, id);
      TotalDrop(bigger, w, id);
      TotalExtra(table, bigger - {id}, w);
    }
  }

  lemma MergeWithout<R>(table: map<Key, R>, more: map<Key, R>, id: Key)
    requires table.Keys !! more.Keys && id in more
    ensures (table + more) - {id} == table + (more - {id})
    ensures id in table + more && (table + more)[id] == more[id]
    ensures table.Keys !! (more - {id}).Keys
  {
    assert id !in table;
  }

  /** Two tables with no id in common come to what each comes to. */
  lemma {:induction false} TotalMerge<R>(table: map<Key, R>, more: map<Key, R>, w: R -> int)
    requires table.Keys !! more.Keys
    ensures TableTotal(table + more, w) == TableTotal(table, w) + TableTotal(more, w)
    decreases |more.Keys|, 1
  {
    hide TableTotal;
    if more == map[] {
      assert table + more == table;
      TotalNone<R>(w);
    } else {
      TotalMergeStep(table, more, w);
    }
  }

  lemma {:induction false} TotalMergeStep<R>(table: map<Key, R>, more: map<Key, R>, w: R -> int)
    requires table.Keys !! more.Keys && more != map[]
    ensures TableTotal(table + more, w) == TableTotal(table, w) + TableTotal(more, w)
    decreases |more.Keys|, 0
  {
    hide TableTotal;
    EmptyKeys(more);
    var id := Smallest(more.Keys);
    FewerKeys(more, id);
    MergeWithout(table, more, id);
    TotalWithout(more, w, id);
    TotalWithout(table + more, w, id);
    TotalMerge(table, more - {id}, w);
  }

  lemma TotalNone<R>(w: R -> int)
    ensures TableTotal(map[], w) == 0
  {
  }

  function RowsTotal<R>(rows: seq<R>, w: R -> int): (r: int) {
    if rows == [] then 0 else RowsTotal(rows[..|rows| - 1], w) + w(rows[|rows| - 1])
  }

  lemma {:induction false} RowsTotalConcat<R>(a: seq<R>, b: seq<R>, w: R -> int)
    ensures RowsTotal(a + b, w) == RowsTotal(a, w) + RowsTotal(b, w)
  {
    if b == [] {
      assert a + b == a;
    } else {
      assert (a + b)[..|a + b| - 1] == a + b[..|b| - 1];
      RowsTotalConcat(a, b[..|b| - 1], w);
    }
  }

  lemma NotYetThere<R(!new)>(rows: seq<R>, idOf: R -> Key)
    requires DistinctKeys(rows, idOf) && rows != []
    ensures var n := |rows| - 1; DistinctKeys(rows[..n], idOf) && idOf(rows[n]) !in ById(rows[..n], idOf)
  {
    var n := |rows| - 1;
    ByIdHolds(rows[..n], idOf);
    forall row | row in rows[..n] ensures idOf(row) != idOf(rows[n]) {
      var i :| 0 <= i < n && rows[..n][i] == row;
      assert rows[i] == row;
    }
  }

  lemma InsertLast<R(!new)>(table: map<Key, R>, rows: seq<R>, idOf: R -> Key)
    requires DistinctKeys(rows, idOf) && rows != [] && idOf(rows[|rows| - 1]) !in table
    ensures var n := |rows| - 1;
            var before := Insert(table, rows[..n], idOf);
            idOf(rows[n]) !in before && Insert(table, rows, idOf) == before[idOf(rows[n]) := rows[n]]
  {
    NotYetThere(rows, idOf);
  }

  /** Inserting rows the table doesn't have adds what they come to. */
  lemma {:induction false} TotalOfInserted<R(!new)>(table: map<Key, R>, rows: seq<R>, idOf: R -> Key, w: R -> int)
    requires DistinctKeys(rows, idOf) && forall i :: 0 <= i < |rows| ==> idOf(rows[i]) !in table
    ensures TableTotal(Insert(table, rows, idOf), w) == TableTotal(table, w) + RowsTotal(rows, w)
  {
    hide TableTotal, Insert, DistinctKeys;
    if rows == [] {
      InsertNone(table, idOf);
    } else {
      var n := |rows| - 1;
      NotYetThere(rows, idOf);
      InsertLast(table, rows, idOf);
      TotalOfInserted(table, rows[..n], idOf, w);
      TotalInsert(Insert(table, rows[..n], idOf), w, idOf(rows[n]), rows[n]);
    }
  }

  lemma InsertNone<R>(table: map<Key, R>, idOf: R -> Key)
    ensures Insert(table, [], idOf) == table
  {
    assert ById([], idOf) + table == table;
  }
}
