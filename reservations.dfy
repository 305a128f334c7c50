/**
  * The `reservations` table both copies keep in SQLite, modelled as an
  * in-memory sequence of rows with a unique primary key, and the draft
  * reservation (`reservation_data`) the dialogue fills in field by field.
  */
module Reservations {
  import opened Wrappers
  import opened Text

  /** One row of the table (`created_at` aside). */
  datatype Reservation = Reservation(
    id: int, name: string, guests: int, date: string, time: string,
    email: string, phone: string, specialRequests: string)

  // ---------------------------------------------------------------------
  // Keys

  predicate UniqueIds(rows: seq<Reservation>) {
    forall i, j :: 0 <= i < j < |rows| ==> rows[i].id != rows[j].id
  }

  /** A row in front of a table keeps the ids unique exactly when its id is new. */
  lemma UniqueIdsCons(x: Reservation, rows: seq<Reservation>)
    ensures UniqueIds([x] + rows) <==> UniqueIds(rows) && !HasId(rows, x.id)
  {
    var t := [x] + rows;
    assert forall i :: 0 <= i < |rows| ==> t[i + 1] == rows[i];
    if UniqueIds(t) {
      forall r | r in rows ensures r.id != x.id {
        var i :| 0 <= i < |rows| && rows[i] == r;
        assert t[0] == x && t[i + 1] == r;
      }
    }
    if UniqueIds(rows) && !HasId(rows, x.id) {
      forall i, j | 0 <= i < j < |t| ensures t[i].id != t[j].id {
        if i == 0 { assert t[j] in rows; }
      }
    }
  }

  predicate HasId(rows: seq<Reservation>, id: int) {
    exists r :: r in rows && r.id == id
  }

  /** The largest id of a non-empty table: `SELECT MAX(id)`. */
  function MaxId(rows: seq<Reservation>): (m: int)
    requires rows != []
    ensures forall r :: r in rows ==> r.id <= m
    ensures exists r :: r in rows && r.id == m
  {
    if |rows| == 1 then rows[0].id
    else
      var m := MaxId(rows[1..]);
      assert forall r :: r in rows ==> r == rows[0] || r in rows[1..];
      if rows[0].id >= m then rows[0].id else m
  }

  /**
    * `get_next_reservation_id`: 1 on an empty table, otherwise one more than
    * the largest id; so the result is above every id in use and is not the
    * first gap.
    */
  function NextIdOf(rows: seq<Reservation>): (n: int)
    ensures IsNextId(rows, n)
  {
    if rows == [] then 1 else MaxId(rows) + 1
  }

  /** What `get_next_reservation_id` returns: 1 on an empty table, else the largest id plus one. */
  predicate IsNextId(rows: seq<Reservation>, n: int) {
    && (rows == [] ==> n == 1)
    && (rows != [] ==> (forall r :: r in rows ==> r.id < n) && HasId(rows, n - 1))
  }

  /** The description pins the next id down to a single number. */
  lemma IsNextIdUnique(rows: seq<Reservation>, a: int, b: int)
    requires IsNextId(rows, a) && IsNextId(rows, b)
    ensures a == b
  {
    if rows != [] {
      var x :| x in rows && x.id == a - 1;
      var y :| y in rows && y.id == b - 1;
    }
  }

  /** The next id is never one in use, so inserting under it cannot collide. */
  lemma NextIdIsFresh(rows: seq<Reservation>)
    ensures !HasId(rows, NextIdOf(rows))
  {
  }

  /** Ids 1 and 3 give 4, not the gap 2. */
  lemma NextIdSkipsGaps()
    ensures NextIdOf([Reservation(1, "", 0, "", "", "", "", ""), Reservation(3, "", 0, "", "", "", "", "")]) == 4
  {
    var rows := [Reservation(1, "", 0, "", "", "", "", ""), Reservation(3, "", 0, "", "", "", "", "")];
    assert MaxId(rows[1..]) == 3;
  }

  /** Appending a row under the next id advances the next id by one. */
  lemma NextIdAfterInsert(rows: seq<Reservation>, r: Reservation)
    requires r.id == NextIdOf(rows)
    ensures NextIdOf(rows + [r]) == NextIdOf(rows) + 1
  {
    var n := NextIdOf(rows + [r]);
    assert r in rows + [r];
    assert forall x :: x in rows + [r] ==> x in rows || x == r;
  }

  /** Deleting the row holding the largest id lets that id be handed out again. */
  lemma NextIdAfterDeletingNewest(rows: seq<Reservation>)
    requires rows != [] && UniqueIds(rows)
    requires forall r :: r in rows ==> r.id >= 1
    ensures NextIdOf(Remove(rows, MaxId(rows))) <= MaxId(rows)
  {
    var rest := Remove(rows, MaxId(rows));
    if rest != [] {
      var m := MaxId(rest);
      var x :| x in rest && x.id == m;
      assert x in rows && x.id != MaxId(rows);
      assert NextIdOf(rest) == m + 1;
    }
  }

  // ---------------------------------------------------------------------
  // ORDER BY date, time

  /** `a` may come before `b` under `ORDER BY date, time` on text columns. */
  predicate KeyLe(a: Reservation, b: Reservation) {
    if a.date != b.date then LexLe(a.date, b.date) else LexLe(a.time, b.time)
  }

  lemma KeyLeTotal(a: Reservation, b: Reservation)
    ensures KeyLe(a, b) || KeyLe(b, a)
  {
    LexLeTotal(a.date, b.date);
    LexLeTotal(a.time, b.time);
  }

  lemma KeyLeTransitive(a: Reservation, b: Reservation, c: Reservation)
    requires KeyLe(a, b) && KeyLe(b, c)
    ensures KeyLe(a, c)
  {
    if a.date == b.date && b.date == c.date {
      LexLeTransitive(a.time, b.time, c.time);
    } else if a.date != b.date && b.date != c.date {
      LexLeTransitive(a.date, b.date, c.date);
      if a.date == c.date {
        LexLeAntisymmetric(a.date, b.date);
      }
    }
  }

  predicate Sorted(xs: seq<Reservation>) {
    forall i, j :: 0 <= i < j < |xs| ==> KeyLe(xs[i], xs[j])
  }

  /** What `get_all_reservations` returns: every row once, ordered by date then time. */
  predicate Listing(rs: seq<Reservation>, rows: seq<Reservation>) {
    Sorted(rs) && multiset(rs) == multiset(rows)
  }

  /** A row in front of a sorted list keeps it sorted when it may precede every row. */
  lemma SortedCons(x: Reservation, xs: seq<Reservation>)
    requires Sorted(xs) && forall j :: 0 <= j < |xs| ==> KeyLe(x, xs[j])
    ensures Sorted([x] + xs)
  {
    var t := [x] + xs;
    forall i, j | 0 <= i < j < |t| ensures KeyLe(t[i], t[j]) {
      if i == 0 { assert t[j] == xs[j - 1]; } else { assert t[i] == xs[i - 1] && t[j] == xs[j - 1]; }
    }
  }

  function InsertSorted(x: Reservation, xs: seq<Reservation>): (r: seq<Reservation>)
    ensures multiset(r) == multiset(xs) + multiset{x}
    decreases |xs|
  {
    if xs == [] then [x]
    else if KeyLe(x, xs[0]) then [x] + xs
    else
      assert xs == [xs[0]] + xs[1..];
      [xs[0]] + InsertSorted(x, xs[1..])
  }

  lemma {:induction false} InsertSortedKeepsSorted(x: Reservation, xs: seq<Reservation>)
    requires Sorted(xs)
    ensures Sorted(InsertSorted(x, xs))
    decreases |xs|
  {
    if xs == [] {
    } else if KeyLe(x, xs[0]) {
      forall j | 0 <= j < |xs| ensures KeyLe(x, xs[j]) {
        if j > 0 { KeyLeTransitive(x, xs[0], xs[j]); }
      }
      SortedCons(x, xs);
    } else {
      var tail := xs[1..];
      assert Sorted(tail) by {
        forall i, j | 0 <= i < j < |tail| ensures KeyLe(tail[i], tail[j]) {
          assert tail[i] == xs[i + 1] && tail[j] == xs[j + 1];
        }
      }
      InsertSortedKeepsSorted(x, tail);
      var rest := InsertSorted(x, tail);
      KeyLeTotal(x, xs[0]);
      assert xs == [xs[0]] + tail;
      forall j | 0 <= j < |rest| ensures KeyLe(xs[0], rest[j]) {
        assert rest[j] in multiset(rest);
        if rest[j] != x {
          assert rest[j] in tail;
          var k :| 0 <= k < |tail| && tail[k] == rest[j];
          assert xs[k + 1] == rest[j];
        }
      }
      SortedCons(xs[0], rest);
    }
  }

  /** The rows in `ORDER BY date, time` order: a sorted permutation, ties in no promised order. */
  function SortByKey(xs: seq<Reservation>): (r: seq<Reservation>)
    ensures Sorted(r) && multiset(r) == multiset(xs)
    decreases |xs|
  {
    if xs == [] then []
    else
      assert xs == [xs[0]] + xs[1..];
      InsertSortedKeepsSorted(xs[0], SortByKey(xs[1..]));
      InsertSorted(xs[0], SortByKey(xs[1..]))
  }

  // ---------------------------------------------------------------------
  // DELETE and UPDATE by id

  /** `DELETE FROM reservations WHERE id=?`: every row with that id goes, the rest keep their order. */
  function Remove(rows: seq<Reservation>, id: int): (r: seq<Reservation>)
    ensures forall x :: x in r <==> x in rows && x.id != id
    ensures |r| <= |rows|
    ensures !HasId(rows, id) ==> r == rows
    decreases |rows|
  {
    if rows == [] then []
    else
      var rest := Remove(rows[1..], id);
      assert rows == [rows[0]] + rows[1..];
      if rows[0].id == id then rest else [rows[0]] + rest
  }

  lemma {:induction false} RemoveKeepsUniqueIds(rows: seq<Reservation>, id: int)
    requires UniqueIds(rows)
    ensures UniqueIds(Remove(rows, id))
    decreases |rows|
  {
    if rows != [] {
      assert rows == [rows[0]] + rows[1..];
      UniqueIdsCons(rows[0], rows[1..]);
      RemoveKeepsUniqueIds(rows[1..], id);
      var rest := Remove(rows[1..], id);
      if rows[0].id != id {
        assert !HasId(rest, rows[0].id);
        UniqueIdsCons(rows[0], rest);
      }
    }
  }

  /**
    * The row written by `UPDATE ... WHERE id=?` over `prev`: colab_app.py
    * sets six columns and keeps `special_requests`; streamlit_app.py sets
    * `special_requests` too.
    */
  function Updated(prev: Reservation, r: Reservation, withSpecial: bool): Reservation {
    if withSpecial then r else r.(specialRequests := prev.specialRequests)
  }

  /** `UPDATE reservations SET ... WHERE id=?`: the rows with that id change, nothing else does. */
  function UpdateRows(rows: seq<Reservation>, r: Reservation, withSpecial: bool): (u: seq<Reservation>)
    ensures |u| == |rows|
  {
    seq(|rows|, i requires 0 <= i < |rows| => if rows[i].id == r.id then Updated(rows[i], r, withSpecial) else rows[i])
  }

  /** The update changes no id, so it keeps the ids unique; on a missing id it changes nothing. */
  lemma UpdateRowsKeepsIds(rows: seq<Reservation>, r: Reservation, withSpecial: bool)
    requires UniqueIds(rows)
    ensures UniqueIds(UpdateRows(rows, r, withSpecial))
    ensures forall i :: 0 <= i < |rows| ==> UpdateRows(rows, r, withSpecial)[i].id == rows[i].id
    ensures !HasId(rows, r.id) ==> UpdateRows(rows, r, withSpecial) == rows
  {
    var u := UpdateRows(rows, r, withSpecial);
    assert forall i :: 0 <= i < |rows| ==> u[i].id == rows[i].id;
    if !HasId(rows, r.id) {
      assert forall i :: 0 <= i < |rows| ==> rows[i].id != r.id by {
        forall i | 0 <= i < |rows| ensures rows[i].id != r.id { assert rows[i] in rows; }
      }
    }
  }

  /** With unique ids the update replaces exactly the one row holding that id. */
  lemma UpdateRowsAt(rows: seq<Reservation>, j: int, r: Reservation, withSpecial: bool)
    requires UniqueIds(rows) && 0 <= j < |rows| && rows[j].id == r.id
    ensures UpdateRows(rows, r, withSpecial) == rows[j := Updated(rows[j], r, withSpecial)]
  {
  }

  /** Every id after the update was already in use before it. */
  lemma UpdateRowsAddsNoId(rows: seq<Reservation>, r: Reservation, withSpecial: bool)
    ensures forall x :: x in UpdateRows(rows, r, withSpecial) ==> HasId(rows, x.id)
  {
    var u := UpdateRows(rows, r, withSpecial);
    forall x | x in u ensures HasId(rows, x.id) {
      var i :| 0 <= i < |u| && u[i] == x;
      assert rows[i] in rows;
    }
  }

  /**
    * A cached copy of the table that holds the same rows stays a copy when
    * one of its entries is edited in place and the same edit is written to
    * the table by id, `special_requests` kept.
    */
  lemma MirrorAfterUpdate(cache: seq<Reservation>, rows: seq<Reservation>, i: int, r: Reservation)
    requires UniqueIds(rows) && multiset(cache) == multiset(rows) && 0 <= i < |cache|
    requires r.id == cache[i].id && r.specialRequests == cache[i].specialRequests
    ensures multiset(cache[i := r]) == multiset(UpdateRows(rows, r, false))
  {
    assert cache[i] in multiset(rows);
    var j :| 0 <= j < |rows| && rows[j] == cache[i];
    UpdateRowsAt(rows, j, r, false);
    assert Updated(rows[j], r, false) == r;
  }

  /** The first row with the given id: `[r for r in rows if r['id'] == rid][0]`. */
  function Find(rows: seq<Reservation>, id: int): (f: Option<Reservation>)
    ensures f.None? <==> !HasId(rows, id)
    ensures f.Some? ==> f.value in rows && f.value.id == id
    decreases |rows|
  {
    if rows == [] then None
    else if rows[0].id == id then Some(rows[0])
    else
      assert forall x :: x in rows ==> x == rows[0] || x in rows[1..];
      Find(rows[1..], id)
  }

  /** Under unique ids the row found is the only row with that id. */
  lemma FindUnique(rows: seq<Reservation>, id: int, x: Reservation)
    requires UniqueIds(rows) && x in rows && x.id == id
    ensures Find(rows, id) == Some(x)
  {
    var f := Find(rows, id).value;
    var i :| 0 <= i < |rows| && rows[i] == f;
    var j :| 0 <= j < |rows| && rows[j] == x;
    if i != j {
      if i < j { assert rows[i].id != rows[j].id; } else { assert rows[j].id != rows[i].id; }
    }
  }

  // ---------------------------------------------------------------------
  // The table

  /** The SQLite table as an in-memory store with a unique primary key. */
  class Table {
    var rows: seq<Reservation>

    ghost predicate Valid()
      reads this
    {
      UniqueIds(rows)
    }

    constructor()
      ensures Valid() && rows == []
    {
      rows := [];
    }

    /** `get_next_reservation_id()` */
    method NextId() returns (n: int)
      ensures IsNextId(rows, n)
    {
      n := NextIdOf(rows);
    }

    /**
      * `get_all_reservations()`: every row, ordered by date then time; the
      * order among rows with the same date and time is left open, as SQL's
      * `ORDER BY` leaves it.
      */
    method ListAll() returns (rs: seq<Reservation>)
      ensures Listing(rs, rows)
    {
      rs := SortByKey(rows);
    }

    /** `save_reservation`: the INSERT succeeds exactly when the id is not taken. */
    method Insert(r: Reservation) returns (ok: bool)
      requires Valid()
      modifies this
      ensures Valid()
      ensures ok <==> !HasId(old(rows), r.id)
      ensures rows == if ok then old(rows) + [r] else old(rows)
    {
      ok := Find(rows, r.id).None?;
      if ok {
        rows := rows + [r];
        forall i, j | 0 <= i < j < |rows| ensures rows[i].id != rows[j].id {
          if j == |rows| - 1 { assert rows[i] in old(rows); }
        }
      }
    }

    /** colab_app.py `update_reservation`: six columns by id, `special_requests` kept. */
    method UpdateDetails(r: Reservation)
      requires Valid()
      modifies this
      ensures Valid()
      ensures rows == UpdateRows(old(rows), r, false)
    {
      UpdateRowsKeepsIds(rows, r, false);
      rows := UpdateRows(rows, r, false);
    }

    /** streamlit_app.py `update_reservation`: seven columns by id. */
    method Update(r: Reservation)
      requires Valid()
      modifies this
      ensures Valid()
      ensures rows == UpdateRows(old(rows), r, true)
    {
      UpdateRowsKeepsIds(rows, r, true);
      rows := UpdateRows(rows, r, true);
    }

    /** `delete_reservation` */
    method Delete(id: int)
      requires Valid()
      modifies this
      ensures Valid()
      ensures rows == Remove(old(rows), id)
    {
      RemoveKeepsUniqueIds(rows, id);
      rows := Remove(rows, id);
    }
  }

  // ---------------------------------------------------------------------
  // The draft reservation

  /** The `reservation_data` dict: each key present or absent. */
  datatype Draft = Draft(
    guests: Option<int>, date: Option<string>, time: Option<string>, name: Option<string>,
    email: Option<string>, phone: Option<string>, specialRequests: Option<string>)

  const EmptyDraft := Draft(None, None, None, None, None, None, None)

  /** The keys of the draft. */
  datatype Field = GuestsField | DateField | TimeField | NameField | EmailField | PhoneField | SpecialRequestsField

  predicate Has(d: Draft, f: Field) {
    match f
    case GuestsField => d.guests.Some?
    case DateField => d.date.Some?
    case TimeField => d.time.Some?
    case NameField => d.name.Some?
    case EmailField => d.email.Some?
    case PhoneField => d.phone.Some?
    case SpecialRequestsField => d.specialRequests.Some?
  }

  /** `reservation_data.pop(key, None)` */
  function Without(d: Draft, f: Field): (r: Draft)
    ensures forall g :: Has(r, g) <==> Has(d, g) && g != f
  {
    match f
    case GuestsField => d.(guests := None)
    case DateField => d.(date := None)
    case TimeField => d.(time := None)
    case NameField => d.(name := None)
    case EmailField => d.(email := None)
    case PhoneField => d.(phone := None)
    case SpecialRequestsField => d.(specialRequests := None)
  }

  /** Popping a key leaves every other key's value as it was. */
  lemma WithoutKeepsOthers(d: Draft, f: Field)
    ensures f != GuestsField ==> Without(d, f).guests == d.guests
    ensures f != DateField ==> Without(d, f).date == d.date
    ensures f != TimeField ==> Without(d, f).time == d.time
    ensures f != NameField ==> Without(d, f).name == d.name
    ensures f != EmailField ==> Without(d, f).email == d.email
    ensures f != PhoneField ==> Without(d, f).phone == d.phone
    ensures f != SpecialRequestsField ==> Without(d, f).specialRequests == d.specialRequests
  {
  }

  /** The six keys every summary and every INSERT reads with `reservation_data[...]`. */
  predicate Complete(d: Draft) {
    Has(d, GuestsField) && Has(d, DateField) && Has(d, TimeField) && Has(d, NameField) && Has(d, EmailField) && Has(d, PhoneField)
  }

  /** The row `save_reservation` writes for a draft under the given id. */
  function ToReservation(d: Draft, id: int): (r: Reservation)
    requires Complete(d)
    ensures r.id == id && Some(r.guests) == d.guests && Some(r.date) == d.date && Some(r.time) == d.time
    ensures Some(r.name) == d.name && Some(r.email) == d.email && Some(r.phone) == d.phone
    ensures r.specialRequests == d.specialRequests.GetOr("")
  {
    Reservation(id, d.name.value, d.guests.value, d.date.value, d.time.value,
                d.email.value, d.phone.value, d.specialRequests.GetOr(""))
  }
}
