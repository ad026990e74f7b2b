/**
 * The relational store reduced to what the reconciliation code uses: tables of rows with an
 * AUTOINCREMENT integer key, insertion that hands out the next key, update and delete by a
 * condition, the lookups the code issues as SELECTs, and the check-then-update-or-insert
 * ("upsert") keyed by an external identifier that every sync in the repository performs.
 */
module Tables {
  import opened Common

  /** A stored row: the primary key the store assigned, and the record itself. */
  datatype Row<R> = Row(id: int, val: R)

  /** A table: its rows in rowid order, and the key the next insertion receives. */
  datatype Table<R> = Table(rows: seq<Row<R>>, next: int)

  /** A freshly created table: AUTOINCREMENT starts at 1. */
  function Empty<R>(): (t: Table<R>)
    ensures WellFormed(t) && t.rows == []
  {
    Table([], 1)
  }

  /** Keys are positive, below the next key to hand out, and increase with rowid order. */
  ghost predicate WellFormed<R>(t: Table<R>) {
    && 1 <= t.next
    && (forall i :: 0 <= i < |t.rows| ==> 1 <= t.rows[i].id < t.next)
    && (forall i, j :: 0 <= i < j < |t.rows| ==> t.rows[i].id < t.rows[j].id)
  }

  /** `INSERT`: the record is stored under the next key, which is then used up. */
  function Insert<R>(t: Table<R>, v: R): (u: Table<R>)
    ensures WellFormed(t) ==> WellFormed(u)
    ensures WellFormed(t) ==> forall i :: 0 <= i < |t.rows| ==> t.rows[i].id != t.next
  {
    Table(t.rows + [Row(t.next, v)], t.next + 1)
  }

  /** The rows whose record satisfies p, in table order (the result of a `SELECT ... WHERE`). */
  function Select<R>(rows: seq<Row<R>>, p: R -> bool): (r: seq<Row<R>>)
    ensures |r| <= |rows|
    ensures forall i :: 0 <= i < |r| ==> r[i] in rows && p(r[i].val)
    ensures forall i :: 0 <= i < |rows| && p(rows[i].val) ==> rows[i] in r
  {
    if rows == [] then []
    else Select(rows[..|rows| - 1], p) + (if p(rows[|rows| - 1].val) then [rows[|rows| - 1]] else [])
  }

  /** `SELECT COUNT(*) ... WHERE`. */
  function Count<R>(rows: seq<Row<R>>, p: R -> bool): nat {
    |Select(rows, p)|
  }

  /** Appending a row adds one to a count exactly when the row satisfies the condition. */
  lemma CountAppend<R>(rows: seq<Row<R>>, x: Row<R>, p: R -> bool)
    ensures Count(rows + [x], p) == Count(rows, p) + (if p(x.val) then 1 else 0)
  {
    assert (rows + [x])[..|rows + [x]| - 1] == rows;
  }

  /** A count is zero exactly when no row satisfies the condition. */
  lemma {:induction false} CountZero<R>(rows: seq<Row<R>>, p: R -> bool)
    ensures Count(rows, p) == 0 <==> forall i :: 0 <= i < |rows| ==> !p(rows[i].val)
  {
    if Count(rows, p) == 0 {
      forall i | 0 <= i < |rows| ensures !p(rows[i].val) {
        assert rows[i] in rows;
      }
    } else {
      var x := Select(rows, p)[0];
      assert x in Select(rows, p);
      var i :| 0 <= i < |rows| && rows[i] == x;
    }
  }

  /** Keeping only rows that satisfy q leaves the count of p unchanged when every p-row satisfies q. */
  lemma {:induction false} CountSelectKeeps<R>(rows: seq<Row<R>>, q: R -> bool, p: R -> bool)
    requires forall i :: 0 <= i < |rows| && p(rows[i].val) ==> q(rows[i].val)
    ensures Count(Select(rows, q), p) == Count(rows, p)
  {
    if rows != [] {
      var init := rows[..|rows| - 1];
      var last := rows[|rows| - 1];
      CountSelectKeeps(init, q, p);
      assert init + [last] == rows;
      CountAppend(init, last, p);
      if q(last.val) {
        assert Select(rows, q) == Select(init, q) + [last];
        CountAppend(Select(init, q), last, p);
      } else {
        assert Select(rows, q) == Select(init, q);
      }
    }
  }

  /** Keeping only rows that satisfy q leaves no p-row when no p-row satisfies q. */
  lemma {:induction false} CountSelectDrops<R>(rows: seq<Row<R>>, q: R -> bool, p: R -> bool)
    requires forall i :: 0 <= i < |rows| && p(rows[i].val) ==> !q(rows[i].val)
    ensures Count(Select(rows, q), p) == 0
  {
    if rows != [] {
      var init := rows[..|rows| - 1];
      var last := rows[|rows| - 1];
      CountSelectDrops(init, q, p);
      if q(last.val) {
        assert Select(rows, q) == Select(init, q) + [last];
        CountAppend(Select(init, q), last, p);
      } else {
        assert Select(rows, q) == Select(init, q);
      }
    }
  }

  /** The complement of a row condition. */
  function Not<R>(p: R -> bool): R -> bool {
    r => !p(r)
  }

  /** `DELETE ... WHERE`: the rows satisfying p go, the others keep their keys and order. */
  function DeleteWhere<R>(t: Table<R>, p: R -> bool): (u: Table<R>)
    ensures u.next == t.next && |u.rows| <= |t.rows|
    ensures forall i :: 0 <= i < |u.rows| ==> u.rows[i] in t.rows && !p(u.rows[i].val)
    ensures forall i :: 0 <= i < |t.rows| && !p(t.rows[i].val) ==> t.rows[i] in u.rows
    ensures WellFormed(t) ==> WellFormed(u)
  {
    SelectWellFormed(t, Not(p));
    Table(Select(t.rows, Not(p)), t.next)
  }

  /** A selection keeps the rows in their order, so increasing keys stay increasing. */
  lemma {:induction false} SelectIncreasing<R>(rows: seq<Row<R>>, p: R -> bool, lo: int, hi: int)
    requires forall i :: 0 <= i < |rows| ==> lo <= rows[i].id < hi
    requires forall i, j :: 0 <= i < j < |rows| ==> rows[i].id < rows[j].id
    ensures forall i, j :: 0 <= i < j < |Select(rows, p)| ==> Select(rows, p)[i].id < Select(rows, p)[j].id
    ensures forall i :: 0 <= i < |Select(rows, p)| ==> lo <= Select(rows, p)[i].id < hi
  {
    var s := Select(rows, p);
    forall i | 0 <= i < |s| ensures lo <= s[i].id < hi {
      assert s[i] in s;
    }
    if rows != [] {
      var init := rows[..|rows| - 1];
      var last := rows[|rows| - 1];
      SelectIncreasing(init, p, lo, last.id);
    }
  }

  /** Keeping only some rows keeps a table well formed. */
  lemma SelectWellFormed<R>(t: Table<R>, p: R -> bool)
    ensures WellFormed(t) ==> WellFormed(Table(Select(t.rows, p), t.next))
  {
    if WellFormed(t) {
      SelectIncreasing(t.rows, p, 1, t.next);
    }
  }

  /** `UPDATE ... SET ... WHERE`: every row satisfying p gets f applied, in place. */
  function UpdateWhere<R>(t: Table<R>, p: R -> bool, f: R -> R): (u: Table<R>)
    ensures |u.rows| == |t.rows| && u.next == t.next
    ensures forall i :: 0 <= i < |t.rows| ==> u.rows[i].id == t.rows[i].id
    ensures forall i :: 0 <= i < |t.rows| ==> u.rows[i].val == if p(t.rows[i].val) then f(t.rows[i].val) else t.rows[i].val
    ensures WellFormed(t) ==> WellFormed(u)
  {
    Table(seq(|t.rows|, i requires 0 <= i < |t.rows| =>
      if p(t.rows[i].val) then Row(t.rows[i].id, f(t.rows[i].val)) else t.rows[i]), t.next)
  }

  /** Some row has key id. */
  predicate HasId<R>(t: Table<R>, id: int) {
    exists i | 0 <= i < |t.rows| :: t.rows[i].id == id
  }

  /** `update_row`: the row with key id gets f applied, in place; no row changes when none has that key. */
  function UpdateById<R>(t: Table<R>, id: int, f: R -> R): (u: Table<R>)
    ensures |u.rows| == |t.rows| && u.next == t.next
    ensures forall i :: 0 <= i < |t.rows| ==> u.rows[i].id == t.rows[i].id
    ensures forall i :: 0 <= i < |t.rows| ==> u.rows[i].val == if t.rows[i].id == id then f(t.rows[i].val) else t.rows[i].val
    ensures !HasId(t, id) ==> u == t
    ensures WellFormed(t) ==> WellFormed(u)
  {
    var u := Table(seq(|t.rows|, i requires 0 <= i < |t.rows| =>
      if t.rows[i].id == id then Row(id, f(t.rows[i].val)) else t.rows[i]), t.next);
    assert !HasId(t, id) ==> u.rows == t.rows;
    u
  }

  /** The rows without key id, in order. */
  function WithoutId<R>(rows: seq<Row<R>>, id: int): (r: seq<Row<R>>)
    ensures |r| <= |rows|
    ensures forall i :: 0 <= i < |r| ==> r[i] in rows && r[i].id != id
    ensures forall i :: 0 <= i < |rows| && rows[i].id != id ==> rows[i] in r
    ensures (forall i :: 0 <= i < |rows| ==> rows[i].id != id) ==> r == rows
  {
    if rows == [] then []
    else WithoutId(rows[..|rows| - 1], id) + (if rows[|rows| - 1].id != id then [rows[|rows| - 1]] else [])
  }

  /** Dropping the rows with one key keeps the others in order, so increasing keys stay increasing. */
  lemma {:induction false} WithoutIdIncreasing<R>(rows: seq<Row<R>>, id: int, lo: int, hi: int)
    requires forall i :: 0 <= i < |rows| ==> lo <= rows[i].id < hi
    requires forall i, j :: 0 <= i < j < |rows| ==> rows[i].id < rows[j].id
    ensures forall i, j :: 0 <= i < j < |WithoutId(rows, id)| ==> WithoutId(rows, id)[i].id < WithoutId(rows, id)[j].id
    ensures forall i :: 0 <= i < |WithoutId(rows, id)| ==> lo <= WithoutId(rows, id)[i].id < hi
  {
    var r := WithoutId(rows, id);
    forall i | 0 <= i < |r| ensures lo <= r[i].id < hi {
      assert r[i] in rows;
    }
    if rows != [] {
      var last := rows[|rows| - 1];
      WithoutIdIncreasing(rows[..|rows| - 1], id, lo, last.id);
    }
  }

  lemma WithoutIdWellFormed<R>(t: Table<R>, id: int)
    ensures WellFormed(t) ==> WellFormed(Table(WithoutId(t.rows, id), t.next))
  {
    if WellFormed(t) {
      WithoutIdIncreasing(t.rows, id, 1, t.next);
    }
  }

  /** `delete_row`: the row with key id is removed; every other row stays, in order. */
  function DeleteById<R>(t: Table<R>, id: int): (u: Table<R>)
    ensures u.next == t.next && |u.rows| <= |t.rows|
    ensures !HasId(u, id)
    ensures forall i :: 0 <= i < |u.rows| ==> u.rows[i] in t.rows
    ensures forall i :: 0 <= i < |t.rows| && t.rows[i].id != id ==> t.rows[i] in u.rows
    ensures !HasId(t, id) ==> u == t
    ensures WellFormed(t) ==> WellFormed(u)
  {
    WithoutIdWellFormed(t, id);
    Table(WithoutId(t.rows, id), t.next)
  }

  /** Deleting the row just inserted gives back the rows as they were; only the used-up key remains spent. */
  lemma DeleteInserted<R>(t: Table<R>, v: R)
    requires WellFormed(t)
    ensures DeleteById(Insert(t, v), t.next) == Table(t.rows, t.next + 1)
  {
    var rows := Insert(t, v).rows;
    assert rows[..|rows| - 1] == t.rows;
  }

  /** Some row satisfies p (a `SELECT` that came back non-empty). */
  predicate Exists<R>(rows: seq<Row<R>>, p: R -> bool) {
    exists i | 0 <= i < |rows| :: p(rows[i].val)
  }

  /** The key of the first row satisfying p: the code's `rows[0]["id"]` after a `SELECT id`. */
  function FirstId<R>(rows: seq<Row<R>>, p: R -> bool): (r: Option<int>)
    ensures r.None? <==> !Exists(rows, p)
  {
    if rows == [] then None
    else if p(rows[0].val) then Some(rows[0].id)
    else
      var r := FirstId(rows[1..], p);
      assert forall j | 1 <= j < |rows| :: rows[1..][j - 1] == rows[j];
      r
  }

  /** The key found is that of a row satisfying p, and no earlier row satisfies p. */
  lemma {:induction false} FirstIdFinds<R>(rows: seq<Row<R>>, p: R -> bool)
    requires FirstId(rows, p).Some?
    ensures exists i | 0 <= i < |rows| :: rows[i].id == FirstId(rows, p).value && p(rows[i].val)
                                        && forall j | 0 <= j < i :: !p(rows[j].val)
  {
    if !p(rows[0].val) {
      FirstIdFinds(rows[1..], p);
      var i :| 0 <= i < |rows[1..]| && rows[1..][i].id == FirstId(rows[1..], p).value && p(rows[1..][i].val)
               && forall j | 0 <= j < i :: !p(rows[1..][j].val);
      assert rows[i + 1] == rows[1..][i];
      forall j | 0 <= j < i + 1 ensures !p(rows[j].val) {
        if j > 0 {
          assert rows[j] == rows[1..][j - 1];
        }
      }
    }
  }

  /** u is t with rows appended, keyed with t's next keys in turn. */
  ghost predicate Appended<R>(t: Table<R>, u: Table<R>) {
    && |t.rows| <= |u.rows| && u.rows[..|t.rows|] == t.rows
    && u.next == t.next + (|u.rows| - |t.rows|)
    && forall i :: |t.rows| <= i < |u.rows| ==> u.rows[i].id == t.next + (i - |t.rows|)
  }

  lemma AppendedRefl<R>(t: Table<R>)
    ensures Appended(t, t)
  {
    assert t.rows[..|t.rows|] == t.rows;
  }

  lemma AppendedTrans<R>(s: Table<R>, t: Table<R>, u: Table<R>)
    requires Appended(s, t) && Appended(t, u)
    ensures Appended(s, u)
    ensures forall i :: 0 <= i < |t.rows| ==> u.rows[i] == t.rows[i]
  {
    assert u.rows[..|s.rows|] == u.rows[..|t.rows|][..|s.rows|];
    forall i | 0 <= i < |t.rows| ensures u.rows[i] == t.rows[i] {
      assert u.rows[..|t.rows|][i] == u.rows[i];
    }
  }

  lemma AppendedInsert<R>(t: Table<R>, v: R)
    ensures Appended(t, Insert(t, v))
  {
    assert Insert(t, v).rows[..|t.rows|] == t.rows;
  }

  /** A well-formed table stays well formed when rows are appended under the next keys. */
  lemma AppendedWellFormed<R>(t: Table<R>, u: Table<R>)
    requires WellFormed(t) && Appended(t, u)
    ensures WellFormed(u)
  {
    var m := |t.rows|;
    forall i | 0 <= i < m ensures u.rows[i] == t.rows[i] {
      assert u.rows[..m][i] == u.rows[i];
    }
  }

  // ---------------------------------------------------------------------------------------
  // Upsert by external identifier
  // ---------------------------------------------------------------------------------------

  /**
   * How one kind of remote record reconciles with one local table: `key` reads the external
   * identifier a local row carries (None for rows created by hand), `xkey` the identifier of a
   * remote record, `make` builds the row an insertion stores and `apply` the row an update
   * leaves behind.
   */
  datatype Keyed<!R, !X> = Keyed(key: R -> Option<string>, xkey: X -> string, make: X -> R, apply: (R, X) -> R)

  /**
   * The laws every sync in the repository satisfies: an update keeps the identifier, a later
   * update overwrites everything an earlier one wrote, an inserted row carries the remote
   * identifier, and updating a freshly inserted row with the same record changes nothing.
   */
  ghost predicate Lawful<R(!new), X(!new)>(k: Keyed<R, X>) {
    && (forall r, x :: k.key(k.apply(r, x)) == k.key(r))
    && (forall r, x, y :: k.apply(k.apply(r, x), y) == k.apply(r, y))
    && (forall x :: k.key(k.make(x)) == Some(k.xkey(x)))
    && (forall x :: k.apply(k.make(x), x) == k.make(x))
  }

  /** Some row of t carries external identifier s. */
  predicate HasKey<R>(t: Table<R>, key: R -> Option<string>, s: string) {
    exists i | 0 <= i < |t.rows| :: key(t.rows[i].val) == Some(s)
  }

  /**
   * One reconciliation step: when a row with the record's identifier exists, every such row is
   * updated (the code's `UPDATE ... WHERE meta_..._id = ?`); otherwise one row is inserted.
   */
  function Upsert<R, X>(t: Table<R>, x: X, k: Keyed<R, X>): Table<R> {
    if HasKey(t, k.key, k.xkey(x)) then UpdateWhere(t, r => k.key(r) == Some(k.xkey(x)), r => k.apply(r, x))
    else Insert(t, k.make(x))
  }

  /** The records reconciled one after another, in the order the remote listed them. */
  function UpsertAll<R, X>(t: Table<R>, xs: seq<X>, k: Keyed<R, X>): Table<R> {
    if xs == [] then t else Upsert(UpsertAll(t, xs[..|xs| - 1], k), xs[|xs| - 1], k)
  }

  /** The reconciliation loop, one record further. */
  lemma UpsertAllStep<R, X>(t: Table<R>, xs: seq<X>, i: int, k: Keyed<R, X>)
    requires 0 <= i < |xs|
    ensures UpsertAll(t, xs[..i + 1], k) == Upsert(UpsertAll(t, xs[..i], k), xs[i], k)
  {
    assert xs[..i + 1][..i] == xs[..i];
  }

  /** Reconciling a + b is reconciling a, then b: the sync loops may be read front to back. */
  lemma {:induction false} UpsertAllAppend<R, X>(t: Table<R>, a: seq<X>, b: seq<X>, k: Keyed<R, X>)
    ensures UpsertAll(t, a + b, k) == UpsertAll(UpsertAll(t, a, k), b, k)
  {
    if b == [] {
      assert a + b == a;
    } else {
      assert (a + b)[..|a + b| - 1] == a + b[..|b| - 1];
      UpsertAllAppend(t, a, b[..|b| - 1], k);
    }
  }

  /** The last record of xs with identifier s: the one whose fields a row with that key ends up with. */
  ghost function LastWith<X>(xs: seq<X>, xkey: X -> string, s: string): Option<X> {
    if xs == [] then None
    else if xkey(xs[|xs| - 1]) == s then Some(xs[|xs| - 1])
    else LastWith(xs[..|xs| - 1], xkey, s)
  }

  /** A row as updating it with the last record of xs that carries its identifier leaves it. */
  ghost function Refresh<R, X>(r: R, xs: seq<X>, k: Keyed<R, X>): R {
    match k.key(r)
    case None => r
    case Some(s) =>
      match LastWith(xs, k.xkey, s)
      case None => r
      case Some(x) => k.apply(r, x)
  }

  /** Every row refreshed by xs, keys and row order unchanged. */
  ghost function RefreshAll<R, X>(t: Table<R>, xs: seq<X>, k: Keyed<R, X>): Table<R> {
    Table(seq(|t.rows|, i requires 0 <= i < |t.rows| => Row(t.rows[i].id, Refresh(t.rows[i].val, xs, k))), t.next)
  }

  /** Every identifier listed in xs is carried by some row of t. */
  ghost predicate Covers<R, X>(t: Table<R>, xs: seq<X>, k: Keyed<R, X>) {
    forall j :: 0 <= j < |xs| ==> HasKey(t, k.key, k.xkey(xs[j]))
  }

  /** No two rows share an external identifier (rows created by hand, with none, are exempt). */
  ghost predicate KeysUnique<R>(t: Table<R>, key: R -> Option<string>) {
    forall i, j :: 0 <= i < j < |t.rows| && key(t.rows[i].val).Some? ==> key(t.rows[i].val) != key(t.rows[j].val)
  }

  /**
   * What reconciliation does to the rows already present: none is removed or moved, keys and
   * external identifiers stay, a row whose identifier no record carries is untouched, and the
   * rows added at the end each carry an identifier from xs.
   */
  lemma {:induction false} UpsertAllKeepsRows<R(!new), X(!new)>(t: Table<R>, xs: seq<X>, k: Keyed<R, X>)
    requires Lawful(k)
    ensures var u := UpsertAll(t, xs, k);
      && |t.rows| <= |u.rows| && t.next <= u.next
      && (forall i :: 0 <= i < |t.rows| ==> u.rows[i].id == t.rows[i].id && k.key(u.rows[i].val) == k.key(t.rows[i].val))
      && (forall i :: 0 <= i < |t.rows| && (k.key(t.rows[i].val).None? || LastWith(xs, k.xkey, k.key(t.rows[i].val).value).None?)
            ==> u.rows[i] == t.rows[i])
      && (forall i :: |t.rows| <= i < |u.rows| ==> k.key(u.rows[i].val).Some? && LastWith(xs, k.xkey, k.key(u.rows[i].val).value).Some?)
  {
    if xs != [] {
      var init := xs[..|xs| - 1];
      var x := xs[|xs| - 1];
      UpsertAllKeepsRows(t, init, k);
    }
  }

  /** Reconciliation keeps keys positive, increasing and below the next key. */
  lemma {:induction false} UpsertAllWellFormed<R, X>(t: Table<R>, xs: seq<X>, k: Keyed<R, X>)
    ensures WellFormed(t) ==> WellFormed(UpsertAll(t, xs, k))
  {
    if xs != [] {
      UpsertAllWellFormed(t, xs[..|xs| - 1], k);
    }
  }

  /** After reconciliation every listed identifier has a row. */
  lemma {:induction false} UpsertAllCovers<R(!new), X(!new)>(t: Table<R>, xs: seq<X>, k: Keyed<R, X>)
    requires Lawful(k)
    ensures Covers(UpsertAll(t, xs, k), xs, k)
  {
    if xs != [] {
      var init := xs[..|xs| - 1];
      var x := xs[|xs| - 1];
      var u0 := UpsertAll(t, init, k);
      UpsertAllCovers(t, init, k);
      var u := Upsert(u0, x, k);
      forall j | 0 <= j < |xs| ensures HasKey(u, k.key, k.xkey(xs[j])) {
        if j < |init| {
          assert HasKey(u0, k.key, k.xkey(init[j]));
          var i :| 0 <= i < |u0.rows| && k.key(u0.rows[i].val) == Some(k.xkey(init[j]));
          assert k.key(u.rows[i].val) == Some(k.xkey(xs[j]));
        } else if HasKey(u0, k.key, k.xkey(x)) {
          var i :| 0 <= i < |u0.rows| && k.key(u0.rows[i].val) == Some(k.xkey(x));
          assert k.key(u.rows[i].val) == Some(k.xkey(xs[j]));
        } else {
          assert k.key(u.rows[|u0.rows|].val) == Some(k.xkey(xs[j]));
        }
      }
    }
  }

  /** When every identifier is already present, reconciliation only refreshes rows in place. */
  lemma {:induction false} UpsertAllRefreshes<R(!new), X(!new)>(t: Table<R>, xs: seq<X>, k: Keyed<R, X>)
    requires Lawful(k) && Covers(t, xs, k)
    ensures UpsertAll(t, xs, k) == RefreshAll(t, xs, k)
  {
    if xs != [] {
      var init := xs[..|xs| - 1];
      var x := xs[|xs| - 1];
      assert Covers(t, init, k) by {
        forall j | 0 <= j < |init| ensures HasKey(t, k.key, k.xkey(init[j])) {
          assert init[j] == xs[j];
        }
      }
      UpsertAllRefreshes(t, init, k);
      var u0 := RefreshAll(t, init, k);
      assert HasKey(t, k.key, k.xkey(xs[|xs| - 1]));
      var i0 :| 0 <= i0 < |t.rows| && k.key(t.rows[i0].val) == Some(k.xkey(x));
      assert k.key(u0.rows[i0].val) == Some(k.xkey(x));
      var u := Upsert(u0, x, k);
      var w := RefreshAll(t, xs, k);
      assert |u.rows| == |w.rows|;
      forall i | 0 <= i < |t.rows| ensures u.rows[i] == w.rows[i] {
        var r := t.rows[i].val;
        match k.key(r)
        case None =>
        case Some(s) =>
          if s == k.xkey(x) {
            assert LastWith(xs, k.xkey, s) == Some(x);
          } else {
            assert LastWith(xs, k.xkey, s) == LastWith(init, k.xkey, s);
          }
      }
    }
  }

  /** Right after reconciliation, refreshing by the same records changes no row. */
  lemma {:induction false} UpsertAllSettled<R(!new), X(!new)>(t: Table<R>, xs: seq<X>, k: Keyed<R, X>)
    requires Lawful(k)
    ensures RefreshAll(UpsertAll(t, xs, k), xs, k) == UpsertAll(t, xs, k)
  {
    var u := UpsertAll(t, xs, k);
    if xs != [] {
      var init := xs[..|xs| - 1];
      var x := xs[|xs| - 1];
      var u0 := UpsertAll(t, init, k);
      UpsertAllSettled(t, init, k);
      var w := RefreshAll(u, xs, k);
      forall i | 0 <= i < |u.rows| ensures w.rows[i] == u.rows[i] {
        var r := u.rows[i].val;
        match k.key(r)
        case None =>
        case Some(s) =>
          if s == k.xkey(x) {
            assert LastWith(xs, k.xkey, s) == Some(x);
            if HasKey(u0, k.key, k.xkey(x)) {
              var r0 := u0.rows[i].val;
              assert r == k.apply(r0, x);
            } else {
              assert forall j :: 0 <= j < |u0.rows| ==> u.rows[j] == u0.rows[j];
              assert i == |u0.rows|;
              assert r == k.make(x);
            }
          } else {
            assert LastWith(xs, k.xkey, s) == LastWith(init, k.xkey, s);
            assert i < |u0.rows|;
            var r0 := u0.rows[i].val;
            assert r == r0;
            assert RefreshAll(u0, init, k).rows[i] == u0.rows[i];
          }
      }
    }
  }

  /**
   * Reconciliation is idempotent: syncing the same remote records a second time leaves the table
   * exactly as the first sync left it, so in particular it adds no rows.
   */
  lemma {:induction false} UpsertAllIdempotent<R(!new), X(!new)>(t: Table<R>, xs: seq<X>, k: Keyed<R, X>)
    requires Lawful(k)
    ensures UpsertAll(UpsertAll(t, xs, k), xs, k) == UpsertAll(t, xs, k)
  {
    var u := UpsertAll(t, xs, k);
    UpsertAllCovers(t, xs, k);
    UpsertAllRefreshes(u, xs, k);
    UpsertAllSettled(t, xs, k);
  }

  /**
   * Reconciliation never creates a second row for an identifier: if identifiers were unique
   * before, they are unique after, and then every listed identifier has exactly one row.
   */
  lemma {:induction false} UpsertAllUnique<R(!new), X(!new)>(t: Table<R>, xs: seq<X>, k: Keyed<R, X>)
    requires Lawful(k) && KeysUnique(t, k.key)
    ensures KeysUnique(UpsertAll(t, xs, k), k.key)
  {
    if xs != [] {
      var init := xs[..|xs| - 1];
      var x := xs[|xs| - 1];
      UpsertAllUnique(t, init, k);
      var u0 := UpsertAll(t, init, k);
      var u := Upsert(u0, x, k);
      if !HasKey(u0, k.key, k.xkey(x)) {
        assert forall i :: 0 <= i < |u0.rows| ==> u.rows[i] == u0.rows[i];
      }
    }
  }

  /** A key found among rows is found, the same, among rows that extend them with the same keys and conditions. */
  lemma {:induction false} FirstIdKept<R>(t: seq<Row<R>>, u: seq<Row<R>>, p: R -> bool)
    requires |t| <= |u|
    requires forall i :: 0 <= i < |t| ==> u[i].id == t[i].id && p(u[i].val) == p(t[i].val)
    requires FirstId(t, p).Some?
    ensures FirstId(u, p) == FirstId(t, p)
  {
    if !p(t[0].val) {
      FirstIdKept(t[1..], u[1..], p);
    }
  }

  /** One reconciliation step leaves a row carrying the record's identifier. */
  lemma UpsertFinds<R(!new), X(!new)>(t: Table<R>, x: X, k: Keyed<R, X>)
    requires Lawful(k)
    ensures HasKey(Upsert(t, x, k), k.key, k.xkey(x))
  {
    var u := Upsert(t, x, k);
    if HasKey(t, k.key, k.xkey(x)) {
      var i :| 0 <= i < |t.rows| && k.key(t.rows[i].val) == Some(k.xkey(x));
      assert k.key(u.rows[i].val) == Some(k.xkey(x));
    } else {
      assert k.key(u.rows[|t.rows|].val) == Some(k.xkey(x));
    }
  }

  /** The records xs, each transformed by f. */
  function MapRecords<X, Y>(f: X -> Y, xs: seq<X>): (r: seq<Y>)
    ensures |r| == |xs| && forall i :: 0 <= i < |xs| ==> r[i] == f(xs[i])
  {
    seq(|xs|, i requires 0 <= i < |xs| => f(xs[i]))
  }

  /** k reconciles x exactly as k' reconciles f(x). */
  ghost predicate SameSync<R(!new), X(!new), Y>(k: Keyed<R, X>, k': Keyed<R, Y>, f: X -> Y) {
    && (forall r :: k.key(r) == k'.key(r))
    && (forall x :: k.xkey(x) == k'.xkey(f(x)) && k.make(x) == k'.make(f(x)))
    && (forall r, x :: k.apply(r, x) == k'.apply(r, f(x)))
  }

  lemma UpsertSame<R(!new), X(!new), Y>(t: Table<R>, x: X, k: Keyed<R, X>, k': Keyed<R, Y>, f: X -> Y)
    requires SameSync(k, k', f)
    ensures Upsert(t, x, k) == Upsert(t, f(x), k')
  {
    var a := Upsert(t, x, k);
    var b := Upsert(t, f(x), k');
    if HasKey(t, k.key, k.xkey(x)) {
      var i :| 0 <= i < |t.rows| && k.key(t.rows[i].val) == Some(k.xkey(x));
      assert k'.key(t.rows[i].val) == Some(k'.xkey(f(x)));
      forall j | 0 <= j < |a.rows| ensures a.rows[j] == b.rows[j] {
        assert k.key(t.rows[j].val) == k'.key(t.rows[j].val);
      }
      assert a.rows == b.rows;
    } else {
      assert !HasKey(t, k'.key, k'.xkey(f(x)));
    }
  }

  /** Reconciliation depends only on what the reconciliation computes, not on how records are shaped. */
  lemma {:induction false} UpsertAllSame<R(!new), X(!new), Y>(t: Table<R>, xs: seq<X>, k: Keyed<R, X>, k': Keyed<R, Y>, f: X -> Y)
    requires SameSync(k, k', f)
    ensures UpsertAll(t, xs, k) == UpsertAll(t, MapRecords(f, xs), k')
  {
    if xs != [] {
      var n := |xs|;
      UpsertAllSame(t, xs[..n - 1], k, k', f);
      assert MapRecords(f, xs)[..n - 1] == MapRecords(f, xs[..n - 1]);
      UpsertSame(UpsertAll(t, xs[..n - 1], k), xs[n - 1], k, k', f);
    }
  }
}
