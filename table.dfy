/** A database table as a sequence of rows in insertion order, each row
    carrying its auto-assigned integer primary key. */
module Table {
  import opened Base

  datatype Row<T> = Row(id: int, val: T)

  /** The primary keys present in a table. */
  function Keys<T(==)>(t: seq<Row<T>>): set<int> {
    set r | r in t :: r.id
  }

  /** Primary keys are positive (so never Python-falsy) and strictly
      increase in table order, which makes them unique. */
  ghost predicate WellKeyed<T>(t: seq<Row<T>>) {
    && (forall r :: r in t ==> r.id >= 1)
    && (forall i, j :: 0 <= i < j < |t| ==> t[i].id < t[j].id)
  }

  /** The key an auto-incrementing integer primary key receives: one more
      than the largest key present, 1 in an empty table. */
  function NextId<T(==)>(t: seq<Row<T>>): (n: int)
    ensures n >= 1
    ensures forall r :: r in t ==> r.id < n
  {
    if t == [] then 1
    else
      var rest := NextId(t[..|t| - 1]);
      var last := t[|t| - 1].id + 1;
      assert forall r :: r in t ==> r in t[..|t| - 1] || r == t[|t| - 1];
      if rest < last then last else rest
  }

  /** Appending a row: the store's insert. */
  function Insert<T(==)>(t: seq<Row<T>>, v: T): seq<Row<T>> {
    t + [Row(NextId(t), v)]
  }

  lemma InsertKeepsWellKeyed<T>(t: seq<Row<T>>, v: T)
    requires WellKeyed(t)
    ensures WellKeyed(Insert(t, v))
    ensures Keys(Insert(t, v)) == Keys(t) + {NextId(t)}
    ensures NextId(t) !in Keys(t)
  {
    var t' := Insert(t, v);
    forall i, j | 0 <= i < j < |t'| ensures t'[i].id < t'[j].id {
      if j == |t| { assert t'[i] == t[i] && t[i] in t; }
    }
    forall k ensures k in Keys(t') <==> k in Keys(t) + {NextId(t)} {
      if k in Keys(t') {
        var r :| r in t' && r.id == k;
        if r != Row(NextId(t), v) { assert r in t; }
      }
      if k in Keys(t) {
        var r :| r in t && r.id == k;
        assert r in t';
      }
      if k == NextId(t) { assert t'[|t|] in t'; }
    }
  }

  /** The rows satisfying a query predicate, in table order: SQLAlchemy's
      `filter_by(...).all()`. */
  function Filter<T(==,!new)>(t: seq<Row<T>>, p: Row<T> -> bool): (r: seq<Row<T>>)
    ensures |r| <= |t|
    ensures forall x :: x in r <==> x in t && p(x)
  {
    if t == [] then []
    else
      var tail := Filter(t[1..], p);
      assert forall x :: x in t <==> x == t[0] || x in t[1..];
      if p(t[0]) then [t[0]] + tail else tail
  }

  /** Filtering distributes over concatenation: a query keeps the rows it
      selects in table order. */
  lemma {:induction false} FilterAppend<T(!new)>(a: seq<Row<T>>, b: seq<Row<T>>, p: Row<T> -> bool)
    ensures Filter(a + b, p) == Filter(a, p) + Filter(b, p)
  {
    if a == [] {
      assert a + b == b;
    } else {
      assert (a + b)[1..] == a[1..] + b;
      FilterAppend(a[1..], b, p);
    }
  }

  /** The rows after the first of a well-keyed table are well keyed, and
      all carry larger keys than the first. */
  lemma TailWellKeyed<T>(t: seq<Row<T>>)
    requires WellKeyed(t) && t != []
    ensures WellKeyed(t[1..])
    ensures forall x :: x in t[1..] ==> t[0].id < x.id
  {
    forall x | x in t[1..] ensures x.id >= 1 && t[0].id < x.id {
      var k :| 0 <= k < |t[1..]| && t[1..][k] == x;
      assert t[k + 1] == x && x in t;
    }
    forall i, j | 0 <= i < j < |t[1..]| ensures t[1..][i].id < t[1..][j].id {
      assert t[1..][i] == t[i + 1] && t[1..][j] == t[j + 1];
    }
  }

  /** A row with a positive key smaller than every key of a well-keyed
      table can go in front of it. */
  lemma ConsWellKeyed<T>(h: Row<T>, t: seq<Row<T>>)
    requires WellKeyed(t) && h.id >= 1
    requires forall x :: x in t ==> h.id < x.id
    ensures WellKeyed([h] + t)
  {
    var r := [h] + t;
    forall x | x in r ensures x.id >= 1 {
      if x != h { assert x in t; }
    }
    forall i, j | 0 <= i < j < |r| ensures r[i].id < r[j].id {
      if i == 0 { assert r[j] == t[j - 1] && t[j - 1] in t; }
      else { assert r[i] == t[i - 1] && r[j] == t[j - 1]; }
    }
  }

  /** A query's result keeps the keys well-formed. */
  lemma {:induction false} FilterKeepsWellKeyed<T(!new)>(t: seq<Row<T>>, p: Row<T> -> bool)
    requires WellKeyed(t)
    ensures WellKeyed(Filter(t, p))
  {
    if t != [] {
      TailWellKeyed(t);
      FilterKeepsWellKeyed(t[1..], p);
      if p(t[0]) {
        assert t[0] in t;
        ConsWellKeyed(t[0], Filter(t[1..], p));
      }
    }
  }

  /** The rows of a table satisfying p are those of its tail, plus its
      first row when that satisfies p. */
  lemma MatchingCons<T(!new)>(t: seq<Row<T>>, p: Row<T> -> bool)
    requires t != []
    ensures (set x | x in t && p(x)) ==
      (set x | x in t[1..] && p(x)) + (if p(t[0]) then {t[0]} else {})
  {
    forall x ensures x in t <==> x == t[0] || x in t[1..] {
      if x in t {
        var k :| 0 <= k < |t| && t[k] == x;
        if k > 0 { assert t[1..][k - 1] == x; }
      }
    }
  }

  /** In a well-keyed table no row occurs twice, so a query returns as
      many rows as there are distinct rows satisfying it. */
  lemma {:induction false} FilterCard<T(!new)>(t: seq<Row<T>>, p: Row<T> -> bool)
    requires WellKeyed(t)
    ensures |Filter(t, p)| == |set x | x in t && p(x)|
  {
    if t == [] {
      assert (set x | x in t && p(x)) == {};
    } else {
      TailWellKeyed(t);
      FilterCard(t[1..], p);
      MatchingCons(t, p);
      var rest := set x | x in t[1..] && p(x);
      assert t[0] !in rest;
      if p(t[0]) {
        assert Filter(t, p) == [t[0]] + Filter(t[1..], p);
        assert |rest + {t[0]}| == |rest| + 1;
      } else {
        assert Filter(t, p) == Filter(t[1..], p);
      }
    }
  }

  /** A query no row satisfies returns nothing. */
  lemma {:induction false} FilterNone<T(!new)>(t: seq<Row<T>>, p: Row<T> -> bool)
    requires forall x :: x in t ==> !p(x)
    ensures Filter(t, p) == []
  {
    if t != [] {
      assert t[0] in t;
      assert forall x :: x in t[1..] ==> x in t;
      FilterNone(t[1..], p);
    }
  }

  /** Narrowing a query result by a stricter predicate is the same as
      querying with the stricter predicate alone. */
  lemma {:induction false} FilterNarrow<T(!new)>(t: seq<Row<T>>, p: Row<T> -> bool, q: Row<T> -> bool)
    requires forall x :: x in t && q(x) ==> p(x)
    ensures Filter(Filter(t, p), q) == Filter(t, q)
  {
    if t != [] {
      assert forall x :: x in t[1..] ==> x in t;
      FilterNarrow(t[1..], p, q);
    }
  }

  /** Lookup by primary key: the first row with key k. */
  function Find<T(==,!new)>(t: seq<Row<T>>, k: int): (r: Option<Row<T>>)
    ensures r.Some? ==> r.value in t && r.value.id == k
    ensures r.None? <==> k !in Keys(t)
  {
    if t == [] then None
    else if t[0].id == k then Some(t[0])
    else
      var tail := Find(t[1..], k);
      assert forall x :: x in t <==> x == t[0] || x in t[1..];
      tail
  }

  /** In a well-keyed table a key names one row only, so lookup returns
      exactly the row that carries it. */
  lemma FindUnique<T(!new)>(t: seq<Row<T>>, x: Row<T>)
    requires WellKeyed(t)
    requires x in t
    ensures Find(t, x.id) == Some(x)
  {
    var y := Find(t, x.id).value;
    var i :| 0 <= i < |t| && t[i] == x;
    var j :| 0 <= j < |t| && t[j] == y;
    if i < j { assert t[i].id < t[j].id; }
    else if j < i { assert t[j].id < t[i].id; }
  }
}
