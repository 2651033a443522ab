/** Orderings used by the SQL queries of the route handlers: `ORDER BY`
    (a stable insertion sort over a total relation), `MAX(display_order) + 1`
    for appended rows, and SQLite's comparison of TEXT values. */
module Ordering {
  import opened Common

  /** A relation under which any two values are comparable. */
  ghost predicate Total<T(!new)>(le: (T, T) -> bool) {
    forall a, b :: le(a, b) || le(b, a)
  }

  /** Every neighbouring pair is in order. */
  predicate SortedBy<T>(s: seq<T>, le: (T, T) -> bool) {
    forall i :: 0 < i < |s| ==> le(s[i - 1], s[i])
  }

  /** Inserts `x` before the first element it may precede. */
  function Insert<T>(x: T, s: seq<T>, le: (T, T) -> bool): (r: seq<T>)
    ensures |r| == |s| + 1
    ensures multiset(r) == multiset(s) + multiset{x}
    ensures r[0] == x || (s != [] && r[0] == s[0])
    decreases |s|
  {
    if s == [] || le(x, s[0]) then [x] + s
    else
      assert s == [s[0]] + s[1..];
      [s[0]] + Insert(x, s[1..], le)
  }

  /** `ORDER BY`: the rows of `s` rearranged into `le` order. */
  function Sort<T>(s: seq<T>, le: (T, T) -> bool): (r: seq<T>)
    ensures multiset(r) == multiset(s)
    decreases |s|
  {
    if s == [] then []
    else
      assert s == [s[0]] + s[1..];
      Insert(s[0], Sort(s[1..], le), le)
  }

  lemma {:induction false} InsertSorted<T(!new)>(x: T, s: seq<T>, le: (T, T) -> bool)
    requires Total(le)
    requires SortedBy(s, le)
    ensures SortedBy(Insert(x, s, le), le)
    decreases |s|
  {
    if s != [] && !le(x, s[0]) {
      assert le(s[0], x);
      InsertSorted(x, s[1..], le);
      var tail := Insert(x, s[1..], le);
      assert tail[0] == x || (s[1..] != [] && tail[0] == s[1]);
    }
  }

  /** The result of `Sort` is sorted whenever the relation is total. */
  lemma {:induction false} SortSorted<T(!new)>(s: seq<T>, le: (T, T) -> bool)
    requires Total(le)
    ensures SortedBy(Sort(s, le), le)
    decreases |s|
  {
    if s != [] {
      SortSorted(s[1..], le);
      InsertSorted(s[0], Sort(s[1..], le), le);
    }
  }

  /** `SELECT … WHERE keep ORDER BY le`: the kept rows, each as often as it
      occurs, in `le` order. */
  function SortedWhere<T(!new)>(rows: seq<T>, keep: T -> bool, le: (T, T) -> bool): (r: seq<T>)
    requires Total(le)
    ensures multiset(r) == multiset(Filter(rows, keep))
    ensures forall x :: multiset(r)[x] == if keep(x) then multiset(rows)[x] else 0
    ensures forall x :: x in r <==> x in rows && keep(x)
    ensures SortedBy(r, le)
  {
    var hits := Filter(rows, keep);
    SortSorted(hits, le);
    var r := Sort(hits, le);
    forall x ensures multiset(r)[x] == if keep(x) then multiset(rows)[x] else 0 {
      FilterCount(rows, keep, x);
    }
    assert forall x :: x in r <==> x in hits by {
      forall x ensures x in r <==> x in hits {
        assert x in r <==> multiset(r)[x] > 0;
        assert x in hits <==> multiset(hits)[x] > 0;
      }
    }
    r
  }

  // ---------------------------------------------------------------------------
  // Appending with `display_order = (MAX(display_order) || 0) + 1`

  function MaxOf(s: seq<int>): (m: int)
    requires s != []
    ensures m in s
    ensures forall x :: x in s ==> x <= m
    decreases |s|
  {
    if |s| == 1 then s[0]
    else
      var m := MaxOf(s[1..]);
      assert s == [s[0]] + s[1..];
      if s[0] >= m then s[0] else m
  }

  /** The `display_order` a new row receives, given the orders of the rows in
      its scope: one more than their maximum, or 1 for an empty scope. The
      `|| 0` of the source turns a NULL maximum into 0; a maximum of 0 is
      falsy too but also gives 0, so the result is the same either way. */
  function NextDisplayOrder(orders: seq<int>): (r: int)
    ensures orders == [] ==> r == 1
    ensures orders != [] ==> r - 1 in orders
    ensures forall o :: o in orders ==> o < r
  {
    if orders == [] then 1
    else
      var m := MaxOf(orders);
      (if m == 0 then 0 else m) + 1
  }

  /** The `display_order` values of a table's rows. */
  function Orders<T>(rows: seq<T>, order: T -> int): seq<int> {
    Column(rows, order)
  }

  /** `(SELECT MAX(display_order) … WHERE inScope) || 0) + 1`: above every
      order in scope, one above the largest, and 1 when the scope is empty. */
  function NextOrderIn<T(!new)>(rows: seq<T>, inScope: T -> bool, order: T -> int): (r: int)
    ensures forall x :: x in rows && inScope(x) ==> order(x) < r
    ensures (forall x :: x in rows ==> !inScope(x)) ==> r == 1
    ensures (exists x :: x in rows && inScope(x)) ==> exists x :: x in rows && inScope(x) && order(x) == r - 1
  {
    var scope := Filter(rows, inScope);
    var orders := Orders(scope, order);
    OrdersMembership(scope, order);
    NextDisplayOrder(orders)
  }

  lemma OrdersMembership<T>(rows: seq<T>, order: T -> int)
    ensures forall x :: x in rows ==> order(x) in Orders(rows, order)
    ensures forall o :: o in Orders(rows, order) ==> exists x :: x in rows && order(x) == o
    ensures rows == [] <==> Orders(rows, order) == []
  {
    var os := Orders(rows, order);
    forall x | x in rows ensures order(x) in os {
      var i :| 0 <= i < |rows| && rows[i] == x;
      assert os[i] == order(x);
    }
    forall o | o in os ensures exists x :: x in rows && order(x) == o {
      var i :| 0 <= i < |os| && os[i] == o;
      assert rows[i] in rows;
    }
  }

  /** Rows outside the scope do not affect the order a new row receives. */
  lemma NextOrderIgnoresOutOfScope<T(!new)>(rows: seq<T>, extra: seq<T>, inScope: T -> bool, order: T -> int)
    requires forall i :: 0 <= i < |extra| ==> !inScope(extra[i])
    ensures NextOrderIn(rows + extra, inScope, order) == NextOrderIn(rows, inScope, order)
  {
    FilterAppend(rows, extra, inScope);
    FilterKeepsNone(extra, inScope);
    assert Filter(rows + extra, inScope) == Filter(rows, inScope);
  }

  // ---------------------------------------------------------------------------
  // SQLite's default (BINARY) comparison of TEXT values, on code points

  /** `a <= b` in lexicographic order. */
  predicate LexLe(a: string, b: string)
    decreases |a|
  {
    a == [] || (b != [] && (a[0] < b[0] || (a[0] == b[0] && LexLe(a[1..], b[1..]))))
  }

  lemma {:induction false} LexLeTotal(a: string, b: string)
    ensures LexLe(a, b) || LexLe(b, a)
    decreases |a|
  {
    if a != [] && b != [] && a[0] == b[0] {
      LexLeTotal(a[1..], b[1..]);
    }
  }

  lemma {:induction false} LexLeTransitive(a: string, b: string, c: string)
    requires LexLe(a, b) && LexLe(b, c)
    ensures LexLe(a, c)
    decreases |a|
  {
    if a != [] && b != [] && c != [] && a[0] == b[0] && b[0] == c[0] {
      LexLeTransitive(a[1..], b[1..], c[1..]);
    }
  }

  lemma {:induction false} LexLeAntisymmetric(a: string, b: string)
    requires LexLe(a, b) && LexLe(b, a)
    ensures a == b
    decreases |a|
  {
    if a != [] {
      LexLeAntisymmetric(a[1..], b[1..]);
      assert a == [a[0]] + a[1..];
      assert b == [b[0]] + b[1..];
    }
  }
}
