/** Small value types and list helpers shared by the route handlers and the
    editor pages: the JavaScript list idioms (`filter`, `map`, `splice`,
    toggle-membership), `String.prototype.split`, `trim` and `startsWith`. */
module Common {

  datatype Option<+T> = None | Some(value: T) {
    function GetOr(default: T): T {
      match this
      case Some(v) => v
      case None => default
    }
  }

  /** What a route handler answers: `{ success: true, data }` with status 200,
      or `{ success: false, error }` with status 400 or 500. */
  datatype Response<+T> = Ok(data: T) | BadRequest(message: string) | ServerError(message: string) {
    function Status(): (code: int)
      ensures code == 200 <==> Ok?
      ensures code == 400 <==> BadRequest?
    {
      match this
      case Ok(_) => 200
      case BadRequest(_) => 400
      case ServerError(_) => 500
    }

    /** The same outcome with the data transformed. */
    function Map<U>(f: T -> U): (r: Response<U>)
      ensures r.Ok? <==> Ok?
      ensures r.Status() == Status()
      ensures Ok? ==> r.data == f(data)
    {
      match this
      case Ok(d) => Ok(f(d))
      case BadRequest(m) => BadRequest(m)
      case ServerError(m) => ServerError(m)
    }
  }

  /** JavaScript `s || null` for a string value: the empty string is falsy. */
  function NullIfEmpty(s: string): Option<string> {
    if s == "" then None else Some(s)
  }

  /** JavaScript `n || null` for an optional number: zero and absent both store NULL. */
  function NullIfZero(d: Option<int>): (r: Option<int>)
    ensures r.Some? <==> d.Some? && d.value != 0
    ensures r.Some? ==> r == d
  {
    if d.Some? && d.value != 0 then d else None
  }

  /** JavaScript `s || d` for a string value. */
  function OrDefault(s: string, d: string): string {
    if s == "" then d else s
  }

  /** Truthiness of an optional string column: present and non-empty. */
  predicate Present(o: Option<string>) {
    o.Some? && o.value != ""
  }

  // ---------------------------------------------------------------------------
  // Array.prototype.filter

  function Filter<T(!new)>(s: seq<T>, keep: T -> bool): (r: seq<T>)
    ensures |r| <= |s|
    ensures forall x :: x in r <==> x in s && keep(x)
    decreases |s|
  {
    if s == [] then []
    else (if keep(s[0]) then [s[0]] else []) + Filter(s[1..], keep)
  }

  /** Filtering keeps exactly the kept elements, with their multiplicities. */
  lemma {:induction false} FilterCount<T(!new)>(s: seq<T>, keep: T -> bool, x: T)
    ensures multiset(Filter(s, keep))[x] == if keep(x) then multiset(s)[x] else 0
    decreases |s|
  {
    if s != [] {
      FilterCount(s[1..], keep, x);
      assert s == [s[0]] + s[1..];
    }
  }

  lemma FilterCounts<T(!new)>(s: seq<T>, keep: T -> bool)
    ensures forall x :: multiset(Filter(s, keep))[x] == if keep(x) then multiset(s)[x] else 0
  {
    forall x ensures multiset(Filter(s, keep))[x] == if keep(x) then multiset(s)[x] else 0 {
      FilterCount(s, keep, x);
    }
  }

  /** Every element stands in relation `before` to every later one. */
  ghost predicate InOrder<T>(s: seq<T>, before: (T, T) -> bool) {
    forall i, j :: 0 <= i < j < |s| ==> before(s[i], s[j])
  }

  /** Filtering keeps the relative order of what it keeps. */
  lemma {:induction false} FilterKeepsOrder<T(!new)>(s: seq<T>, keep: T -> bool, before: (T, T) -> bool)
    requires InOrder(s, before)
    ensures InOrder(Filter(s, keep), before)
    decreases |s|
  {
    if s != [] {
      var head, tail := if keep(s[0]) then [s[0]] else [], Filter(s[1..], keep);
      forall i, j | 0 <= i < j < |s[1..]| ensures before(s[1..][i], s[1..][j]) {
        assert s[1..][i] == s[i + 1] && s[1..][j] == s[j + 1];
      }
      FilterKeepsOrder(s[1..], keep, before);
      var r := Filter(s, keep);
      forall i, j | 0 <= i < j < |r| ensures before(r[i], r[j]) {
        if i < |head| {
          assert r[j] == tail[j - |head|] && tail[j - |head|] in tail;
          var k :| 0 <= k < |s[1..]| && s[1..][k] == r[j];
          assert before(s[0], s[k + 1]);
        } else {
          assert r[i] == tail[i - |head|] && r[j] == tail[j - |head|];
        }
      }
    }
  }

  lemma FilterKeepsOrders<T(!new)>(s: seq<T>, keep: T -> bool)
    ensures forall before :: InOrder(s, before) ==> InOrder(Filter(s, keep), before)
  {
    forall before | InOrder(s, before) ensures InOrder(Filter(s, keep), before) {
      FilterKeepsOrder(s, keep, before);
    }
  }

  lemma AppendAssoc<T>(a: seq<T>, b: seq<T>, c: seq<T>)
    ensures a + (b + c) == (a + b) + c
  {
  }

  /** One step of `Filter` on a non-empty sequence. */
  lemma FilterStep<T(!new)>(s: seq<T>, keep: T -> bool)
    requires s != []
    ensures Filter(s, keep) == (if keep(s[0]) then [s[0]] else []) + Filter(s[1..], keep)
  {
  }

  /** Filtering distributes over concatenation, so it keeps relative order. */
  lemma {:induction false} FilterAppend<T(!new)>(a: seq<T>, b: seq<T>, keep: T -> bool)
    ensures Filter(a + b, keep) == Filter(a, keep) + Filter(b, keep)
    decreases |a|
  {
    if a != [] {
      var ab := a + b;
      var head := if keep(a[0]) then [a[0]] else [];
      assert ab[0] == a[0] && ab[1..] == a[1..] + b;
      FilterStep(ab, keep);
      FilterStep(a, keep);
      FilterAppend(a[1..], b, keep);
      AppendAssoc(head, Filter(a[1..], keep), Filter(b, keep));
    } else {
      assert a + b == b;
    }
  }

  /** A filter that rejects nothing is the identity. */
  lemma {:induction false} FilterKeepsAll<T(!new)>(s: seq<T>, keep: T -> bool)
    requires forall i :: 0 <= i < |s| ==> keep(s[i])
    ensures Filter(s, keep) == s
    decreases |s|
  {
    if s != [] {
      FilterKeepsAll(s[1..], keep);
    }
  }

  /** A filter that keeps nothing yields nothing. */
  lemma {:induction false} FilterKeepsNone<T(!new)>(s: seq<T>, keep: T -> bool)
    requires forall i :: 0 <= i < |s| ==> !keep(s[i])
    ensures Filter(s, keep) == []
    decreases |s|
  {
    if s != [] {
      FilterKeepsNone(s[1..], keep);
    }
  }

  predicate NoDup<T(==)>(s: seq<T>) {
    forall i, j :: 0 <= i < j < |s| ==> s[i] != s[j]
  }

  lemma {:induction false} FilterNoDup<T(!new)>(s: seq<T>, keep: T -> bool)
    requires NoDup(s)
    ensures NoDup(Filter(s, keep))
    decreases |s|
  {
    if s != [] {
      FilterNoDup(s[1..], keep);
      var rest := Filter(s[1..], keep);
      assert s[0] !in s[1..] by {
        forall k | 0 <= k < |s[1..]| ensures s[1..][k] != s[0] {
          assert s[1..][k] == s[k + 1];
        }
      }
      assert s[0] !in rest;
    }
  }

  /** The elements of `s` whose `key` differs from `k`: `list.filter(x => x.id !== id)`. */
  function WithoutKey<T(!new)>(s: seq<T>, key: T -> string, k: string): (r: seq<T>)
    ensures forall x :: x in r <==> x in s && key(x) != k
    ensures forall x :: x in r ==> key(x) != k
  {
    Filter(s, x => key(x) != k)
  }

  // ---------------------------------------------------------------------------
  // Array.prototype.map: one column of a table

  /** `rows.map(column)`: one value per row, in row order. */
  function Column<T, U>(rows: seq<T>, column: T -> U): (r: seq<U>)
    ensures |r| == |rows|
    ensures forall i :: 0 <= i < |rows| ==> r[i] == column(rows[i])
  {
    seq(|rows|, i requires 0 <= i < |rows| => column(rows[i]))
  }

  // Array.prototype.map with a conditional replacement

  /** `list.map(x => hit(x) ? f(x) : x)`. */
  function MapWhere<T>(s: seq<T>, hit: T -> bool, f: T -> T): (r: seq<T>)
    ensures |r| == |s|
    ensures forall i :: 0 <= i < |s| ==> r[i] == if hit(s[i]) then f(s[i]) else s[i]
    decreases |s|
  {
    if s == [] then []
    else [if hit(s[0]) then f(s[0]) else s[0]] + MapWhere(s[1..], hit, f)
  }

  /** `list.map(x => key(x) === k ? v : x)`: replace by id. */
  function ReplaceByKey<T>(s: seq<T>, key: T -> string, k: string, v: T): (r: seq<T>)
    ensures |r| == |s|
    ensures forall i :: 0 <= i < |s| && key(s[i]) == k ==> r[i] == v
    ensures forall i :: 0 <= i < |s| && key(s[i]) != k ==> r[i] == s[i]
  {
    MapWhere(s, x => key(x) == k, _ => v)
  }

  // ---------------------------------------------------------------------------
  // Removal by index: `list.filter((_, i) => i !== index)` and `list.splice(idx, 1)`

  /** Removes the element at `i`; an index past the end removes nothing. */
  function RemoveAt<T>(s: seq<T>, i: nat): (r: seq<T>)
    ensures i < |s| ==> |r| == |s| - 1
    ensures i >= |s| ==> r == s
    ensures forall j :: 0 <= j < i && j < |r| ==> r[j] == s[j]
    ensures forall j :: i <= j < |r| ==> r[j] == s[j + 1]
  {
    if i < |s| then s[..i] + s[i + 1..] else s
  }

  /** Removing an index leaves the multiset minus exactly that element. */
  lemma RemoveAtMultiset<T>(s: seq<T>, i: nat)
    requires i < |s|
    ensures multiset(RemoveAt(s, i)) == multiset(s) - multiset{s[i]}
  {
    assert s == s[..i] + [s[i]] + s[i + 1..];
  }

  // ---------------------------------------------------------------------------
  // Toggle-membership: `prev.includes(x) ? prev.filter(y => y !== x) : [...prev, x]`

  function ToggleMember<T(==,!new)>(s: seq<T>, x: T): (r: seq<T>)
    ensures x in r <==> x !in s
    ensures forall y :: y != x ==> (y in r <==> y in s)
    ensures x !in s ==> r == s + [x]
  {
    if x in s then Filter(s, y => y != x) else s + [x]
  }

  /** Toggling never creates a duplicate. */
  lemma ToggleKeepsNoDup<T(!new)>(s: seq<T>, x: T)
    requires NoDup(s)
    ensures NoDup(ToggleMember(s, x))
  {
    if x in s {
      FilterNoDup(s, y => y != x);
    } else {
      var r := s + [x];
      forall i, j | 0 <= i < j < |r| ensures r[i] != r[j] {
        if j == |s| { assert r[i] == s[i]; }
      }
    }
  }

  /** Toggling twice gives the same members; when `x` was absent it gives
      back the very same list. */
  lemma ToggleTwice<T(!new)>(s: seq<T>, x: T)
    ensures forall y :: y in ToggleMember(ToggleMember(s, x), x) <==> y in s
    ensures x !in s ==> ToggleMember(ToggleMember(s, x), x) == s
  {
    if x !in s {
      var t := s + [x];
      FilterAppend(s, [x], y => y != x);
      FilterKeepsAll(s, y => y != x);
      assert Filter([x], y => y != x) == [];
    }
  }

  /** When `x` was present, toggling twice moves it to the end: the order is
      not restored. */
  lemma ToggleTwiceMovesToEnd()
    ensures ToggleMember(ToggleMember(["a", "b"], "a"), "a") == ["b", "a"]
  {
    var s: seq<string> := ["a", "b"];
    assert "a" in s;
    assert Filter(s, y => y != "a") == ["b"] by {
      assert s[1..] == ["b"];
      assert Filter(["b"], y => y != "a") == ["b"] by { FilterKeepsAll(["b"], y => y != "a"); }
    }
  }

  // ---------------------------------------------------------------------------
  // Single-choice toggle: `setX(x === v ? null : v)`

  function ToggleChoice<T(==)>(cur: Option<T>, v: T): (r: Option<T>)
    ensures r == Some(v) <==> cur != Some(v)
    ensures r == None || r == Some(v)
  {
    if cur == Some(v) then None else Some(v)
  }

  // ---------------------------------------------------------------------------
  // String helpers

  predicate StartsWith(s: string, prefix: string) {
    |prefix| <= |s| && s[..|prefix|] == prefix
  }

  /** `s.slice(0, n)`. */
  function Take<T>(s: seq<T>, n: nat): (r: seq<T>)
    ensures |r| == if n < |s| then n else |s|
    ensures r == s[..|r|]
  {
    if n < |s| then s[..n] else s
  }

  /** `s.split(sep)` for a one-character separator: always at least one piece,
      and no piece contains the separator. */
  function Split(s: string, sep: char): (r: seq<string>)
    ensures |r| >= 1
    ensures |r| == 1 <==> sep !in s
    ensures forall p :: p in r ==> sep !in p
    decreases |s|
  {
    if s == [] then [""]
    else if s[0] == sep then [""] + Split(s[1..], sep)
    else
      var rest := Split(s[1..], sep);
      [[s[0]] + rest[0]] + rest[1..]
  }

  /** `pieces.join(sep)`. */
  function Join(pieces: seq<string>, sep: char): string
    decreases |pieces|
  {
    if pieces == [] then ""
    else if |pieces| == 1 then pieces[0]
    else pieces[0] + [sep] + Join(pieces[1..], sep)
  }

  /** One step of `Split` on a string that starts with the separator. */
  lemma SplitAtSep(s: string, sep: char)
    requires s != [] && s[0] == sep
    ensures Split(s, sep) == [""] + Split(s[1..], sep)
  {
  }

  /** One step of `Split` on a string that starts with another character:
      the character joins the first piece of the rest. */
  lemma SplitAtOther(s: string, sep: char)
    requires s != [] && s[0] != sep
    ensures var rest := Split(s[1..], sep); Split(s, sep) == [[s[0]] + rest[0]] + rest[1..]
  {
  }

  /** Putting a character in front of the first piece puts it in front of
      the join. */
  lemma JoinPrependChar(c: char, pieces: seq<string>, sep: char)
    requires |pieces| >= 1
    ensures Join([[c] + pieces[0]] + pieces[1..], sep) == [c] + Join(pieces, sep)
  {
    var r := [[c] + pieces[0]] + pieces[1..];
    if |pieces| > 1 {
      assert r[1..] == pieces[1..];
    }
  }

  /** An empty first piece contributes only its separator. */
  lemma JoinAfterEmpty(pieces: seq<string>, sep: char)
    requires |pieces| >= 1
    ensures Join([""] + pieces, sep) == [sep] + Join(pieces, sep)
  {
    var r := [""] + pieces;
    assert r[1..] == pieces;
    assert Join(r, sep) == r[0] + [sep] + Join(r[1..], sep);
  }

  /** The inductive step of `JoinSplit` for a leading separator. */
  lemma JoinSplitAtSep(s: string, sep: char)
    requires s != [] && s[0] == sep
    requires Join(Split(s[1..], sep), sep) == s[1..]
    ensures Join(Split(s, sep), sep) == s
  {
    var rest := Split(s[1..], sep);
    SplitAtSep(s, sep);
    JoinAfterEmpty(rest, sep);
    assert [s[0]] + s[1..] == s;
  }

  /** The inductive step of `JoinSplit` for a leading non-separator. */
  lemma JoinSplitAtOther(s: string, sep: char)
    requires s != [] && s[0] != sep
    requires Join(Split(s[1..], sep), sep) == s[1..]
    ensures Join(Split(s, sep), sep) == s
  {
    SplitAtOther(s, sep);
    JoinPrependChar(s[0], Split(s[1..], sep), sep);
    assert [s[0]] + s[1..] == s;
  }

  /** Joining the pieces of a split gives the original string back. */
  lemma {:induction false} JoinSplit(s: string, sep: char)
    ensures Join(Split(s, sep), sep) == s
    decreases |s|
  {
    if s != [] {
      JoinSplit(s[1..], sep);
      if s[0] == sep {
        JoinSplitAtSep(s, sep);
      } else {
        JoinSplitAtOther(s, sep);
      }
    }
  }

  /** Splitting a join of separator-free pieces gives the pieces back. */
  lemma {:induction false} SplitJoin(pieces: seq<string>, sep: char)
    requires |pieces| >= 1
    requires forall i :: 0 <= i < |pieces| ==> sep !in pieces[i]
    ensures Split(Join(pieces, sep), sep) == pieces
    decreases |pieces|
  {
    if |pieces| == 1 {
      SplitNoSep(pieces[0], sep);
    } else {
      SplitJoin(pieces[1..], sep);
      SplitPrefix(pieces[0], Join(pieces[1..], sep), sep);
      assert [pieces[0]] + pieces[1..] == pieces;
    }
  }

  /** A separator-free string splits into itself. */
  lemma {:induction false} SplitNoSep(s: string, sep: char)
    requires sep !in s
    ensures Split(s, sep) == [s]
    decreases |s|
  {
    if s != [] {
      assert sep !in s[1..] by {
        forall k | 0 <= k < |s[1..]| ensures s[1..][k] != sep { assert s[1..][k] == s[k + 1]; }
      }
      SplitNoSep(s[1..], sep);
      assert [s[0]] + s[1..] == s;
    }
  }

  /** Splitting `a + sep + b` with a separator-free `a` yields `a` first, then the pieces of `b`. */
  lemma {:induction false} SplitPrefix(a: string, b: string, sep: char)
    requires sep !in a
    ensures Split(a + [sep] + b, sep) == [a] + Split(b, sep)
    decreases |a|
  {
    var t := a + [sep] + b;
    if a == [] {
      assert t == [sep] + b && t[1..] == b;
      SplitAtSep(t, sep);
    } else {
      assert t[1..] == a[1..] + [sep] + b;
      assert sep !in a[1..] by {
        forall k | 0 <= k < |a[1..]| ensures a[1..][k] != sep { assert a[1..][k] == a[k + 1]; }
      }
      SplitPrefix(a[1..], b, sep);
      var rest := Split(t[1..], sep);
      assert rest == [a[1..]] + Split(b, sep);
      SplitAtOther(t, sep);
      assert rest[0] == a[1..] && rest[1..] == Split(b, sep);
      assert [t[0]] + a[1..] == a;
    }
  }

  /** Splitting `a + sep + b` with a separator-free `b` yields `b` last. */
  lemma {:induction false} SplitLastPiece(a: string, b: string, sep: char)
    requires sep !in b
    ensures var r := Split(a + [sep] + b, sep); r[|r| - 1] == b
    decreases |a|
  {
    if a == [] {
      assert a + [sep] + b == [sep] + b;
      assert ([sep] + b)[1..] == b;
      SplitNoSep(b, sep);
    } else {
      var t := a + [sep] + b;
      assert t[1..] == a[1..] + [sep] + b;
      SplitLastPiece(a[1..], b, sep);
    }
  }

  /** The whitespace that `String.prototype.trim` removes (ECMAScript
      WhiteSpace and LineTerminator). */
  predicate IsJsWhitespace(c: char) {
    c == ' ' || c == '\t' || c == '\n' || c == '\r' || c == '\U{000B}' || c == '\U{000C}'
    || c == '\U{00A0}' || c == '\U{1680}' || ('\U{2000}' <= c <= '\U{200A}')
    || c == '\U{2028}' || c == '\U{2029}' || c == '\U{202F}' || c == '\U{205F}'
    || c == '\U{3000}' || c == '\U{FEFF}'
  }

  function TrimStart(s: string): (r: string)
    ensures |r| <= |s| && r == s[|s| - |r|..]
    ensures forall k :: 0 <= k < |s| - |r| ==> IsJsWhitespace(s[k])
    ensures r == [] || !IsJsWhitespace(r[0])
    decreases |s|
  {
    if s != [] && IsJsWhitespace(s[0]) then TrimStart(s[1..]) else s
  }

  function TrimEnd(s: string): (r: string)
    ensures |r| <= |s| && r == s[..|r|]
    ensures forall k :: |r| <= k < |s| ==> IsJsWhitespace(s[k])
    ensures r == [] || !IsJsWhitespace(r[|r| - 1])
    decreases |s|
  {
    if s != [] && IsJsWhitespace(s[|s| - 1]) then TrimEnd(s[..|s| - 1]) else s
  }

  /** `s.trim()`. */
  function Trim(s: string): (r: string) {
    TrimEnd(TrimStart(s))
  }

  /** Trimming gives the empty string exactly when every character is whitespace. */
  lemma TrimEmptyIffBlank(s: string)
    ensures Trim(s) == "" <==> forall k :: 0 <= k < |s| ==> IsJsWhitespace(s[k])
  {
    var a := TrimStart(s);
    if Trim(s) == "" {
      assert a == [];
    }
  }

  /** A string without whitespace at either end trims to itself. */
  lemma TrimIdentity(s: string)
    requires s == [] || (!IsJsWhitespace(s[0]) && !IsJsWhitespace(s[|s| - 1]))
    ensures Trim(s) == s
  {
  }
}
