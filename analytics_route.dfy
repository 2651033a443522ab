/** The `/api/analytics` route: one row of tap and view counters per shop and
    day. `POST` gets or creates today's row and adds one to the counter its
    `type` names; `GET` reads one day, a date range, or the recent days. */
module AnalyticsRoute {
  import opened Common
  import opened Types
  import opened Ordering

  /** The four counter columns. */
  datatype Counter = ReservationTaps | LineTaps | PhoneTaps | PageViews

  /** The members every plain JavaScript object inherits from
      `Object.prototype`. Indexing `columnMap` with one of these names gives
      that member, a truthy value that is no column name. */
  predicate InheritedKey(key: string) {
    key in {"constructor", "hasOwnProperty", "isPrototypeOf", "propertyIsEnumerable", "toLocaleString",
            "toString", "valueOf", "__proto__", "__defineGetter__", "__defineSetter__", "__lookupGetter__",
            "__lookupSetter__"}
  }

  /** `columnMap[type]` for the map's own four keys: which column a request
      type increments, if any. The inherited members are `InheritedKey`. */
  function ColumnFor(tapType: string): (c: Option<Counter>)
    ensures c == Some(ReservationTaps) <==> tapType == "reservation"
    ensures c == Some(LineTaps) <==> tapType == "line"
    ensures c == Some(PhoneTaps) <==> tapType == "phone"
    ensures c == Some(PageViews) <==> tapType == "pageView"
    ensures InheritedKey(tapType) ==> c.None?
  {
    if tapType == "reservation" then Some(ReservationTaps)
    else if tapType == "line" then Some(LineTaps)
    else if tapType == "phone" then Some(PhoneTaps)
    else if tapType == "pageView" then Some(PageViews)
    else None
  }

  function CountOf(a: Analytics, c: Counter): int {
    match c
    case ReservationTaps => a.reservationTaps
    case LineTaps => a.lineTaps
    case PhoneTaps => a.phoneTaps
    case PageViews => a.pageViews
  }

  /** `SET col = col + 1` on one row. */
  function Bump(a: Analytics, c: Counter): (r: Analytics)
    ensures CountOf(r, c) == CountOf(a, c) + 1
    ensures forall d :: d != c ==> CountOf(r, d) == CountOf(a, d)
    ensures r.id == a.id && r.shopId == a.shopId && r.date == a.date && r.source == a.source
  {
    match c
    case ReservationTaps => a.(reservationTaps := a.reservationTaps + 1)
    case LineTaps => a.(lineTaps := a.lineTaps + 1)
    case PhoneTaps => a.(phoneTaps := a.phoneTaps + 1)
    case PageViews => a.(pageViews := a.pageViews + 1)
  }

  predicate IsDay(a: Analytics, shopId: string, date: string) {
    a.shopId == shopId && a.date == date
  }

  /** `SELECT * … WHERE shop_id = ? AND date = ?` with `.get()`: the first match. */
  function Find(rows: seq<Analytics>, shopId: string, date: string): (r: Option<Analytics>)
    ensures r.None? <==> forall i :: 0 <= i < |rows| ==> !IsDay(rows[i], shopId, date)
    ensures r.Some? ==> r.value in rows && IsDay(r.value, shopId, date)
    decreases |rows|
  {
    if rows == [] then None
    else if IsDay(rows[0], shopId, date) then Some(rows[0])
    else
      var r := Find(rows[1..], shopId, date);
      assert forall i :: 1 <= i < |rows| ==> rows[i] == rows[1..][i - 1];
      r
  }

  /** `UPDATE analytics SET col = col + 1 WHERE shop_id = ? AND date = ?`. */
  function BumpDay(rows: seq<Analytics>, shopId: string, date: string, c: Counter): (r: seq<Analytics>)
    ensures |r| == |rows|
    ensures forall i :: 0 <= i < |rows| ==>
      r[i] == if IsDay(rows[i], shopId, date) then Bump(rows[i], c) else rows[i]
    decreases |rows|
  {
    if rows == [] then []
    else [if IsDay(rows[0], shopId, date) then Bump(rows[0], c) else rows[0]] + BumpDay(rows[1..], shopId, date, c)
  }

  /** The row a first tap of the day inserts: all counters zero. */
  function NewRow(id: string, shopId: string, date: string, source: string): Analytics {
    Analytics(id, shopId, date, 0, 0, 0, 0, NullIfEmpty(source))
  }

  /** A counter of the day's row as `GET ?date=` reports it: 0 when there is no row. */
  function CountFor(rows: seq<Analytics>, shopId: string, date: string, c: Counter): int {
    match Find(rows, shopId, date)
    case None => 0
    case Some(a) => CountOf(a, c)
  }

  /** The table once the day row is there: as it was, or with a fresh row
      appended. */
  function WithDayRow(rows: seq<Analytics>, shopId: string, today: string, newId: string, source: string)
    : (base: seq<Analytics>)
    ensures Find(base, shopId, today).Some?
    ensures Find(rows, shopId, today).Some? ==> base == rows
    ensures Find(rows, shopId, today).None? ==> base == rows + [NewRow(newId, shopId, today, source)]
  {
    DayRowAfterInsert(rows, shopId, today, newId, source);
    if Find(rows, shopId, today).Some? then rows else rows + [NewRow(newId, shopId, today, source)]
  }

  /** `POST /api/analytics`: the table afterwards and the response. An empty
      `shopId` or `type` is rejected with 400 before anything is read; the
      insert of a new day row fails (500) when the generated id is taken.
      A `type` naming an inherited member of `columnMap` passes `if (column)`
      and puts that member into the UPDATE text, which the database refuses:
      500, with the day row already inserted. */
  function Recorded(rows: seq<Analytics>, shopId: string, tapType: string, source: string,
                    today: string, newId: string): (r: (seq<Analytics>, Response<Analytics>))
    ensures shopId == "" || tapType == "" ==> r.0 == rows && r.1.BadRequest?
    ensures r.1.Ok? <==> (shopId != "" && tapType != "" && !InheritedKey(tapType) &&
      (Find(rows, shopId, today).Some? || newId !in Ids(rows, (a: Analytics) => a.id)))
    ensures !r.1.Ok? && !(shopId != "" && InheritedKey(tapType)) ==> r.0 == rows
    ensures shopId != "" && InheritedKey(tapType) ==>
      r.1.ServerError? &&
      r.0 == (if Find(rows, shopId, today).None? && newId !in Ids(rows, (a: Analytics) => a.id)
              then rows + [NewRow(newId, shopId, today, source)] else rows)
    ensures r.1.Ok? ==> Find(r.0, shopId, today) == Some(r.1.data)
  {
    if shopId == "" || tapType == "" then (rows, BadRequest("shopId and type are required"))
    else if Find(rows, shopId, today).None? && newId in Ids(rows, (a: Analytics) => a.id) then
      (rows, ServerError("Failed to record analytics"))
    else if InheritedKey(tapType) then
      (WithDayRow(rows, shopId, today, newId, source), ServerError("Failed to record analytics"))
    else
      var base := WithDayRow(rows, shopId, today, newId, source);
      var after := match ColumnFor(tapType)
        case None => base
        case Some(c) => BumpDay(base, shopId, today, c);
      FindBumpDayOrSame(base, shopId, today, ColumnFor(tapType));
      match Find(after, shopId, today)
      case Some(a) => (after, Ok(a))
      case None => (rows, ServerError("Failed to record analytics"))
  }

  // ---------------------------------------------------------------------------
  // Facts about finding and bumping a day row

  lemma DayRowAfterInsert(rows: seq<Analytics>, shopId: string, today: string, newId: string, source: string)
    ensures Find(if Find(rows, shopId, today).Some? then rows
                 else rows + [NewRow(newId, shopId, today, source)], shopId, today).Some?
  {
    if Find(rows, shopId, today).None? {
      var base := rows + [NewRow(newId, shopId, today, source)];
      assert IsDay(base[|rows|], shopId, today);
    }
  }

  /** Bumping a day's rows bumps the row `Find` returns for that day. */
  lemma {:induction false} FindBumpDay(rows: seq<Analytics>, shopId: string, date: string, c: Counter)
    ensures Find(BumpDay(rows, shopId, date, c), shopId, date) ==
      (match Find(rows, shopId, date) case None => None case Some(a) => Some(Bump(a, c)))
    decreases |rows|
  {
    if rows != [] {
      var r := BumpDay(rows, shopId, date, c);
      assert r[1..] == BumpDay(rows[1..], shopId, date, c);
      FindBumpDay(rows[1..], shopId, date, c);
    }
  }

  lemma FindBumpDayOrSame(base: seq<Analytics>, shopId: string, date: string, col: Option<Counter>)
    requires Find(base, shopId, date).Some?
    ensures Find(match col case None => base case Some(c) => BumpDay(base, shopId, date, c), shopId, date).Some?
  {
    if col.Some? {
      FindBumpDay(base, shopId, date, col.value);
    }
  }

  /** Bumping one day leaves the row found for any other day as it was. */
  lemma {:induction false} FindBumpOtherDay(rows: seq<Analytics>, shopId: string, date: string, c: Counter,
                                            otherShop: string, otherDate: string)
    requires otherShop != shopId || otherDate != date
    ensures Find(BumpDay(rows, shopId, date, c), otherShop, otherDate) == Find(rows, otherShop, otherDate)
    decreases |rows|
  {
    if rows != [] {
      var r := BumpDay(rows, shopId, date, c);
      assert r[1..] == BumpDay(rows[1..], shopId, date, c);
      FindBumpOtherDay(rows[1..], shopId, date, c, otherShop, otherDate);
    }
  }

  /** Appending a row for one day leaves the row found for any other day as it was. */
  lemma {:induction false} FindAppendOther(rows: seq<Analytics>, row: Analytics, shopId: string, date: string)
    requires !IsDay(row, shopId, date)
    ensures Find(rows + [row], shopId, date) == Find(rows, shopId, date)
    decreases |rows|
  {
    if rows == [] {
      assert [row][1..] == [];
    } else {
      assert (rows + [row])[1..] == rows[1..] + [row];
      FindAppendOther(rows[1..], row, shopId, date);
    }
  }

  lemma FindAppendAbsent(rows: seq<Analytics>, row: Analytics, shopId: string, date: string)
    requires Find(rows, shopId, date).None? && IsDay(row, shopId, date)
    ensures Find(rows + [row], shopId, date) == Some(row)
  {
    var s := rows + [row];
    assert IsDay(s[|rows|], shopId, date);
    var f := Find(s, shopId, date);
    FindIsFirst(s, shopId, date);
    assert forall i :: 0 <= i < |rows| ==> s[i] == rows[i];
  }

  /** `k` is the index of the first row of the day. */
  predicate FirstDayRowAt(rows: seq<Analytics>, shopId: string, date: string, k: int) {
    0 <= k < |rows| && IsDay(rows[k], shopId, date) && forall i :: 0 <= i < k ==> !IsDay(rows[i], shopId, date)
  }

  /** `Find` returns the first row of the day. */
  lemma {:induction false} FindIsFirst(rows: seq<Analytics>, shopId: string, date: string)
    ensures Find(rows, shopId, date).Some? ==>
      exists k :: FirstDayRowAt(rows, shopId, date, k) && rows[k] == Find(rows, shopId, date).value
    decreases |rows|
  {
    if rows != [] && !IsDay(rows[0], shopId, date) {
      FindIsFirst(rows[1..], shopId, date);
      if Find(rows, shopId, date).Some? {
        var k :| FirstDayRowAt(rows[1..], shopId, date, k) && rows[1..][k] == Find(rows[1..], shopId, date).value;
        assert rows[k + 1] == rows[1..][k];
        forall i | 0 <= i < k + 1 ensures !IsDay(rows[i], shopId, date) {
          if i > 0 { assert rows[i] == rows[1..][i - 1]; }
        }
        assert FirstDayRowAt(rows, shopId, date, k + 1);
      }
    } else if rows != [] {
      assert rows[0] == Find(rows, shopId, date).value;
      assert FirstDayRowAt(rows, shopId, date, 0);
    }
  }

  // ---------------------------------------------------------------------------
  // Properties of a POST

  /** After a successful POST the day row exists. A new one starts at zero and
      holds only this request's increment; the source is stored as null when
      empty. */
  lemma RecordCreatesDayRow(rows: seq<Analytics>, shopId: string, tapType: string, source: string,
                            today: string, newId: string)
    requires Recorded(rows, shopId, tapType, source, today, newId).1.Ok?
    requires Find(rows, shopId, today).None?
    ensures var a := Recorded(rows, shopId, tapType, source, today, newId).1.data;
      a.id == newId && a.shopId == shopId && a.date == today && a.source == NullIfEmpty(source) &&
      forall c :: CountOf(a, c) == if ColumnFor(tapType) == Some(c) then 1 else 0
  {
    RecordedFreshRow(rows, shopId, tapType, source, today, newId);
    FreshRowCounts(NewRow(newId, shopId, today, source), ColumnFor(tapType));
  }

  /** A row with every counter at zero, bumped in the column `col` names (if
      any), holds one in that column and zero elsewhere. */
  lemma FreshRowCounts(row: Analytics, col: Option<Counter>)
    requires forall c :: CountOf(row, c) == 0
    ensures var a := match col case None => row case Some(c) => Bump(row, c);
      a.id == row.id && a.shopId == row.shopId && a.date == row.date && a.source == row.source &&
      forall c :: CountOf(a, c) == if col == Some(c) then 1 else 0
  {
  }

  /** On a day with no row yet, the answer is the fresh row, bumped when the
      type names a counter. */
  lemma RecordedFreshRow(rows: seq<Analytics>, shopId: string, tapType: string, source: string,
                         today: string, newId: string)
    requires Recorded(rows, shopId, tapType, source, today, newId).1.Ok?
    requires Find(rows, shopId, today).None?
    ensures var row := NewRow(newId, shopId, today, source);
      Recorded(rows, shopId, tapType, source, today, newId).1.data ==
        match ColumnFor(tapType) case None => row case Some(c) => Bump(row, c)
  {
    var row := NewRow(newId, shopId, today, source);
    var base := rows + [row];
    FindAppendAbsent(rows, row, shopId, today);
    var r := Recorded(rows, shopId, tapType, source, today, newId);
    match ColumnFor(tapType) {
      case None =>
        assert r.0 == base;
      case Some(c) =>
        FindBumpDay(base, shopId, today, c);
        assert r.0 == BumpDay(base, shopId, today, c);
    }
  }

  /** A known type adds exactly one to its own counter of the day and leaves
      the other three counters as they were. */
  lemma RecordBumpsOneCounter(rows: seq<Analytics>, shopId: string, tapType: string, source: string,
                              today: string, newId: string, c: Counter)
    requires Recorded(rows, shopId, tapType, source, today, newId).1.Ok?
    requires ColumnFor(tapType) == Some(c)
    ensures var after := Recorded(rows, shopId, tapType, source, today, newId).0;
      CountFor(after, shopId, today, c) == CountFor(rows, shopId, today, c) + 1 &&
      forall d :: d != c ==> CountFor(after, shopId, today, d) == CountFor(rows, shopId, today, d)
  {
    var base := if Find(rows, shopId, today).Some? then rows else rows + [NewRow(newId, shopId, today, source)];
    if Find(rows, shopId, today).None? {
      FindAppendAbsent(rows, NewRow(newId, shopId, today, source), shopId, today);
    }
    FindBumpDay(base, shopId, today, c);
  }

  /** An unknown type still creates the day row but changes no counter. */
  lemma RecordUnknownTypeCountsNothing(rows: seq<Analytics>, shopId: string, tapType: string, source: string,
                                       today: string, newId: string)
    requires Recorded(rows, shopId, tapType, source, today, newId).1.Ok?
    requires ColumnFor(tapType).None?
    ensures var after := Recorded(rows, shopId, tapType, source, today, newId).0;
      Find(after, shopId, today).Some? &&
      forall c :: CountFor(after, shopId, today, c) == CountFor(rows, shopId, today, c)
  {
    if Find(rows, shopId, today).None? {
      FindAppendAbsent(rows, NewRow(newId, shopId, today, source), shopId, today);
    }
  }

  /** A POST never touches what another shop or another day reports. */
  lemma RecordLeavesOtherDays(rows: seq<Analytics>, shopId: string, tapType: string, source: string,
                              today: string, newId: string, otherShop: string, otherDate: string)
    requires otherShop != shopId || otherDate != today
    ensures Find(Recorded(rows, shopId, tapType, source, today, newId).0, otherShop, otherDate) ==
      Find(rows, otherShop, otherDate)
  {
    var r := Recorded(rows, shopId, tapType, source, today, newId);
    if shopId != "" && tapType != "" && (Find(rows, shopId, today).Some? || newId !in Ids(rows, (a: Analytics) => a.id)) {
      var base := WithDayRow(rows, shopId, today, newId, source);
      if Find(rows, shopId, today).None? {
        FindAppendOther(rows, NewRow(newId, shopId, today, source), otherShop, otherDate);
      }
      assert Find(base, otherShop, otherDate) == Find(rows, otherShop, otherDate);
      if !InheritedKey(tapType) && ColumnFor(tapType).Some? {
        FindBumpOtherDay(base, shopId, today, ColumnFor(tapType).value, otherShop, otherDate);
        assert r.0 == BumpDay(base, shopId, today, ColumnFor(tapType).value);
      } else {
        assert r.0 == base;
      }
    }
  }

  /** Counters never decrease, whatever is posted. */
  lemma RecordIsMonotone(rows: seq<Analytics>, shopId: string, tapType: string, source: string,
                         today: string, newId: string, s: string, d: string, c: Counter)
    ensures CountFor(Recorded(rows, shopId, tapType, source, today, newId).0, s, d, c) >= CountFor(rows, s, d, c)
  {
    var r := Recorded(rows, shopId, tapType, source, today, newId);
    if s != shopId || d != today {
      RecordLeavesOtherDays(rows, shopId, tapType, source, today, newId, s, d);
    } else if r.1.Ok? {
      if Find(rows, shopId, today).None? {
        RecordCreatesDayRow(rows, shopId, tapType, source, today, newId);
      } else if ColumnFor(tapType).Some? {
        RecordBumpsOneCounter(rows, shopId, tapType, source, today, newId, ColumnFor(tapType).value);
      } else {
        RecordUnknownTypeCountsNothing(rows, shopId, tapType, source, today, newId);
      }
    } else if shopId != "" && InheritedKey(tapType) && Find(rows, shopId, today).None? {
      if newId !in Ids(rows, (a: Analytics) => a.id) {
        FindAppendAbsent(rows, NewRow(newId, shopId, today, source), shopId, today);
      }
    }
  }

  /** A type naming an inherited member of `columnMap` answers 500, yet a
      first request of the day has already inserted the day row, with every
      counter at zero. */
  lemma RecordInheritedKeyKeepsInsert(rows: seq<Analytics>, shopId: string, tapType: string, source: string,
                                      today: string, newId: string)
    requires shopId != "" && InheritedKey(tapType)
    requires Find(rows, shopId, today).None? && newId !in Ids(rows, (a: Analytics) => a.id)
    ensures var r := Recorded(rows, shopId, tapType, source, today, newId);
      r.1.Status() == 500 && Find(r.0, shopId, today) == Some(NewRow(newId, shopId, today, source)) &&
      forall c :: CountFor(r.0, shopId, today, c) == 0
  {
    FindAppendAbsent(rows, NewRow(newId, shopId, today, source), shopId, today);
  }

  /** The table after one POST per id in `ids`, all of one type on one day. */
  function RecordedMany(rows: seq<Analytics>, shopId: string, tapType: string, source: string,
                        today: string, ids: seq<string>): seq<Analytics>
    decreases |ids|
  {
    if ids == [] then rows
    else RecordedMany(Recorded(rows, shopId, tapType, source, today, ids[0]).0, shopId, tapType, source, today, ids[1..])
  }

  /** Recording is not idempotent: n POSTs of a known type raise its counter
      by n. Only the first may need a fresh id, because it creates the row. */
  lemma {:induction false} RecordManyAddsN(rows: seq<Analytics>, shopId: string, tapType: string, source: string,
                                           today: string, ids: seq<string>, c: Counter)
    requires shopId != "" && ColumnFor(tapType) == Some(c)
    requires Find(rows, shopId, today).Some? || (ids != [] && ids[0] !in Ids(rows, (a: Analytics) => a.id))
    ensures CountFor(RecordedMany(rows, shopId, tapType, source, today, ids), shopId, today, c) ==
      CountFor(rows, shopId, today, c) + |ids|
    decreases |ids|
  {
    if ids != [] {
      var next := Recorded(rows, shopId, tapType, source, today, ids[0]);
      RecordBumpsOneCounter(rows, shopId, tapType, source, today, ids[0], c);
      RecordManyAddsN(next.0, shopId, tapType, source, today, ids[1..], c);
    }
  }

  // ---------------------------------------------------------------------------
  // GET

  datatype AnalyticsView = Day(record: Analytics) | Days(records: seq<Analytics>)

  /** `ORDER BY date DESC`. */
  predicate NewestFirst(a: Analytics, b: Analytics) {
    LexLe(b.date, a.date)
  }

  lemma NewestFirstTotal()
    ensures Total(NewestFirst)
  {
    forall a: Analytics, b: Analytics ensures NewestFirst(a, b) || NewestFirst(b, a) {
      LexLeTotal(a.date, b.date);
    }
  }

  /** The shop's rows whose date passes `keep`, newest first. */
  function DaysWhere(rows: seq<Analytics>, shopId: string, keep: string -> bool): (r: seq<Analytics>)
    ensures forall a :: a in r <==> a in rows && a.shopId == shopId && keep(a.date)
    ensures forall a :: multiset(r)[a] == if a.shopId == shopId && keep(a.date) then multiset(rows)[a] else 0
    ensures SortedBy(r, NewestFirst)
  {
    NewestFirstTotal();
    SortedWhere(rows, (a: Analytics) => a.shopId == shopId && keep(a.date), NewestFirst)
  }

  /** `GET /api/analytics`. An empty `shopId` is 400. A `date` selects that
      day's row, or an all-zero record when there is none (nothing is
      inserted). Otherwise `startDate` and `endDate` select an inclusive date
      range, and without them the rows since `since` (the server's date seven
      days back) are returned. Dates compare as text. */
  function Get(rows: seq<Analytics>, shopId: string, date: string, startDate: string, endDate: string,
               since: string): (r: Response<AnalyticsView>)
    ensures r.BadRequest? <==> shopId == ""
    ensures shopId != "" && date != "" ==> r == Ok(Day(
      match Find(rows, shopId, date)
      case Some(a) => a
      case None => Analytics("", shopId, date, 0, 0, 0, 0, None)))
    ensures shopId != "" && date == "" && startDate != "" && endDate != "" ==>
      r.Ok? && r.data.Days? && SortedBy(r.data.records, NewestFirst) &&
      (forall a :: a in r.data.records <==>
        a in rows && a.shopId == shopId && LexLe(startDate, a.date) && LexLe(a.date, endDate)) &&
      forall a :: multiset(r.data.records)[a] ==
        if a.shopId == shopId && LexLe(startDate, a.date) && LexLe(a.date, endDate) then multiset(rows)[a] else 0
    ensures shopId != "" && date == "" && (startDate == "" || endDate == "") ==>
      r.Ok? && r.data.Days? && SortedBy(r.data.records, NewestFirst) &&
      (forall a :: a in r.data.records <==> a in rows && a.shopId == shopId && LexLe(since, a.date)) &&
      forall a :: multiset(r.data.records)[a] == if a.shopId == shopId && LexLe(since, a.date) then multiset(rows)[a] else 0
  {
    if shopId == "" then BadRequest("shopId is required")
    else if date != "" then
      Ok(Day(match Find(rows, shopId, date)
        case Some(a) => a
        case None => Analytics("", shopId, date, 0, 0, 0, 0, None)))
    else if startDate != "" && endDate != "" then
      Ok(Days(DaysWhere(rows, shopId, d => LexLe(startDate, d) && LexLe(d, endDate))))
    else
      Ok(Days(DaysWhere(rows, shopId, d => LexLe(since, d))))
  }

  /** `new Date().toISOString().split('T')[0]`: the calendar date of an ISO
      timestamp. */
  function DatePart(iso: string): string {
    Split(iso, 'T')[0]
  }

  lemma DatePartOfTimestamp(day: string, time: string)
    requires 'T' !in day
    ensures DatePart(day + "T" + time) == day
  {
    assert day + "T" + time == day + ['T'] + time;
    SplitPrefix(day, time, 'T');
  }

  // ---------------------------------------------------------------------------
  // The table

  class AnalyticsTable {
    var rows: seq<Analytics>

    constructor(initial: seq<Analytics>)
      ensures rows == initial
    {
      rows := initial;
    }

    /** `POST /api/analytics` with the request's `shopId`, `type` and
        `source`, the server's current UTC date and a generated id. */
    method Post(shopId: string, tapType: string, source: string, today: string, newId: string)
      returns (resp: Response<Analytics>)
      modifies this
      ensures (rows, resp) == Recorded(old(rows), shopId, tapType, source, today, newId)
    {
      if shopId == "" || tapType == "" {
        return BadRequest("shopId and type are required");
      }
      var existing := Find(rows, shopId, today);
      if existing.None? {
        if newId in Ids(rows, (a: Analytics) => a.id) {
          return ServerError("Failed to record analytics");
        }
        rows := rows + [NewRow(newId, shopId, today, source)];
      }
      if InheritedKey(tapType) {
        return ServerError("Failed to record analytics");
      }
      var column := ColumnFor(tapType);
      if column.Some? {
        rows := BumpDay(rows, shopId, today, column.value);
      }
      var updated := Find(rows, shopId, today);
      assert updated.Some? by {
        DayRowAfterInsert(old(rows), shopId, today, newId, source);
        FindBumpDayOrSame(if existing.Some? then old(rows) else old(rows) + [NewRow(newId, shopId, today, source)],
          shopId, today, column);
      }
      resp := Ok(updated.value);
    }

    function View(shopId: string, date: string, startDate: string, endDate: string, since: string): Response<AnalyticsView>
      reads this
    {
      Get(rows, shopId, date, startDate, endDate, since)
    }
  }
}
