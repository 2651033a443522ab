/** The entities the shop microsite stores and shows. Text columns that the
    code writes as `x || null` are `Option<string>`; those it writes as
    `x || ''` are plain strings where "" stands for "nothing stored".
    Timestamps are integers supplied by the caller. */
module Types {
  import opened Common

  /** The three footer call-to-action buttons. */
  datatype CtaKind = Reservation | Line | Phone

  /** The name a kind carries in settings and in analytics requests. */
  function CtaName(k: CtaKind): (name: string)
    ensures name in {"reservation", "line", "phone"}
  {
    match k
    case Reservation => "reservation"
    case Line => "line"
    case Phone => "phone"
  }

  datatype CtaSettings = CtaSettings(showReservation: bool, showLine: bool, showPhone: bool, order: seq<CtaKind>)

  /** The `cta_settings` column default: everything shown, reservation first. */
  const DefaultCtaSettings := CtaSettings(true, true, true, [Reservation, Line, Phone])

  /** The object `{}`: every flag is undefined, hence falsy. */
  const EmptyCtaSettings := CtaSettings(false, false, false, [])

  datatype BusinessHour = BusinessHour(dayOfWeek: int, isOpen: bool, openTime: string, closeTime: string)

  datatype Shop = Shop(
    id: string,
    name: string,
    businessType: string,
    phone: string,
    address: string,
    businessHours: seq<BusinessHour>,
    regularHolidays: seq<string>,
    brandColor: string,
    subdomain: string,
    reservationUrl: Option<string>,
    lineUrl: Option<string>,
    googleMapUrl: Option<string>,
    todayAvailable: bool,
    ctaSettings: Option<CtaSettings>,
    createdAt: int)

  datatype Post = Post(
    id: string,
    shopId: string,
    postType: string,
    title: string,
    content: string,
    images: seq<string>,
    tags: seq<string>,
    duration: Option<int>,
    priceRange: Option<int>,
    staffId: Option<string>,
    status: string,
    newsType: Option<string>,
    displayStart: Option<string>,
    displayEnd: Option<string>,
    createdAt: int)

  datatype Category = Category(id: string, shopId: string, name: string, displayOrder: int)

  datatype Menu = Menu(
    id: string,
    shopId: string,
    categoryId: string,
    name: string,
    price: int,
    duration: Option<int>,
    description: Option<string>,
    displayOrder: int)

  datatype Staff = Staff(
    id: string,
    shopId: string,
    name: string,
    role: Option<string>,
    image: Option<string>,
    description: Option<string>,
    displayOrder: int)

  datatype Faq = Faq(id: string, shopId: string, question: string, answer: string, displayOrder: int)

  datatype Analytics = Analytics(
    id: string,
    shopId: string,
    date: string,
    reservationTaps: int,
    lineTaps: int,
    phoneTaps: int,
    pageViews: int,
    source: Option<string>)

  /** No two rows share an id (the tables' PRIMARY KEY). */
  predicate UniqueIds<T>(rows: seq<T>, id: T -> string) {
    forall i, j :: 0 <= i < j < |rows| ==> id(rows[i]) != id(rows[j])
  }

  /** The ids present in a table. */
  function Ids<T>(rows: seq<T>, id: T -> string): seq<string> {
    Column(rows, id)
  }

  /** `SELECT * FROM t WHERE id = ?` with `.get()`: the first row with that id. */
  function FindBy<T>(rows: seq<T>, id: T -> string, k: string): (r: Option<T>)
    ensures r.None? <==> k !in Ids(rows, id)
    ensures r.Some? ==> r.value in rows && id(r.value) == k
    decreases |rows|
  {
    if rows == [] then None
    else if id(rows[0]) == k then Some(rows[0])
    else
      var r := FindBy(rows[1..], id, k);
      assert Ids(rows, id) == [id(rows[0])] + Ids(rows[1..], id);
      r
  }

  /** With unique ids, the row found for an id is the one at its index. */
  lemma FindByUnique<T>(rows: seq<T>, id: T -> string, i: int)
    requires UniqueIds(rows, id) && 0 <= i < |rows|
    ensures FindBy(rows, id, id(rows[i])) == Some(rows[i])
  {
    var r := FindBy(rows, id, id(rows[i]));
    var j :| 0 <= j < |rows| && rows[j] == r.value;
  }

  /** Keeping some rows of a table keeps its ids unique. */
  lemma {:induction false} FilterUniqueIds<T(!new)>(rows: seq<T>, keep: T -> bool, id: T -> string)
    requires UniqueIds(rows, id)
    ensures UniqueIds(Filter(rows, keep), id)
    decreases |rows|
  {
    if rows != [] {
      FilterUniqueIds(rows[1..], keep, id);
      var rest := Filter(rows[1..], keep);
      forall x | x in rest ensures id(x) != id(rows[0]) {
        var k :| 0 <= k < |rows[1..]| && rows[1..][k] == x;
        assert rows[k + 1] == x;
      }
      var r := Filter(rows, keep);
      if keep(rows[0]) {
        assert r == [rows[0]] + rest;
        forall i, j | 0 <= i < j < |r| ensures id(r[i]) != id(r[j]) {
          assert r[j] == rest[j - 1];
          if i > 0 {
            assert r[i] == rest[i - 1];
          }
        }
      }
    }
  }

  /** Appending a row with a fresh id keeps ids unique. */
  lemma AppendUniqueIds<T>(rows: seq<T>, row: T, id: T -> string)
    requires UniqueIds(rows, id)
    requires id(row) !in Ids(rows, id)
    ensures UniqueIds(rows + [row], id)
  {
    var r := rows + [row];
    forall i, j | 0 <= i < j < |r| ensures id(r[i]) != id(r[j]) {
      if j == |rows| {
        assert Ids(rows, id)[i] == id(r[i]);
      }
    }
  }

  /** Rewriting rows without touching their ids keeps ids unique. */
  lemma MapWhereUniqueIds<T>(rows: seq<T>, hit: T -> bool, f: T -> T, id: T -> string)
    requires UniqueIds(rows, id)
    requires forall x :: id(f(x)) == id(x)
    ensures UniqueIds(MapWhere(rows, hit, f), id)
  {
  }

  /** Rows rewritten in place where the id is `k`, ids unchanged and unique:
      putting the rewritten row found by id back at every position with id
      `k` gives the rewritten table. */
  lemma ReplaceByAnswer<T>(rows: seq<T>, after: seq<T>, id: T -> string, k: string, answer: T)
    requires UniqueIds(rows, id)
    requires |after| == |rows|
    requires forall i :: 0 <= i < |rows| && id(rows[i]) != k ==> after[i] == rows[i]
    requires forall i :: 0 <= i < |rows| ==> id(after[i]) == id(rows[i])
    requires answer in after && id(answer) == k
    ensures ReplaceByKey(rows, id, k, answer) == after
  {
    var local := ReplaceByKey(rows, id, k, answer);
    var j :| 0 <= j < |after| && after[j] == answer;
    forall i | 0 <= i < |rows| ensures local[i] == after[i] {
      if id(rows[i]) == k {
        assert i == j;
      }
    }
  }
}
