/** The `/api/shops` route: shop creation with its defaults and generated
    subdomain, and `formatShop`, which turns a stored row into what the
    pages receive. */
module ShopsRoute {
  import opened Common
  import opened Types
  import opened Ordering
  import PublicSite

  // ---------------------------------------------------------------------------
  // generateSubdomain

  /** `String.prototype.toLowerCase` on one character, as far as it matters
      for the slug: ASCII capitals, plus the two characters outside ASCII
      whose lower case is an ASCII letter (KELVIN SIGN becomes `k`, and
      LATIN CAPITAL LETTER I WITH DOT ABOVE becomes `i` and a combining dot).
      Every other character either has no case or lowers to a character the
      slug drops anyway, so it is kept as it is. */
  function LowerChar(c: char): (r: string)
    ensures |r| >= 1
    ensures forall i :: 0 <= i < |r| ==> !('A' <= r[i] <= 'Z')
    ensures !('A' <= c <= 'Z') && c != '\U{212A}' && c != '\U{0130}' ==> r == [c]
  {
    if 'A' <= c <= 'Z' then [(c as int + 32) as char]
    else if c == '\U{212A}' then "k"
    else if c == '\U{0130}' then "i\U{0307}"
    else [c]
  }

  /** A character that `toLowerCase` changes. */
  predicate HasLowerCase(c: char) {
    ('A' <= c <= 'Z') || c == '\U{212A}' || c == '\U{0130}'
  }

  /** `s.toLowerCase()`: no ASCII capital is left, nothing gets shorter, and
      a string without cased characters is left as it is. */
  function Lower(s: string): (r: string)
    ensures |r| >= |s|
    ensures forall i :: 0 <= i < |r| ==> !('A' <= r[i] <= 'Z')
    ensures (forall i :: 0 <= i < |s| ==> !HasLowerCase(s[i])) ==> r == s
    decreases |s|
  {
    if s == [] then ""
    else
      var head, tail := LowerChar(s[0]), Lower(s[1..]);
      assert forall i :: 0 <= i < |head + tail| ==> (head + tail)[i] == if i < |head| then head[i] else tail[i - |head|];
      assert [s[0]] + s[1..] == s;
      head + tail
  }

  /** The characters the slug keeps: ASCII letters and digits, hiragana,
      katakana, and the CJK block up to U+9FAF. */
  predicate SlugChar(c: char) {
    ('a' <= c <= 'z') || ('A' <= c <= 'Z') || ('0' <= c <= '9') ||
    ('\U{3040}' <= c <= '\U{309F}') || ('\U{30A0}' <= c <= '\U{30FF}') || ('\U{4E00}' <= c <= '\U{9FAF}')
  }

  /** `s.replace(/[^…]/g, '')`: the slug characters of `s`, in order, each
      as often as it occurs; a string of slug characters is kept whole. */
  function KeepSlugChars(s: string): (r: string)
    ensures r == Filter(s, SlugChar)
    ensures forall c :: c in r <==> c in s && SlugChar(c)
    ensures (forall i :: 0 <= i < |s| ==> SlugChar(s[i])) ==> r == s
    decreases |s|
  {
    if s == [] then ""
    else
      assert [s[0]] + s[1..] == s;
      (if SlugChar(s[0]) then [s[0]] else []) + KeepSlugChars(s[1..])
  }

  /** The name part of a subdomain: the first ten slug characters of the
      lowered name (all of them when there are fewer). */
  function SubdomainBase(name: string): (base: string)
    ensures var kept := KeepSlugChars(Lower(name));
      |base| == (if |kept| < 10 then |kept| else 10) && base == kept[..|base|]
    ensures |base| <= 10
    ensures forall i :: 0 <= i < |base| ==> SlugChar(base[i]) && !('A' <= base[i] <= 'Z')
  {
    var kept := KeepSlugChars(Lower(name));
    KeptSlugIsLower(Lower(name));
    Take(kept, 10)
  }

  lemma KeptSlugIsLower(lowered: string)
    requires forall i :: 0 <= i < |lowered| ==> !('A' <= lowered[i] <= 'Z')
    ensures forall i :: 0 <= i < |KeepSlugChars(lowered)| ==>
      SlugChar(KeepSlugChars(lowered)[i]) && !('A' <= KeepSlugChars(lowered)[i] <= 'Z')
  {
    var kept := KeepSlugChars(lowered);
    forall i | 0 <= i < |kept| ensures SlugChar(kept[i]) && !('A' <= kept[i] <= 'Z') {
      assert kept[i] in kept;
      var j :| 0 <= j < |lowered| && lowered[j] == kept[i];
    }
  }

  /** A string of slug characters without capitals is its own base (when it
      is short enough): generating a base is idempotent. */
  lemma SubdomainBaseIdempotent(name: string)
    ensures SubdomainBase(SubdomainBase(name)) == SubdomainBase(name)
  {
    var base := SubdomainBase(name);
    assert Lower(base) == base;
    assert KeepSlugChars(base) == base;
  }

  /** JavaScript `s.substring(start, end)` for `0 <= start <= end`: indexes
      past the end are clamped. */
  function Substring(s: string, start: nat, end: nat): (r: string)
    requires start <= end
    ensures |r| <= end - start
    ensures start <= |s| ==> r == s[start..(if end <= |s| then end else |s|)]
    ensures start > |s| ==> r == ""
  {
    if start > |s| then "" else s[start..(if end <= |s| then end else |s|)]
  }

  /** `generateSubdomain(name)`, given `Math.random().toString(36)`: the base,
      a hyphen, and at most six characters of the random text after `0.`. */
  function GenerateSubdomain(name: string, randomText: string): (r: string)
    ensures r == SubdomainBase(name) + "-" + Substring(randomText, 2, 8)
    ensures '-' in r
    ensures |r| <= 17
  {
    var r := SubdomainBase(name) + "-" + Substring(randomText, 2, 8);
    assert r[|SubdomainBase(name)|] == '-';
    r
  }

  /** The base can be read back from a subdomain: it is the text before the
      first hyphen, because the base never contains one. */
  lemma SubdomainSplitsAtHyphen(name: string, randomText: string)
    ensures Split(GenerateSubdomain(name, randomText), '-')[0] == SubdomainBase(name)
  {
    var base := SubdomainBase(name);
    assert '-' !in base by {
      forall i | 0 <= i < |base| ensures base[i] != '-' {
        assert SlugChar(base[i]);
      }
    }
    assert GenerateSubdomain(name, randomText) == base + ['-'] + Substring(randomText, 2, 8);
    SplitPrefix(base, Substring(randomText, 2, 8), '-');
  }

  // ---------------------------------------------------------------------------
  // Stored rows and formatShop

  /** A `shops` row. NULL columns are None; `business_hours`, `regular_holidays`
      and `cta_settings` are held decoded. */
  datatype ShopRow = ShopRow(
    id: string,
    name: string,
    businessType: string,
    phone: string,
    address: string,
    businessHours: Option<seq<BusinessHour>>,
    regularHolidays: Option<seq<string>>,
    brandColor: string,
    subdomain: string,
    reservationUrl: Option<string>,
    lineUrl: Option<string>,
    googleMapUrl: Option<string>,
    todayAvailable: int,
    ctaSettings: Option<CtaSettings>,
    createdAt: int)

  /** `formatShop(row)`. `todayAvailable` is the truthiness of the stored
      integer; missing hours and holidays become empty lists; missing CTA
      settings become the empty object `{}`, which is truthy. */
  function FormatShop(row: ShopRow): (s: Shop)
    ensures s.todayAvailable <==> row.todayAvailable != 0
    ensures s.businessHours == (if row.businessHours.Some? then row.businessHours.value else [])
    ensures s.regularHolidays == (if row.regularHolidays.Some? then row.regularHolidays.value else [])
    ensures s.ctaSettings.Some?
    ensures row.ctaSettings.Some? ==> s.ctaSettings == row.ctaSettings
    ensures row.ctaSettings.None? ==> s.ctaSettings == Some(EmptyCtaSettings)
    ensures s.id == row.id && s.name == row.name && s.phone == row.phone && s.subdomain == row.subdomain
    ensures s.reservationUrl == row.reservationUrl && s.lineUrl == row.lineUrl && s.googleMapUrl == row.googleMapUrl
    ensures s.businessType == row.businessType && s.address == row.address
    ensures s.brandColor == row.brandColor && s.createdAt == row.createdAt
  {
    Shop(row.id, row.name, row.businessType, row.phone, row.address,
      row.businessHours.GetOr([]), row.regularHolidays.GetOr([]), row.brandColor, row.subdomain,
      row.reservationUrl, row.lineUrl, row.googleMapUrl, row.todayAvailable != 0,
      Some(row.ctaSettings.GetOr(EmptyCtaSettings)), row.createdAt)
  }

  /** Because `{}` is truthy, the public page's all-buttons fallback never
      applies to a formatted shop: a row without CTA settings shows no
      footer buttons at all. */
  lemma NullCtaSettingsHideFooter(row: ShopRow)
    requires row.ctaSettings.None?
    ensures PublicSite.FooterButtons(FormatShop(row)) == []
  {
  }

  // ---------------------------------------------------------------------------
  // POST and GET

  /** The JSON body of `POST`: `name` may be absent; the other fields are
      only tested for truthiness. */
  datatype ShopBody = ShopBody(
    name: Option<string>,
    businessType: string,
    phone: string,
    address: string,
    reservationUrl: string,
    lineUrl: string,
    brandColor: string)

  function ShopRowId(r: ShopRow): string { r.id }
  function ShopRowSubdomain(r: ShopRow): string { r.subdomain }

  /** `POST /api/shops` with a generated id, the random text for the
      subdomain and the current time. A missing name makes
      `generateSubdomain` throw (500); a taken id or subdomain fails the
      insert (500). Unset columns take their schema defaults: no hours or
      holidays, closed today, every CTA shown. */
  function Create(rows: seq<ShopRow>, body: ShopBody, newId: string, randomText: string, now: int)
    : (r: (seq<ShopRow>, Response<Shop>))
    ensures !r.1.Ok? ==> r.0 == rows && r.1.ServerError?
    ensures body.name.None? ==> !r.1.Ok?
    ensures r.1.Ok? ==> exists row :: (r.0 == rows + [row] && r.1.data == FormatShop(row) &&
      row.id == newId && Some(row.name) == body.name &&
      row.subdomain == GenerateSubdomain(body.name.value, randomText) &&
      row.businessType == OrDefault(body.businessType, "beauty") &&
      row.phone == body.phone && row.address == body.address &&
      row.reservationUrl == NullIfEmpty(body.reservationUrl) && row.lineUrl == NullIfEmpty(body.lineUrl) &&
      row.brandColor == OrDefault(body.brandColor, "#0ea5e9") &&
      row.googleMapUrl.None? && row.todayAvailable == 0 && row.ctaSettings == Some(DefaultCtaSettings) &&
      row.businessHours == Some([]) && row.regularHolidays == Some([]) && row.createdAt == now)
    ensures r.1.Ok? <==> (body.name.Some? && newId !in Ids(rows, ShopRowId) &&
      GenerateSubdomain(body.name.value, randomText) !in Ids(rows, ShopRowSubdomain))
  {
    if body.name.None? then (rows, ServerError("Failed to create shop"))
    else
      var subdomain := GenerateSubdomain(body.name.value, randomText);
      if newId in Ids(rows, ShopRowId) || subdomain in Ids(rows, ShopRowSubdomain) then
        (rows, ServerError("Failed to create shop"))
      else
        var row := ShopRow(newId, body.name.value, OrDefault(body.businessType, "beauty"),
          OrDefault(body.phone, ""), OrDefault(body.address, ""), Some([]), Some([]),
          OrDefault(body.brandColor, "#0ea5e9"), subdomain, NullIfEmpty(body.reservationUrl),
          NullIfEmpty(body.lineUrl), None, 0, Some(DefaultCtaSettings), now);
        (rows + [row], Ok(FormatShop(row)))
  }

  /** A shop created through `POST` shows its buttons: the default settings
      turn on all three, so each appears exactly when its target is set. */
  lemma CreatedShopShowsConfiguredButtons(rows: seq<ShopRow>, body: ShopBody, newId: string, randomText: string, now: int)
    requires Create(rows, body, newId, randomText, now).1.Ok?
    ensures var shop := Create(rows, body, newId, randomText, now).1.data;
      var b := PublicSite.FooterButtons(shop);
      (PublicSite.Shows(b, Phone) <==> body.phone != "") &&
      (PublicSite.Shows(b, Reservation) <==> body.reservationUrl != "") &&
      (PublicSite.Shows(b, Line) <==> body.lineUrl != "")
  {
  }

  predicate NewestFirst(a: ShopRow, b: ShopRow) { a.createdAt >= b.createdAt }

  /** `rows.map(formatShop)`. */
  function FormatAll(rows: seq<ShopRow>): (r: seq<Shop>)
    ensures |r| == |rows|
    ensures forall i :: 0 <= i < |rows| ==> r[i] == FormatShop(rows[i])
  {
    seq(|rows|, i requires 0 <= i < |rows| => FormatShop(rows[i]))
  }

  /** The stored rows newest first: `ORDER BY created_at DESC`. */
  function NewestRows(rows: seq<ShopRow>): (r: seq<ShopRow>)
    ensures multiset(r) == multiset(rows)
    ensures SortedBy(r, NewestFirst)
  {
    assert Total(NewestFirst);
    FilterKeepsAll(rows, _ => true);
    SortedWhere(rows, _ => true, NewestFirst)
  }

  /** `GET /api/shops`: every shop, newest first. */
  function List(rows: seq<ShopRow>): (r: seq<Shop>)
    ensures |r| == |rows|
    ensures forall i :: 0 < i < |r| ==> r[i - 1].createdAt >= r[i].createdAt
    ensures forall row :: row in rows ==> FormatShop(row) in r
    ensures forall s :: s in r ==> exists row :: row in rows && s == FormatShop(row)
  {
    var sorted := NewestRows(rows);
    FormattedNewest(rows, sorted);
    FormatAll(sorted)
  }

  /** Formatting a newest-first permutation of the rows keeps the order and
      formats every row once. */
  lemma FormattedNewest(rows: seq<ShopRow>, sorted: seq<ShopRow>)
    requires multiset(sorted) == multiset(rows) && SortedBy(sorted, NewestFirst)
    ensures |FormatAll(sorted)| == |rows|
    ensures forall i :: 0 < i < |sorted| ==> FormatAll(sorted)[i - 1].createdAt >= FormatAll(sorted)[i].createdAt
    ensures forall row :: row in rows ==> FormatShop(row) in FormatAll(sorted)
    ensures forall s :: s in FormatAll(sorted) ==> exists row :: row in rows && s == FormatShop(row)
  {
    ListFacts(rows, sorted);
    var r := FormatAll(sorted);
    forall i | 0 < i < |r| ensures r[i - 1].createdAt >= r[i].createdAt {
      assert NewestFirst(sorted[i - 1], sorted[i]);
    }
    forall row | row in rows ensures FormatShop(row) in r {
      var k :| 0 <= k < |sorted| && sorted[k] == row;
      assert r[k] == FormatShop(row);
    }
    forall s | s in r ensures exists row :: row in rows && s == FormatShop(row) {
      var k :| 0 <= k < |r| && r[k] == s;
      assert sorted[k] in rows && s == FormatShop(sorted[k]);
    }
  }

  lemma ListFacts(rows: seq<ShopRow>, sorted: seq<ShopRow>)
    requires multiset(sorted) == multiset(rows)
    ensures |sorted| == |rows|
    ensures forall row :: row in rows ==> row in sorted
    ensures forall i :: 0 <= i < |sorted| ==> sorted[i] in rows
  {
    assert |multiset(sorted)| == |multiset(rows)|;
    forall row | row in rows ensures row in sorted {
      assert row in multiset(sorted);
    }
    forall i | 0 <= i < |sorted| ensures sorted[i] in rows {
      assert sorted[i] in multiset(rows);
    }
  }

  class ShopTable {
    var rows: seq<ShopRow>

    /** `id` is the PRIMARY KEY and `subdomain` is UNIQUE. */
    ghost predicate Valid()
      reads this
    {
      UniqueIds(rows, ShopRowId) && UniqueIds(rows, ShopRowSubdomain)
    }

    constructor()
      ensures Valid() && rows == []
    {
      rows := [];
    }

    method Post(body: ShopBody, newId: string, randomText: string, now: int) returns (resp: Response<Shop>)
      requires Valid()
      modifies this
      ensures Valid()
      ensures (rows, resp) == Create(old(rows), body, newId, randomText, now)
    {
      var r := Create(rows, body, newId, randomText, now);
      if r.1.Ok? {
        var row := r.0[|rows|];
        assert r.0 == rows + [row];
        AppendUniqueIds(rows, row, ShopRowId);
        AppendUniqueIds(rows, row, ShopRowSubdomain);
      }
      rows, resp := r.0, r.1;
    }

    function Get(): seq<Shop>
      reads this
    {
      List(rows)
    }
  }
}
