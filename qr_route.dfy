/** The `/api/qr` route: a QR image for a URL, and one short URL per shop,
    created on first request with a random six-character code. */
module QrRoute {
  import opened Common
  import opened Types

  // ---------------------------------------------------------------------------
  // generateShortCode

  const CodeAlphabet: string := "abcdefghijklmnopqrstuvwxyz0123456789"
  const CodeLength: nat := 6

  /** One value of `Math.random()`, in [0, 1). */
  predicate IsUnitRandom(r: real) { 0.0 <= r < 1.0 }

  /** `chars.charAt(Math.floor(r * chars.length))`. */
  function CodeChar(r: real): (c: char)
    requires IsUnitRandom(r)
    ensures c in CodeAlphabet
  {
    CodeAlphabet[CodeIndex(r)]
  }

  /** `Math.floor(r * chars.length)`: a valid index for every `r` in [0, 1). */
  function CodeIndex(r: real): (k: nat)
    requires IsUnitRandom(r)
    ensures k < |CodeAlphabet|
  {
    (r * |CodeAlphabet| as real).Floor
  }

  /** The code drawn from the given random values, one character each. */
  function CodeFrom(rs: seq<real>): (code: string)
    requires forall i :: 0 <= i < |rs| ==> IsUnitRandom(rs[i])
    ensures |code| == |rs|
    ensures forall i :: 0 <= i < |code| ==> code[i] == CodeChar(rs[i])
  {
    seq(|rs|, i requires 0 <= i < |rs| => CodeChar(rs[i]))
  }

  /** `generateShortCode()`, given the six values `Math.random()` returns:
      the loop appends one alphabet character per value. */
  method GenerateShortCode(rs: seq<real>) returns (code: string)
    requires |rs| == CodeLength
    requires forall i :: 0 <= i < |rs| ==> IsUnitRandom(rs[i])
    ensures |code| == CodeLength
    ensures forall i :: 0 <= i < |code| ==> code[i] in CodeAlphabet
    ensures code == CodeFrom(rs)
  {
    code := "";
    var i := 0;
    while i < CodeLength
      invariant 0 <= i <= CodeLength
      invariant code == CodeFrom(rs[..i])
    {
      code := code + [CodeChar(rs[i])];
      i := i + 1;
      assert rs[..i] == rs[..i - 1] + [rs[i - 1]];
    }
    assert rs[..CodeLength] == rs;
  }

  /** Every six-character code over the alphabet can be drawn. */
  lemma EveryCodeCanBeDrawn(code: string)
    requires |code| == CodeLength
    requires forall i :: 0 <= i < |code| ==> code[i] in CodeAlphabet
    ensures exists rs :: |rs| == CodeLength && (forall i :: 0 <= i < |rs| ==> IsUnitRandom(rs[i])) && CodeFrom(rs) == code
  {
    var rs := DrawsFor(code);
    assert CodeFrom(rs) == code;
  }

  /** Values that draw `code`, one per character. */
  lemma DrawsFor(code: string) returns (rs: seq<real>)
    requires forall i :: 0 <= i < |code| ==> code[i] in CodeAlphabet
    ensures |rs| == |code|
    ensures forall i :: 0 <= i < |rs| ==> IsUnitRandom(rs[i]) && CodeChar(rs[i]) == code[i]
  {
    rs := seq(|code|, i requires 0 <= i < |code| => IndexIn(code[i]) as real / 36.0);
    forall i | 0 <= i < |code| ensures IsUnitRandom(rs[i]) && CodeChar(rs[i]) == code[i] {
      DrawIndex(IndexIn(code[i]));
    }
  }

  /** The value `k / 36` draws the `k`-th character of the alphabet. */
  lemma DrawIndex(k: nat)
    requires k < |CodeAlphabet|
    ensures IsUnitRandom(k as real / 36.0) && CodeChar(k as real / 36.0) == CodeAlphabet[k]
  {
    var r := k as real / 36.0;
    assert |CodeAlphabet| == 36;
    assert r * 36.0 == k as real;
    assert CodeIndex(r) == k;
  }

  ghost function IndexIn(c: char): (k: nat)
    requires c in CodeAlphabet
    ensures k < |CodeAlphabet| && CodeAlphabet[k] == c
  {
    var k :| 0 <= k < |CodeAlphabet| && CodeAlphabet[k] == c;
    k
  }

  // ---------------------------------------------------------------------------
  // GET: the QR image

  datatype QrImage = QrImage(qrCode: string, url: string)

  const QrFailed := "Failed to generate QR code"

  /** `GET ?url=`: 400 without a url, otherwise the rendered image (the QR
      library is the `render` parameter, `None` when it rejects the url)
      and the url itself; a rejection answers 500. */
  function Get(url: string, render: string -> Option<string>): (r: Response<QrImage>)
    ensures r.BadRequest? <==> url == ""
    ensures url != "" ==> (r.Ok? <==> render(url).Some?)
    ensures url != "" && render(url).None? ==> r == ServerError(QrFailed)
    ensures r.Ok? ==> r.data.url == url && r.data.qrCode == render(url).value
  {
    if url == "" then BadRequest("url is required")
    else match render(url)
      case None => ServerError(QrFailed)
      case Some(image) => Ok(QrImage(image, url))
  }

  // ---------------------------------------------------------------------------
  // POST: get or create the shop's short URL

  /** A `short_urls` row. */
  datatype ShortUrl = ShortUrl(id: string, shopId: string, code: string)

  datatype ShortLink = ShortLink(code: string, shortUrl: string)

  const ShortUrlPrefix: string := "https://pocketcms.jp/s/"

  function LinkFor(code: string): (l: ShortLink)
    ensures l.code == code
    ensures StartsWith(l.shortUrl, ShortUrlPrefix) && l.shortUrl[|ShortUrlPrefix|..] == code
  {
    ShortLink(code, ShortUrlPrefix + code)
  }

  function RowId(s: ShortUrl): string { s.id }
  function RowShop(s: ShortUrl): string { s.shopId }
  function RowCode(s: ShortUrl): string { s.code }

  /** `POST { shopId }` with a generated id and code. An existing row for the
      shop is returned as it is; otherwise one row is inserted, and a taken
      id or code (`code` is UNIQUE, and nothing retries) fails with 500. */
  function Created(rows: seq<ShortUrl>, shopId: string, newId: string, code: string)
    : (r: (seq<ShortUrl>, Response<ShortLink>))
    ensures shopId == "" ==> r.1.BadRequest? && r.0 == rows
    ensures shopId != "" && shopId in Ids(rows, RowShop) ==>
      r.0 == rows && r.1.Ok? && FindBy(rows, RowShop, shopId).Some? &&
      r.1 == Ok(LinkFor(FindBy(rows, RowShop, shopId).value.code))
    ensures shopId != "" && shopId !in Ids(rows, RowShop) ==>
      if newId in Ids(rows, RowId) || code in Ids(rows, RowCode)
      then r.0 == rows && r.1.ServerError?
      else r.0 == rows + [ShortUrl(newId, shopId, code)] && r.1 == Ok(LinkFor(code))
  {
    if shopId == "" then (rows, BadRequest("shopId is required"))
    else match FindBy(rows, RowShop, shopId)
      case Some(existing) => (rows, Ok(LinkFor(existing.code)))
      case None =>
        if newId in Ids(rows, RowId) || code in Ids(rows, RowCode) then
          (rows, ServerError("Failed to create short URL"))
        else (rows + [ShortUrl(newId, shopId, code)], Ok(LinkFor(code)))
  }

  /** Get-or-create is idempotent: once a shop has a short URL, every later
      `POST` returns the same code and inserts nothing, whatever id and
      code it draws. */
  lemma PostTwiceSameCode(rows: seq<ShortUrl>, shopId: string, id1: string, code1: string, id2: string, code2: string)
    requires Created(rows, shopId, id1, code1).1.Ok?
    ensures var first := Created(rows, shopId, id1, code1);
      var second := Created(first.0, shopId, id2, code2);
      second.0 == first.0 && second.1 == first.1
  {
    var first := Created(rows, shopId, id1, code1);
    if shopId !in Ids(rows, RowShop) {
      var row := ShortUrl(id1, shopId, code1);
      assert first.0 == rows + [row];
      assert Ids(first.0, RowShop)[|rows|] == shopId;
      FindFirstAfterAppend(rows, row, shopId);
    }
  }

  lemma FindFirstAfterAppend(rows: seq<ShortUrl>, row: ShortUrl, shopId: string)
    requires shopId !in Ids(rows, RowShop) && row.shopId == shopId
    ensures FindBy(rows + [row], RowShop, shopId) == Some(row)
  {
    assert Ids(rows + [row], RowShop)[|rows|] == shopId;
    var r := FindBy(rows + [row], RowShop, shopId);
    forall y | y in rows ensures RowShop(y) != shopId {
      var k :| 0 <= k < |rows| && rows[k] == y;
      assert Ids(rows, RowShop)[k] == RowShop(y);
    }
    assert r.value in rows + [row] && RowShop(r.value) == shopId;
  }

  /** The table keeps one short URL per shop, and unique ids and codes. */
  ghost predicate WellFormed(rows: seq<ShortUrl>) {
    UniqueIds(rows, RowId) && UniqueIds(rows, RowShop) && UniqueIds(rows, RowCode)
  }

  lemma CreatedKeepsWellFormed(rows: seq<ShortUrl>, shopId: string, newId: string, code: string)
    requires WellFormed(rows)
    ensures WellFormed(Created(rows, shopId, newId, code).0)
  {
    var r := Created(rows, shopId, newId, code);
    if r.0 != rows {
      var row := ShortUrl(newId, shopId, code);
      AppendUniqueIds(rows, row, RowId);
      AppendUniqueIds(rows, row, RowShop);
      AppendUniqueIds(rows, row, RowCode);
    }
  }

  class ShortUrlTable {
    var rows: seq<ShortUrl>

    ghost predicate Valid()
      reads this
    {
      WellFormed(rows)
    }

    constructor()
      ensures Valid() && rows == []
    {
      rows := [];
    }

    /** `POST`: the code is only drawn when the shop has no short URL yet. */
    method Post(shopId: string, newId: string, rs: seq<real>) returns (resp: Response<ShortLink>)
      requires Valid()
      requires |rs| == CodeLength && forall i :: 0 <= i < |rs| ==> IsUnitRandom(rs[i])
      modifies this
      ensures Valid()
      ensures (rows, resp) == Created(old(rows), shopId, newId, CodeFrom(rs))
    {
      if shopId == "" {
        return BadRequest("shopId is required");
      }
      var existing := FindBy(rows, RowShop, shopId);
      if existing.Some? {
        return Ok(LinkFor(existing.value.code));
      }
      var code := GenerateShortCode(rs);
      CreatedKeepsWellFormed(rows, shopId, newId, code);
      var r := Created(rows, shopId, newId, code);
      rows, resp := r.0, r.1;
    }
  }
}
