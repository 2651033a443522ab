/** The `/api/posts` route: the filtered listing with its query builder,
    creation with defaults, and `formatPost`, which decodes the JSON-encoded
    image and tag lists. */
module PostsRoute {
  import opened Common
  import opened Types
  import opened Ordering
  import Json

  /** A `posts` row. `images` and `tags` hold JSON text; NULL is "". */
  datatype PostRow = PostRow(
    id: string,
    shopId: string,
    postType: string,
    title: string,
    content: string,
    images: string,
    tags: string,
    duration: Option<int>,
    priceRange: Option<int>,
    staffId: Option<string>,
    status: string,
    newsType: Option<string>,
    displayStart: Option<string>,
    displayEnd: Option<string>,
    createdAt: int)

  // ---------------------------------------------------------------------------
  // GET: the query builder

  datatype Column = ShopIdColumn | TypeColumn | StatusColumn

  function ColumnName(c: Column): string {
    match c
    case ShopIdColumn => "shop_id"
    case TypeColumn => "type"
    case StatusColumn => "status"
  }

  /** One ` AND col = ?` condition with its bound parameter. */
  datatype Clause = Clause(column: Column, value: string)

  /** The conditions the handler adds: one per truthy filter, in the order
      shopId, type, status. */
  function Clauses(shopId: string, postType: string, status: string): (cs: seq<Clause>)
    ensures |cs| <= 3
    ensures forall c :: c in cs ==> c.value != ""
    ensures Clause(ShopIdColumn, shopId) in cs <==> shopId != ""
    ensures Clause(TypeColumn, postType) in cs <==> postType != ""
    ensures Clause(StatusColumn, status) in cs <==> status != ""
  {
    (if shopId != "" then [Clause(ShopIdColumn, shopId)] else []) +
    (if postType != "" then [Clause(TypeColumn, postType)] else []) +
    (if status != "" then [Clause(StatusColumn, status)] else [])
  }

  const SelectAll: string := "SELECT * FROM posts WHERE 1=1"
  const NewestFirstOrder: string := " ORDER BY created_at DESC"

  function ClauseSql(c: Clause): string {
    " AND " + ColumnName(c.column) + " = ?"
  }

  function ClausesSql(cs: seq<Clause>): string
    decreases |cs|
  {
    if cs == [] then "" else ClausesSql(cs[..|cs| - 1]) + ClauseSql(cs[|cs| - 1])
  }

  function QueryText(cs: seq<Clause>): string {
    SelectAll + ClausesSql(cs) + NewestFirstOrder
  }

  function Params(cs: seq<Clause>): (ps: seq<string>)
    ensures |ps| == |cs|
    ensures forall i :: 0 <= i < |cs| ==> ps[i] == cs[i].value
  {
    seq(|cs|, i requires 0 <= i < |cs| => cs[i].value)
  }

  function CountChar(s: string, c: char): (n: nat)
    ensures n <= |s|
    decreases |s|
  {
    if s == [] then 0 else (if s[|s| - 1] == c then 1 else 0) + CountChar(s[..|s| - 1], c)
  }

  lemma {:induction false} CountCharAppend(a: string, b: string, c: char)
    ensures CountChar(a + b, c) == CountChar(a, c) + CountChar(b, c)
    decreases |b|
  {
    if b == [] {
      assert a + b == a;
    } else {
      assert (a + b)[..|a + b| - 1] == a + b[..|b| - 1];
      CountCharAppend(a, b[..|b| - 1], c);
    }
  }

  lemma CountCharNone(s: string, c: char)
    requires c !in s
    ensures CountChar(s, c) == 0
  {
    if s != [] {
      assert s[..|s| - 1] + [s[|s| - 1]] == s;
      CountCharNone(s[..|s| - 1], c);
    }
  }

  /** The query text carries one placeholder per condition, so the
      parameter list always matches it. */
  lemma {:induction false} PlaceholdersMatchParams(cs: seq<Clause>)
    ensures CountChar(QueryText(cs), '?') == |Params(cs)|
  {
    var conditions := ClausesSql(cs);
    ClausesPlaceholders(cs);
    FixedTextHasNoPlaceholder();
    CountCharAppend(SelectAll, conditions, '?');
    CountCharAppend(SelectAll + conditions, NewestFirstOrder, '?');
    assert QueryText(cs) == SelectAll + conditions + NewestFirstOrder;
  }

  /** The fixed head and tail of the query hold no placeholder. */
  lemma FixedTextHasNoPlaceholder()
    ensures CountChar(SelectAll, '?') == 0 && CountChar(NewestFirstOrder, '?') == 0
  {
    CountCharNone(SelectAll, '?');
    CountCharNone(NewestFirstOrder, '?');
  }

  /** Each condition carries exactly one placeholder, at its end. */
  lemma ClauseHasOnePlaceholder(c: Clause)
    ensures CountChar(ClauseSql(c), '?') == 1
  {
    var head := " AND " + ColumnName(c.column) + " = ";
    assert ClauseSql(c) == head + "?";
    CountCharNone(head, '?');
    CountCharAppend(head, "?", '?');
  }

  lemma {:induction false} ClausesPlaceholders(cs: seq<Clause>)
    ensures CountChar(ClausesSql(cs), '?') == |cs|
    decreases |cs|
  {
    if cs != [] {
      var init, c := cs[..|cs| - 1], cs[|cs| - 1];
      ClausesPlaceholders(init);
      ClauseHasOnePlaceholder(c);
      assert ClausesSql(cs) == ClausesSql(init) + ClauseSql(c);
      CountCharAppend(ClausesSql(init), ClauseSql(c), '?');
    }
  }

  lemma AppendClause(pre: string, cs: seq<Clause>, c: Clause)
    ensures pre + ClausesSql(cs + [c]) == pre + ClausesSql(cs) + ClauseSql(c)
    ensures Params(cs + [c]) == Params(cs) + [c.value]
  {
    assert (cs + [c])[..|cs|] == cs;
    assert ClausesSql(cs + [c]) == ClausesSql(cs) + ClauseSql(c);
  }

  /** Prepending a condition puts its text in front. */
  lemma {:induction false} ClausesSqlCons(c: Clause, cs: seq<Clause>)
    ensures ClausesSql([c] + cs) == ClauseSql(c) + ClausesSql(cs)
    decreases |cs|
  {
    if cs == [] {
      assert ([c] + cs)[..0] == [];
    } else {
      var init, last := cs[..|cs| - 1], cs[|cs| - 1];
      assert ([c] + cs)[..|cs|] == [c] + init;
      ClausesSqlCons(c, init);
      AppendAssoc(ClauseSql(c), ClausesSql(init), ClauseSql(last));
    }
  }

  /** The column of the condition `text` starts with, if any. */
  function LeadingColumn(text: string): (col: Option<Column>)
    ensures col.Some? ==> ClauseSql(Clause(col.value, "")) <= text
  {
    if ClauseSql(Clause(ShopIdColumn, "")) <= text then Some(ShopIdColumn)
    else if ClauseSql(Clause(TypeColumn, "")) <= text then Some(TypeColumn)
    else if ClauseSql(Clause(StatusColumn, "")) <= text then Some(StatusColumn)
    else None
  }

  /** No condition text is a prefix of another's: they part at the column
      name. */
  lemma LeadingColumnOf(c: Clause, rest: string)
    ensures LeadingColumn(ClauseSql(c) + rest) == Some(c.column)
  {
    var text := ClauseSql(c) + rest;
    assert text[5] == ClauseSql(c)[5] && text[6] == ClauseSql(c)[6];
    assert ClauseSql(c) <= text;
  }

  /** How the database reads the conditions of a statement: one
      ` AND col = ?` after another, each `?` bound to the next parameter;
      any other text, or too many or too few parameters, is refused. */
  function ParseConditions(text: string, params: seq<string>): Option<seq<Clause>>
    decreases |text|
  {
    if text == "" then (if params == [] then Some([]) else None)
    else if params == [] then None
    else
      match LeadingColumn(text)
      case None => None
      case Some(col) =>
        match ParseConditions(text[|ClauseSql(Clause(col, ""))|..], params[1..])
        case None => None
        case Some(cs) => Some([Clause(col, params[0])] + cs)
  }

  /** `db.prepare(query)` with `params`: the conditions the statement
      selects by, when it is the fixed head, the conditions and the fixed
      ORDER BY tail. */
  function Prepare(query: string, params: seq<string>): Option<seq<Clause>> {
    var head, tail := |SelectAll|, |NewestFirstOrder|;
    if head + tail <= |query| && query[..head] == SelectAll && query[|query| - tail..] == NewestFirstOrder
    then ParseConditions(query[head..|query| - tail], params)
    else None
  }

  lemma {:induction false} ParseClausesSql(cs: seq<Clause>)
    ensures ParseConditions(ClausesSql(cs), Params(cs)) == Some(cs)
    decreases |cs|
  {
    if cs == [] {
      assert Params(cs) == [];
    } else {
      var c, rest := cs[0], cs[1..];
      assert [c] + rest == cs;
      ClausesSqlCons(c, rest);
      LeadingColumnOf(c, ClausesSql(rest));
      assert (ClauseSql(c) + ClausesSql(rest))[|ClauseSql(c)|..] == ClausesSql(rest);
      assert Params(cs)[1..] == Params(rest);
      ParseClausesSql(rest);
    }
  }

  /** The database reads the built statement back as exactly the conditions
      it was built from. */
  lemma PrepareQueryText(cs: seq<Clause>)
    ensures Prepare(QueryText(cs), Params(cs)) == Some(cs)
  {
    var q, mid := QueryText(cs), ClausesSql(cs);
    assert q == SelectAll + mid + NewestFirstOrder;
    assert q[..|SelectAll|] == SelectAll;
    assert q[|q| - |NewestFirstOrder|..] == NewestFirstOrder;
    assert q[|SelectAll|..|q| - |NewestFirstOrder|] == mid;
    ParseClausesSql(cs);
  }

  /** Two filter combinations that build the same statement and parameters
      are the same combination. */
  lemma QueryDeterminesConditions(cs1: seq<Clause>, cs2: seq<Clause>)
    requires QueryText(cs1) == QueryText(cs2) && Params(cs1) == Params(cs2)
    ensures cs1 == cs2
  {
    PrepareQueryText(cs1);
    PrepareQueryText(cs2);
  }

  /** `query += ' AND col = ?'; params.push(value)`. */
  method AddCondition(query: string, params: seq<string>, ghost cs: seq<Clause>, c: Clause)
    returns (query': string, params': seq<string>, ghost cs': seq<Clause>)
    requires query == SelectAll + ClausesSql(cs) && params == Params(cs)
    ensures query' == query + ClauseSql(c) && params' == params + [c.value]
    ensures cs' == cs + [c]
    ensures query' == SelectAll + ClausesSql(cs') && params' == Params(cs')
  {
    query' := query + ClauseSql(c);
    params' := params + [c.value];
    AppendClause(SelectAll, cs, c);
    cs' := cs + [c];
  }

  /** The handler's `query` and `params`, built by appending a condition
      for each filter that is present. */
  method BuildQuery(shopId: string, postType: string, status: string) returns (query: string, params: seq<string>)
    ensures query == QueryText(Clauses(shopId, postType, status))
    ensures params == Params(Clauses(shopId, postType, status))
    ensures CountChar(query, '?') == |params|
  {
    ghost var cs: seq<Clause> := [];
    query := SelectAll;
    params := [];
    ghost var first := if shopId != "" then [Clause(ShopIdColumn, shopId)] else [];
    ghost var second := if postType != "" then [Clause(TypeColumn, postType)] else [];
    ghost var third := if status != "" then [Clause(StatusColumn, status)] else [];
    if shopId != "" {
      query, params, cs := AddCondition(query, params, cs, Clause(ShopIdColumn, shopId));
    }
    assert cs == first;
    if postType != "" {
      query, params, cs := AddCondition(query, params, cs, Clause(TypeColumn, postType));
    }
    assert cs == first + second;
    if status != "" {
      query, params, cs := AddCondition(query, params, cs, Clause(StatusColumn, status));
    }
    assert cs == first + second + third == Clauses(shopId, postType, status);
    query := query + NewestFirstOrder;
    PlaceholdersMatchParams(cs);
  }

  // ---------------------------------------------------------------------------
  // GET: what the query selects

  function ColumnValue(row: PostRow, c: Column): string {
    match c
    case ShopIdColumn => row.shopId
    case TypeColumn => row.postType
    case StatusColumn => row.status
  }

  /** A row satisfies every `col = ?` condition. */
  predicate Satisfies(row: PostRow, cs: seq<Clause>) {
    forall i :: 0 <= i < |cs| ==> ColumnValue(row, cs[i].column) == cs[i].value
  }

  /** The conditions select exactly the posts matching every present filter. */
  lemma SatisfiesFilters(row: PostRow, shopId: string, postType: string, status: string)
    ensures Satisfies(row, Clauses(shopId, postType, status)) <==>
      (shopId != "" ==> row.shopId == shopId) &&
      (postType != "" ==> row.postType == postType) &&
      (status != "" ==> row.status == status)
  {
    var cs := Clauses(shopId, postType, status);
    if Satisfies(row, cs) {
      if shopId != "" {
        var i :| 0 <= i < |cs| && cs[i] == Clause(ShopIdColumn, shopId);
      }
      if postType != "" {
        var i :| 0 <= i < |cs| && cs[i] == Clause(TypeColumn, postType);
      }
      if status != "" {
        var i :| 0 <= i < |cs| && cs[i] == Clause(StatusColumn, status);
      }
    }
  }

  predicate NewestFirst(a: PostRow, b: PostRow) { a.createdAt >= b.createdAt }

  /** `formatPost(row)`: `JSON.parse(col || '[]')` on both list columns; text
      that is not a JSON array of strings throws. */
  function FormatPost(row: PostRow): (r: Option<Post>)
    ensures r.Some? <==> Json.Parse(OrDefault(row.images, "[]")).Some? && Json.Parse(OrDefault(row.tags, "[]")).Some?
    ensures r.Some? ==> r.value.images == Json.Parse(OrDefault(row.images, "[]")).value
    ensures r.Some? ==> r.value.tags == Json.Parse(OrDefault(row.tags, "[]")).value
    ensures r.Some? ==> r.value.id == row.id && r.value.shopId == row.shopId && r.value.createdAt == row.createdAt
    ensures r.Some? ==> r.value.postType == row.postType && r.value.status == row.status
    ensures r.Some? ==> r.value.title == row.title && r.value.content == row.content
    ensures r.Some? ==> r.value.duration == row.duration && r.value.priceRange == row.priceRange && r.value.staffId == row.staffId
    ensures r.Some? ==> r.value.newsType == row.newsType && r.value.displayStart == row.displayStart && r.value.displayEnd == row.displayEnd
  {
    match (Json.Parse(OrDefault(row.images, "[]")), Json.Parse(OrDefault(row.tags, "[]")))
    case (Some(images), Some(tags)) =>
      Some(Post(row.id, row.shopId, row.postType, row.title, row.content, images, tags,
        row.duration, row.priceRange, row.staffId, row.status, row.newsType,
        row.displayStart, row.displayEnd, row.createdAt))
    case _ => None
  }

  /** `posts.map(formatPost)`: one undecodable row fails the whole request. */
  function FormatAll(rows: seq<PostRow>): (r: Option<seq<Post>>)
    ensures r.Some? <==> forall i :: 0 <= i < |rows| ==> FormatPost(rows[i]).Some?
    ensures r.Some? ==> |r.value| == |rows| && forall i :: 0 <= i < |rows| ==> Some(r.value[i]) == FormatPost(rows[i])
    decreases |rows|
  {
    if rows == [] then Some([])
    else
      match (FormatPost(rows[0]), FormatAll(rows[1..]))
      case (Some(p), Some(ps)) =>
        assert forall i :: 1 <= i < |rows| ==> rows[i] == rows[1..][i - 1];
        Some([p] + ps)
      case (None, _) => None
      case (_, None) =>
        assert forall i :: 0 <= i < |rows[1..]| ==> rows[1..][i] == rows[i + 1];
        None
  }

  /** What `db.prepare(query).all(...params)` followed by
      `posts.map(formatPost)` answers for the conditions `cs`: the rows
      satisfying every condition, each as often as it is stored, newest
      first, formatted one by one. It succeeds exactly when every such row
      decodes; otherwise the throw is caught and answered with 500. */
  function Select(rows: seq<PostRow>, cs: seq<Clause>): (r: Response<seq<Post>>)
    ensures !r.BadRequest?
    ensures r.Ok? <==> forall row :: row in rows && Satisfies(row, cs) ==> FormatPost(row).Some?
    ensures r.Ok? ==> FormatsSelection(rows, cs, r.data)
  {
    var hits := Selected(rows, cs);
    HitsDecode(rows, cs, hits);
    match FormatAll(hits)
    case Some(posts) =>
      FormattedHits(rows, cs, hits, posts);
      Ok(posts)
    case None => ServerError("Failed to fetch posts")
  }

  /** The rows the statement selects, before formatting. */
  function Selected(rows: seq<PostRow>, cs: seq<Clause>): (hits: seq<PostRow>)
    ensures forall row :: row in hits <==> row in rows && Satisfies(row, cs)
    ensures forall row :: multiset(hits)[row] == if Satisfies(row, cs) then multiset(rows)[row] else 0
    ensures SortedBy(hits, NewestFirst)
  {
    assert Total(NewestFirst);
    SortedWhere(rows, (row: PostRow) => Satisfies(row, cs), NewestFirst)
  }

  /** Every selected row decodes exactly when every stored row satisfying the
      conditions does. */
  lemma HitsDecode(rows: seq<PostRow>, cs: seq<Clause>, hits: seq<PostRow>)
    requires forall row :: row in hits <==> row in rows && Satisfies(row, cs)
    ensures (forall i :: 0 <= i < |hits| ==> FormatPost(hits[i]).Some?) <==>
            (forall row :: row in rows && Satisfies(row, cs) ==> FormatPost(row).Some?)
  {
    if forall i :: 0 <= i < |hits| ==> FormatPost(hits[i]).Some? {
      forall row | row in rows && Satisfies(row, cs) ensures FormatPost(row).Some? {
        var i :| 0 <= i < |hits| && hits[i] == row;
      }
    }
  }

  /** `posts` is the rows satisfying `cs`, each as often as it is stored,
      newest first, each formatted by `formatPost`. */
  ghost predicate FormatsSelection(rows: seq<PostRow>, cs: seq<Clause>, posts: seq<Post>) {
    (forall i :: 0 < i < |posts| ==> posts[i - 1].createdAt >= posts[i].createdAt) &&
    (exists hits: seq<PostRow> ::
      (forall row :: multiset(hits)[row] == if Satisfies(row, cs) then multiset(rows)[row] else 0) &&
      FormattedAs(hits, posts)) &&
    (forall p :: p in posts ==> exists row :: row in rows && Satisfies(row, cs) && FormatPost(row) == Some(p)) &&
    (forall row :: row in rows && Satisfies(row, cs) ==> FormatPost(row).Some? && FormatPost(row).value in posts)
  }

  /** `posts` is `hits` formatted one by one. */
  ghost predicate FormattedAs(hits: seq<PostRow>, posts: seq<Post>) {
    |hits| == |posts| && forall i :: 0 <= i < |hits| ==> FormatPost(hits[i]) == Some(posts[i])
  }

  lemma FormattedHits(rows: seq<PostRow>, cs: seq<Clause>, hits: seq<PostRow>, posts: seq<Post>)
    requires forall row :: row in hits <==> row in rows && Satisfies(row, cs)
    requires forall row :: multiset(hits)[row] == if Satisfies(row, cs) then multiset(rows)[row] else 0
    requires SortedBy(hits, NewestFirst)
    requires |posts| == |hits| && forall i :: 0 <= i < |hits| ==> Some(posts[i]) == FormatPost(hits[i])
    ensures FormatsSelection(rows, cs, posts)
  {
    FormattedInOrder(hits, posts);
    FormattedFromHits(rows, cs, hits, posts);
    HitsFormatted(rows, cs, hits, posts);
    assert FormattedAs(hits, posts);
  }

  lemma FormattedInOrder(hits: seq<PostRow>, posts: seq<Post>)
    requires SortedBy(hits, NewestFirst)
    requires |posts| == |hits| && forall i :: 0 <= i < |hits| ==> Some(posts[i]) == FormatPost(hits[i])
    ensures forall i :: 0 < i < |posts| ==> posts[i - 1].createdAt >= posts[i].createdAt
  {
    forall i | 0 < i < |posts| ensures posts[i - 1].createdAt >= posts[i].createdAt {
      assert NewestFirst(hits[i - 1], hits[i]);
    }
  }

  lemma FormattedFromHits(rows: seq<PostRow>, cs: seq<Clause>, hits: seq<PostRow>, posts: seq<Post>)
    requires forall row :: row in hits ==> row in rows && Satisfies(row, cs)
    requires |posts| == |hits| && forall i :: 0 <= i < |hits| ==> Some(posts[i]) == FormatPost(hits[i])
    ensures forall p :: p in posts ==> exists row :: row in rows && Satisfies(row, cs) && FormatPost(row) == Some(p)
  {
    forall p | p in posts ensures exists row :: row in rows && Satisfies(row, cs) && FormatPost(row) == Some(p) {
      var i :| 0 <= i < |posts| && posts[i] == p;
      assert hits[i] in hits;
    }
  }

  lemma HitsFormatted(rows: seq<PostRow>, cs: seq<Clause>, hits: seq<PostRow>, posts: seq<Post>)
    requires forall row :: row in rows && Satisfies(row, cs) ==> row in hits
    requires |posts| == |hits| && forall i :: 0 <= i < |hits| ==> Some(posts[i]) == FormatPost(hits[i])
    ensures forall row :: row in rows && Satisfies(row, cs) ==> FormatPost(row).Some? && FormatPost(row).value in posts
  {
    forall row | row in rows && Satisfies(row, cs) ensures FormatPost(row).Some? && FormatPost(row).value in posts {
      var i :| 0 <= i < |hits| && hits[i] == row;
      assert Some(posts[i]) == FormatPost(row);
    }
  }

  // ---------------------------------------------------------------------------
  // POST

  /** The JSON body of `POST`. Lists the client left out are None; scalar
      fields are tested for truthiness only, so "" and 0 stand for absent. */
  datatype PostBody = PostBody(
    shopId: Option<string>,
    postType: string,
    title: string,
    content: string,
    images: Option<seq<string>>,
    tags: Option<seq<string>>,
    duration: Option<int>,
    priceRange: Option<int>,
    staffId: string,
    status: string,
    newsType: string,
    displayStart: string,
    displayEnd: string)

  function PostRowId(r: PostRow): string { r.id }

  /** The row `POST` inserts: type 'case', empty title and content and status
      'draft' by default, lists written as JSON, falsy optionals as NULL. */
  function NewRow(body: PostBody, shopId: string, newId: string, now: int): (row: PostRow)
    ensures row.postType == OrDefault(body.postType, "case") && row.status == OrDefault(body.status, "draft")
    ensures row.title == body.title && row.content == body.content
    ensures row.images == Json.Stringify(body.images.GetOr([])) && row.tags == Json.Stringify(body.tags.GetOr([]))
    ensures row.duration == NullIfZero(body.duration) && row.priceRange == NullIfZero(body.priceRange)
    ensures row.staffId == NullIfEmpty(body.staffId) && row.newsType == NullIfEmpty(body.newsType)
    ensures row.displayStart == NullIfEmpty(body.displayStart) && row.displayEnd == NullIfEmpty(body.displayEnd)
  {
    PostRow(newId, shopId, OrDefault(body.postType, "case"), OrDefault(body.title, ""), OrDefault(body.content, ""),
      Json.Stringify(body.images.GetOr([])), Json.Stringify(body.tags.GetOr([])),
      NullIfZero(body.duration), NullIfZero(body.priceRange), NullIfEmpty(body.staffId),
      OrDefault(body.status, "draft"), NullIfEmpty(body.newsType), NullIfEmpty(body.displayStart),
      NullIfEmpty(body.displayEnd), now)
  }

  /** The JSON text `Stringify` writes is never empty, so `|| '[]'` leaves it
      alone and reading the list back gives the list written. */
  lemma ListColumnRoundTrip(xs: seq<string>)
    ensures Json.Parse(OrDefault(Json.Stringify(xs), "[]")) == Some(xs)
  {
    Json.ParseStringify(xs);
  }

  /** `POST`: inserts the row and returns it formatted. Without `shopId`
      (NOT NULL) or with a taken id the insert fails with 500. */
  function Create(rows: seq<PostRow>, body: PostBody, newId: string, now: int): (r: (seq<PostRow>, Response<Post>))
    ensures r.1.Ok? <==> body.shopId.Some? && newId !in Ids(rows, PostRowId)
    ensures !r.1.Ok? ==> r.0 == rows && r.1.ServerError?
    ensures r.1.Ok? ==> r.0 == rows + [NewRow(body, body.shopId.value, newId, now)]
    ensures r.1.Ok? ==> r.1.data.images == body.images.GetOr([]) && r.1.data.tags == body.tags.GetOr([])
    ensures r.1.Ok? ==> r.1.data.id == newId && Some(r.1.data.shopId) == body.shopId
    ensures r.1.Ok? ==> Some(r.1.data) == FormatPost(NewRow(body, body.shopId.value, newId, now))
  {
    if body.shopId.None? || newId in Ids(rows, PostRowId) then (rows, ServerError("Failed to create post"))
    else
      var row := NewRow(body, body.shopId.value, newId, now);
      ListColumnRoundTrip(body.images.GetOr([]));
      ListColumnRoundTrip(body.tags.GetOr([]));
      (rows + [row], Ok(FormatPost(row).value))
  }

  class PostTable {
    var rows: seq<PostRow>

    ghost predicate Valid()
      reads this
    {
      UniqueIds(rows, PostRowId)
    }

    constructor()
      ensures Valid() && rows == []
    {
      rows := [];
    }

    method Post(body: PostBody, newId: string, now: int) returns (resp: Response<Post>)
      requires Valid()
      modifies this
      ensures Valid()
      ensures (rows, resp) == Create(old(rows), body, newId, now)
    {
      var r := Create(rows, body, newId, now);
      if r.1.Ok? {
        AppendUniqueIds(rows, NewRow(body, body.shopId.value, newId, now), PostRowId);
      }
      rows, resp := r.0, r.1;
    }

    /** `GET ?shopId=&type=&status=`: builds the statement, lets the
        database bind it, and runs the conditions it means over the table. */
    method Get(shopId: string, postType: string, status: string) returns (resp: Response<seq<Post>>)
      ensures resp == Select(rows, Clauses(shopId, postType, status))
    {
      var query, params := BuildQuery(shopId, postType, status);
      PrepareQueryText(Clauses(shopId, postType, status));
      var cs := Prepare(query, params).value;
      resp := Select(rows, cs);
    }
  }
}
