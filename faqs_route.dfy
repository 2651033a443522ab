/** The `/api/faqs` route: a shop's questions and answers, stored verbatim
    and appended after the shop's largest `display_order`. */
module FaqsRoute {
  import opened Common
  import opened Types
  import opened Ordering

  /** The JSON body of `POST` and `PUT`; fields the client left out are None. */
  datatype FaqBody = FaqBody(id: Option<string>, shopId: Option<string>, question: Option<string>, answer: Option<string>)

  function FaqId(f: Faq): string { f.id }
  function FaqOrder(f: Faq): int { f.displayOrder }
  predicate ByOrder(a: Faq, b: Faq) { a.displayOrder <= b.displayOrder }

  /** `POST`: a new FAQ after the shop's last one. The insert fails (500) when
      `shopId`, `question` or `answer` is missing or the id is taken. */
  function Create(rows: seq<Faq>, body: FaqBody, newId: string): (r: (seq<Faq>, Response<Faq>))
    ensures r.1.Ok? <==> body.shopId.Some? && body.question.Some? && body.answer.Some? && newId !in Ids(rows, FaqId)
    ensures !r.1.Ok? ==> r.0 == rows && r.1.ServerError?
    ensures r.1.Ok? ==> r.0 == rows + [r.1.data]
    ensures r.1.Ok? ==> r.1.data.id == newId && Some(r.1.data.shopId) == body.shopId
    ensures r.1.Ok? ==> Some(r.1.data.question) == body.question && Some(r.1.data.answer) == body.answer
    ensures r.1.Ok? ==> forall f :: f in rows && f.shopId == r.1.data.shopId ==> f.displayOrder < r.1.data.displayOrder
    ensures r.1.Ok? && (forall f :: f in rows ==> f.shopId != r.1.data.shopId) ==> r.1.data.displayOrder == 1
  {
    if body.shopId.None? || body.question.None? || body.answer.None? || newId in Ids(rows, FaqId) then
      (rows, ServerError("Failed to create FAQ"))
    else
      var shopId := body.shopId.value;
      var f := Faq(newId, shopId, body.question.value, body.answer.value,
        NextOrderIn(rows, (f: Faq) => f.shopId == shopId, FaqOrder));
      (rows + [f], Ok(f))
  }

  /** `PUT`: overwrites question and answer of that id only. An unknown id
      fails with 500 when the missing row is formatted. */
  function Update(rows: seq<Faq>, body: FaqBody): (r: (seq<Faq>, Response<Faq>))
    ensures r.1.Ok? <==> body.id.Some? && body.id.value in Ids(rows, FaqId) && body.question.Some? && body.answer.Some?
    ensures !r.1.Ok? ==> r.0 == rows && r.1.ServerError?
    ensures |r.0| == |rows|
    ensures r.1.Ok? ==> forall i :: 0 <= i < |rows| ==>
      r.0[i] == if rows[i].id == body.id.value
        then rows[i].(question := body.question.value, answer := body.answer.value)
        else rows[i]
    ensures r.1.Ok? ==> r.1.data.id == body.id.value && r.1.data in r.0
  {
    if body.id.None? || body.id.value !in Ids(rows, FaqId) || body.question.None? || body.answer.None? then
      (rows, ServerError("Failed to update FAQ"))
    else
      var id := body.id.value;
      var after := MapWhere(rows, (f: Faq) => f.id == id,
        (f: Faq) => f.(question := body.question.value, answer := body.answer.value));
      match FindBy(after, FaqId, id)
      case Some(f) => (after, Ok(f))
      case None => (rows, ServerError("Failed to update FAQ"))
  }

  /** `DELETE ?id=`: removes only that id; an empty id is 400. */
  function Deleted(rows: seq<Faq>, id: string): (r: (seq<Faq>, Response<()>))
    ensures id == "" <==> r.1.BadRequest?
    ensures !r.1.ServerError?
    ensures id == "" ==> r.0 == rows
    ensures id != "" ==> forall f :: f in r.0 <==> f in rows && f.id != id
    ensures id != "" ==> forall f :: multiset(r.0)[f] == if f.id != id then multiset(rows)[f] else 0
    ensures id != "" ==> forall before :: InOrder(rows, before) ==> InOrder(r.0, before)
  {
    if id == "" then (rows, BadRequest("id is required"))
    else
      var keep := (f: Faq) => f.id != id;
      FilterCounts(rows, keep);
      FilterKeepsOrders(rows, keep);
      (Filter(rows, keep), Ok(()))
  }

  /** `GET ?shopId=`: the shop's FAQs by `display_order`; no shopId is 400. */
  function Get(rows: seq<Faq>, shopId: string): (r: Response<seq<Faq>>)
    ensures r.BadRequest? <==> shopId == ""
    ensures shopId != "" ==> r.Ok?
    ensures r.Ok? ==> SortedBy(r.data, ByOrder)
    ensures r.Ok? ==> forall f :: f in r.data <==> f in rows && f.shopId == shopId
    ensures r.Ok? ==> forall f :: multiset(r.data)[f] == if f.shopId == shopId then multiset(rows)[f] else 0
  {
    if shopId == "" then BadRequest("shopId is required")
    else
      assert Total(ByOrder);
      Ok(SortedWhere(rows, (f: Faq) => f.shopId == shopId, ByOrder))
  }

  class FaqTable {
    var rows: seq<Faq>

    ghost predicate Valid()
      reads this
    {
      UniqueIds(rows, FaqId)
    }

    constructor()
      ensures Valid() && rows == []
    {
      rows := [];
    }

    function View(shopId: string): Response<seq<Faq>>
      reads this
    {
      Get(rows, shopId)
    }

    method Post(body: FaqBody, newId: string) returns (resp: Response<Faq>)
      requires Valid()
      modifies this
      ensures Valid()
      ensures (rows, resp) == Create(old(rows), body, newId)
    {
      var r := Create(rows, body, newId);
      if r.1.Ok? {
        AppendUniqueIds(rows, r.1.data, FaqId);
      }
      rows, resp := r.0, r.1;
    }

    method Put(body: FaqBody) returns (resp: Response<Faq>)
      requires Valid()
      modifies this
      ensures Valid()
      ensures (rows, resp) == Update(old(rows), body)
    {
      var r := Update(rows, body);
      forall i, j | 0 <= i < j < |r.0| ensures r.0[i].id != r.0[j].id {
        assert r.0[i].id == rows[i].id && r.0[j].id == rows[j].id;
      }
      rows, resp := r.0, r.1;
    }

    method Delete(id: string) returns (resp: Response<()>)
      requires Valid()
      modifies this
      ensures Valid()
      ensures (rows, resp) == Deleted(old(rows), id)
    {
      if id == "" {
        return BadRequest("id is required");
      }
      FilterUniqueIds(rows, (f: Faq) => f.id != id, FaqId);
      rows := Filter(rows, (f: Faq) => f.id != id);
      resp := Ok(());
    }
  }
}
