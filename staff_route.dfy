/** The `/api/staff` route: a shop's staff members, appended after the
    shop's largest `display_order`; empty role, image and description are
    stored as NULL. */
module StaffRoute {
  import opened Common
  import opened Types
  import opened Ordering

  /** The JSON body of `POST` and `PUT`; fields the client left out are None
      (or "" where the handler only asks whether they are truthy). */
  datatype StaffBody = StaffBody(
    id: Option<string>,
    shopId: Option<string>,
    name: Option<string>,
    role: string,
    image: string,
    description: string)

  function StaffId(s: Staff): string { s.id }
  function StaffOrder(s: Staff): int { s.displayOrder }
  predicate ByOrder(a: Staff, b: Staff) { a.displayOrder <= b.displayOrder }

  /** `POST`: a new member after the shop's last one. The insert fails (500)
      when `shopId` or `name` is missing or the generated id is taken. */
  function Create(rows: seq<Staff>, body: StaffBody, newId: string): (r: (seq<Staff>, Response<Staff>))
    ensures r.1.Ok? <==> body.shopId.Some? && body.name.Some? && newId !in Ids(rows, StaffId)
    ensures !r.1.Ok? ==> r.0 == rows && r.1.ServerError?
    ensures r.1.Ok? ==> r.0 == rows + [r.1.data]
    ensures r.1.Ok? ==> var s := r.1.data;
      s.id == newId && Some(s.shopId) == body.shopId && Some(s.name) == body.name &&
      s.role == NullIfEmpty(body.role) && s.image == NullIfEmpty(body.image) &&
      s.description == NullIfEmpty(body.description)
    ensures r.1.Ok? ==> forall s :: s in rows && s.shopId == r.1.data.shopId ==> s.displayOrder < r.1.data.displayOrder
    ensures r.1.Ok? && (forall s :: s in rows ==> s.shopId != r.1.data.shopId) ==> r.1.data.displayOrder == 1
  {
    if body.shopId.None? || body.name.None? || newId in Ids(rows, StaffId) then
      (rows, ServerError("Failed to create staff"))
    else
      var shopId := body.shopId.value;
      var s := Staff(newId, shopId, body.name.value, NullIfEmpty(body.role), NullIfEmpty(body.image),
        NullIfEmpty(body.description), NextOrderIn(rows, (s: Staff) => s.shopId == shopId, StaffOrder));
      (rows + [s], Ok(s))
  }

  /** `PUT`: overwrites name, role, image and description of that id only.
      An unknown id fails with 500 when the missing row is formatted; a
      missing name violates NOT NULL, also 500. */
  function Update(rows: seq<Staff>, body: StaffBody): (r: (seq<Staff>, Response<Staff>))
    ensures r.1.Ok? <==> body.id.Some? && body.id.value in Ids(rows, StaffId) && body.name.Some?
    ensures !r.1.Ok? ==> r.0 == rows && r.1.ServerError?
    ensures |r.0| == |rows|
    ensures r.1.Ok? ==> forall i :: 0 <= i < |rows| ==>
      r.0[i] == if rows[i].id == body.id.value
        then rows[i].(name := body.name.value, role := NullIfEmpty(body.role),
                      image := NullIfEmpty(body.image), description := NullIfEmpty(body.description))
        else rows[i]
    ensures r.1.Ok? ==> r.1.data.id == body.id.value && r.1.data in r.0
  {
    if body.id.None? || body.id.value !in Ids(rows, StaffId) || body.name.None? then
      (rows, ServerError("Failed to update staff"))
    else
      var id := body.id.value;
      var after := MapWhere(rows, (s: Staff) => s.id == id,
        (s: Staff) => s.(name := body.name.value, role := NullIfEmpty(body.role),
                         image := NullIfEmpty(body.image), description := NullIfEmpty(body.description)));
      match FindBy(after, StaffId, id)
      case Some(s) => (after, Ok(s))
      case None => (rows, ServerError("Failed to update staff"))
  }

  /** `DELETE ?id=`: removes only that id; an empty id is 400. */
  function Deleted(rows: seq<Staff>, id: string): (r: (seq<Staff>, Response<()>))
    ensures id == "" <==> r.1.BadRequest?
    ensures !r.1.ServerError?
    ensures id == "" ==> r.0 == rows
    ensures id != "" ==> forall s :: s in r.0 <==> s in rows && s.id != id
    ensures id != "" ==> forall s :: multiset(r.0)[s] == if s.id != id then multiset(rows)[s] else 0
    ensures id != "" ==> forall before :: InOrder(rows, before) ==> InOrder(r.0, before)
  {
    if id == "" then (rows, BadRequest("id is required"))
    else
      var keep := (s: Staff) => s.id != id;
      FilterCounts(rows, keep);
      FilterKeepsOrders(rows, keep);
      (Filter(rows, keep), Ok(()))
  }

  /** `GET ?shopId=`: the shop's staff by `display_order`; no shopId is 400. */
  function Get(rows: seq<Staff>, shopId: string): (r: Response<seq<Staff>>)
    ensures r.BadRequest? <==> shopId == ""
    ensures shopId != "" ==> r.Ok?
    ensures r.Ok? ==> SortedBy(r.data, ByOrder)
    ensures r.Ok? ==> forall s :: s in r.data <==> s in rows && s.shopId == shopId
    ensures r.Ok? ==> forall s :: multiset(r.data)[s] == if s.shopId == shopId then multiset(rows)[s] else 0
  {
    if shopId == "" then BadRequest("shopId is required")
    else
      assert Total(ByOrder);
      Ok(SortedWhere(rows, (s: Staff) => s.shopId == shopId, ByOrder))
  }

  class StaffTable {
    var rows: seq<Staff>

    ghost predicate Valid()
      reads this
    {
      UniqueIds(rows, StaffId)
    }

    constructor()
      ensures Valid() && rows == []
    {
      rows := [];
    }

    function View(shopId: string): Response<seq<Staff>>
      reads this
    {
      Get(rows, shopId)
    }

    method Post(body: StaffBody, newId: string) returns (resp: Response<Staff>)
      requires Valid()
      modifies this
      ensures Valid()
      ensures (rows, resp) == Create(old(rows), body, newId)
    {
      var r := Create(rows, body, newId);
      if r.1.Ok? {
        AppendUniqueIds(rows, r.1.data, StaffId);
      }
      rows, resp := r.0, r.1;
    }

    method Put(body: StaffBody) returns (resp: Response<Staff>)
      requires Valid()
      modifies this
      ensures Valid()
      ensures (rows, resp) == Update(old(rows), body)
    {
      var r := Update(rows, body);
      forall i, j | 0 <= i < j < |r.0| ensures r.0[i].id != r.0[j].id {
        assert r.0[i].id == rows[i].id && r.0[j].id == rows[j].id;
      }
      rows, resp := r.0, r.1;
    }

    method Delete(id: string) returns (resp: Response<()>)
      requires Valid()
      modifies this
      ensures Valid()
      ensures (rows, resp) == Deleted(old(rows), id)
    {
      if id == "" {
        return BadRequest("id is required");
      }
      FilterUniqueIds(rows, (s: Staff) => s.id != id, StaffId);
      rows := Filter(rows, (s: Staff) => s.id != id);
      resp := Ok(());
    }
  }
}
