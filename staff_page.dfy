/** The staff editor: the shop's staff list and the edit sheet of one
    member, whose photo is read from a chosen file. */
module StaffPage {
  import opened Common
  import opened Types
  import StaffRoute

  /** The name `addStaff` gives a new member. */
  const NewStaffName: string := "新しいスタッフ"

  /** The body `addStaff` posts: the shop and the default name only. */
  function AddRequest(shopId: string): (b: StaffRoute.StaffBody)
    ensures b.id.None? && b.shopId == Some(shopId) && b.name == Some(NewStaffName)
    ensures b.role == "" && b.image == "" && b.description == ""
  {
    StaffRoute.StaffBody(None, Some(shopId), Some(NewStaffName), "", "", "")
  }

  /** `JSON.stringify(editingStaff)` as the route reads it; a NULL field
      reads as empty. */
  function EditRequest(s: Staff): (b: StaffRoute.StaffBody)
    ensures b.id == Some(s.id) && b.shopId == Some(s.shopId) && b.name == Some(s.name)
    ensures b.role == s.role.GetOr("") && b.image == s.image.GetOr("") && b.description == s.description.GetOr("")
  {
    StaffRoute.StaffBody(Some(s.id), Some(s.shopId), Some(s.name), s.role.GetOr(""), s.image.GetOr(""),
      s.description.GetOr(""))
  }

  class StaffEditor {
    var shopId: string
    var staffList: seq<Staff>
    var editingStaff: Option<Staff>

    constructor()
      ensures shopId == "" && staffList == [] && editingStaff.None?
    {
      shopId, staffList, editingStaff := "", [], None;
    }

    /** `fetchData`, given the first shop's id and the answer of
        `GET /api/staff?shopId=`. */
    method Load(firstShopId: Option<string>, view: Response<seq<Staff>>)
      modifies this`shopId, this`staffList
      ensures shopId == (if firstShopId.Some? then firstShopId.value else old(shopId))
      ensures staffList == (if firstShopId.Some? && view.Ok? then view.data else old(staffList))
    {
      if firstShopId.Some? {
        shopId := firstShopId.value;
        if view.Ok? {
          staffList := view.data;
        }
      }
    }

    /** `addStaff`: on success the new member is appended and opened for
        editing. */
    method AddStaff(resp: Response<Staff>) returns (sent: StaffRoute.StaffBody)
      modifies this`staffList, this`editingStaff
      ensures sent == AddRequest(shopId)
      ensures resp.Ok? ==> staffList == old(staffList) + [resp.data] && editingStaff == Some(resp.data)
      ensures !resp.Ok? ==> staffList == old(staffList) && editingStaff == old(editingStaff)
    {
      sent := AddRequest(shopId);
      if resp.Ok? {
        staffList := staffList + [resp.data];
        editingStaff := Some(resp.data);
      }
    }

    /** `updateStaff`: sends the member being edited; on success the entry
        with its id becomes the route's answer and the sheet closes. */
    method UpdateStaff(resp: Response<Staff>) returns (sent: Option<StaffRoute.StaffBody>)
      modifies this`staffList, this`editingStaff
      ensures old(editingStaff).None? <==> sent.None?
      ensures sent.Some? ==> sent.value == EditRequest(old(editingStaff).value)
      ensures sent.Some? && resp.Ok? ==>
        staffList == ReplaceByKey(old(staffList), StaffRoute.StaffId, old(editingStaff).value.id, resp.data) &&
        editingStaff.None?
      ensures sent.None? || !resp.Ok? ==> staffList == old(staffList) && editingStaff == old(editingStaff)
    {
      if editingStaff.None? {
        return None;
      }
      var s := editingStaff.value;
      sent := Some(EditRequest(s));
      if resp.Ok? {
        staffList := ReplaceByKey(staffList, StaffRoute.StaffId, s.id, resp.data);
        editingStaff := None;
      }
    }

    /** `deleteStaff(id)`: after confirmation, only that member leaves. */
    method DeleteStaff(id: string, confirmed: bool)
      modifies this`staffList
      ensures staffList == if confirmed then Filter(old(staffList), (s: Staff) => s.id != id) else old(staffList)
    {
      if confirmed {
        staffList := Filter(staffList, (s: Staff) => s.id != id);
      }
    }

    /** `handleImageSelect`: with a chosen file and a member being edited, a
        non-empty data URL from the reader becomes that member's image.
        Nothing else changes. */
    method ImageSelect(hasFile: bool, dataUrl: Option<string>)
      modifies this`editingStaff
      ensures !hasFile || old(editingStaff).None? || dataUrl.None? || dataUrl.value == "" ==>
        editingStaff == old(editingStaff)
      ensures hasFile && old(editingStaff).Some? && dataUrl.Some? && dataUrl.value != "" ==>
        editingStaff == Some(old(editingStaff).value.(image := dataUrl))
    {
      if !hasFile || editingStaff.None? {
        return;
      }
      if dataUrl.Some? && dataUrl.value != "" {
        editingStaff := Some(editingStaff.value.(image := dataUrl));
      }
    }
  }

  /** A photo picked in the sheet and saved is the photo the table keeps. */
  lemma PickedImageIsStored(rows: seq<Staff>, s: Staff, dataUrl: string)
    requires dataUrl != ""
    requires StaffRoute.Update(rows, EditRequest(s.(image := Some(dataUrl)))).1.Ok?
    ensures StaffRoute.Update(rows, EditRequest(s.(image := Some(dataUrl)))).1.data.image == Some(dataUrl)
  {
    var r := StaffRoute.Update(rows, EditRequest(s.(image := Some(dataUrl))));
    var j :| 0 <= j < |r.0| && r.0[j] == r.1.data;
    assert rows[j].id == s.id;
  }

  /** When the page's list is the table, replacing the edited member by the
      route's answer gives exactly the table after the `PUT`. */
  lemma LocalUpdateMatchesRoute(rows: seq<Staff>, s: Staff)
    requires UniqueIds(rows, StaffRoute.StaffId)
    requires StaffRoute.Update(rows, EditRequest(s)).1.Ok?
    ensures var r := StaffRoute.Update(rows, EditRequest(s));
      ReplaceByKey(rows, StaffRoute.StaffId, s.id, r.1.data) == r.0
  {
    var r := StaffRoute.Update(rows, EditRequest(s));
    ReplaceByAnswer(rows, r.0, StaffRoute.StaffId, s.id, r.1.data);
  }

  /** A member added from the page has no role, photo or description, and
      comes after every member of the shop. */
  lemma AddedStaffComesLast(rows: seq<Staff>, shopId: string, newId: string)
    requires StaffRoute.Create(rows, AddRequest(shopId), newId).1.Ok?
    ensures var added := StaffRoute.Create(rows, AddRequest(shopId), newId).1.data;
      added.name == NewStaffName && added.role.None? && added.image.None? && added.description.None? &&
      forall x :: x in rows && x.shopId == shopId ==> x.displayOrder < added.displayOrder
  {
  }
}
