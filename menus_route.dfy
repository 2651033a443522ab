/** The `/api/menus` route: menu categories and the menus inside them. New
    rows are appended after the largest `display_order` in their scope (the
    shop for a category, the shop and category for a menu); deleting a
    category first deletes its menus. */
module MenusRoute {
  import opened Common
  import opened Types
  import opened Ordering

  /** The JSON body of `POST` and `PUT`; fields the client left out are None.
      `kind` is the body's `type`. */
  datatype MenuBody = MenuBody(
    kind: string,
    id: Option<string>,
    shopId: Option<string>,
    categoryId: Option<string>,
    name: Option<string>,
    price: Option<int>,
    duration: Option<int>,
    description: string)

  /** The row a `POST` or `PUT` answers with. */
  datatype Saved = SavedCategory(category: Category) | SavedMenu(menu: Menu)

  function CategoryId(c: Category): string { c.id }
  function MenuId(m: Menu): string { m.id }
  predicate ByDisplayOrder<T>(order: T -> int, a: T, b: T) { order(a) <= order(b) }
  function CategoryOrder(c: Category): int { c.displayOrder }
  function MenuOrder(m: Menu): int { m.displayOrder }

  function NewCategoryOrder(categories: seq<Category>, shopId: string): int {
    NextOrderIn(categories, (c: Category) => c.shopId == shopId, CategoryOrder)
  }

  function NewMenuOrder(menus: seq<Menu>, shopId: string, categoryId: string): int {
    NextOrderIn(menus, (m: Menu) => m.shopId == shopId && m.categoryId == categoryId, MenuOrder)
  }

  // ---------------------------------------------------------------------------
  // POST

  /** `POST` with `type: 'category'`. The insert fails (500) when `shopId` or
      `name` is missing (NOT NULL columns) or the generated id is taken. */
  function CreateCategory(categories: seq<Category>, body: MenuBody, newId: string): (r: (seq<Category>, Response<Category>))
    ensures r.1.Ok? <==> body.shopId.Some? && body.name.Some? && newId !in Ids(categories, CategoryId)
    ensures !r.1.Ok? ==> r.0 == categories && r.1.ServerError?
    ensures r.1.Ok? ==> r.0 == categories + [r.1.data]
    ensures r.1.Ok? ==> r.1.data.id == newId && Some(r.1.data.shopId) == body.shopId && Some(r.1.data.name) == body.name
    ensures r.1.Ok? ==> forall c :: c in categories && c.shopId == r.1.data.shopId ==> c.displayOrder < r.1.data.displayOrder
    ensures r.1.Ok? && (forall c :: c in categories ==> c.shopId != r.1.data.shopId) ==> r.1.data.displayOrder == 1
  {
    if body.shopId.None? || body.name.None? || newId in Ids(categories, CategoryId) then
      (categories, ServerError("Failed to create menu"))
    else
      var c := Category(newId, body.shopId.value, body.name.value, NewCategoryOrder(categories, body.shopId.value));
      (categories + [c], Ok(c))
  }

  /** `POST` of a menu. The insert fails (500) when `shopId`, `categoryId`,
      `name` or `price` is missing or the generated id is taken; a zero or
      missing duration and an empty description are stored as NULL. */
  function CreateMenu(menus: seq<Menu>, body: MenuBody, newId: string): (r: (seq<Menu>, Response<Menu>))
    ensures r.1.Ok? <==> (body.shopId.Some? && body.categoryId.Some? && body.name.Some? && body.price.Some? &&
      newId !in Ids(menus, MenuId))
    ensures !r.1.Ok? ==> r.0 == menus && r.1.ServerError?
    ensures r.1.Ok? ==> r.0 == menus + [r.1.data]
    ensures r.1.Ok? ==> var m := r.1.data;
      m.id == newId && Some(m.shopId) == body.shopId && Some(m.categoryId) == body.categoryId &&
      Some(m.name) == body.name && Some(m.price) == body.price &&
      m.duration == NullIfZero(body.duration) && m.description == NullIfEmpty(body.description)
    ensures r.1.Ok? ==> forall m :: m in menus && m.shopId == r.1.data.shopId && m.categoryId == r.1.data.categoryId ==>
      m.displayOrder < r.1.data.displayOrder
    ensures r.1.Ok? && (forall m :: m in menus ==> m.shopId != r.1.data.shopId || m.categoryId != r.1.data.categoryId) ==>
      r.1.data.displayOrder == 1
  {
    if body.shopId.None? || body.categoryId.None? || body.name.None? || body.price.None? || newId in Ids(menus, MenuId) then
      (menus, ServerError("Failed to create menu"))
    else
      var m := Menu(newId, body.shopId.value, body.categoryId.value, body.name.value, body.price.value,
        NullIfZero(body.duration), NullIfEmpty(body.description),
        NewMenuOrder(menus, body.shopId.value, body.categoryId.value));
      (menus + [m], Ok(m))
  }

  /** Menus are numbered per category: menus of other categories or shops
      do not change the order a new menu receives. */
  lemma MenuOrderIsPerCategory(menus: seq<Menu>, others: seq<Menu>, shopId: string, categoryId: string)
    requires forall i :: 0 <= i < |others| ==> others[i].shopId != shopId || others[i].categoryId != categoryId
    ensures NewMenuOrder(menus + others, shopId, categoryId) == NewMenuOrder(menus, shopId, categoryId)
  {
    NextOrderIgnoresOutOfScope(menus, others, (m: Menu) => m.shopId == shopId && m.categoryId == categoryId, MenuOrder);
  }

  // ---------------------------------------------------------------------------
  // PUT

  /** `PUT` with `type: 'category'`: renames the category with that id. With
      no such row the handler formats a missing row and fails with 500; a
      missing name violates NOT NULL, also 500. */
  function UpdateCategory(categories: seq<Category>, body: MenuBody): (r: (seq<Category>, Response<Category>))
    ensures r.1.Ok? <==> body.id.Some? && body.id.value in Ids(categories, CategoryId) && body.name.Some?
    ensures !r.1.Ok? ==> r.0 == categories && r.1.ServerError?
    ensures |r.0| == |categories|
    ensures r.1.Ok? ==> forall i :: 0 <= i < |categories| ==>
      r.0[i] == if categories[i].id == body.id.value then categories[i].(name := body.name.value) else categories[i]
    ensures r.1.Ok? ==> r.1.data.id == body.id.value && r.1.data.name == body.name.value && r.1.data in r.0
  {
    if body.id.None? || body.id.value !in Ids(categories, CategoryId) || body.name.None? then
      (categories, ServerError("Failed to update menu"))
    else
      var id, name := body.id.value, body.name.value;
      var after := MapWhere(categories, (c: Category) => c.id == id, (c: Category) => c.(name := name));
      match FindBy(after, CategoryId, id)
      case Some(c) => (after, Ok(c))
      case None => (categories, ServerError("Failed to update menu"))
  }

  /** `PUT` of a menu: overwrites name, price, duration and description of
      the menu with that id and nothing else. */
  function UpdateMenu(menus: seq<Menu>, body: MenuBody): (r: (seq<Menu>, Response<Menu>))
    ensures r.1.Ok? <==> body.id.Some? && body.id.value in Ids(menus, MenuId) && body.name.Some? && body.price.Some?
    ensures !r.1.Ok? ==> r.0 == menus && r.1.ServerError?
    ensures |r.0| == |menus|
    ensures r.1.Ok? ==> forall i :: 0 <= i < |menus| ==>
      r.0[i] == if menus[i].id == body.id.value
        then menus[i].(name := body.name.value, price := body.price.value,
                       duration := NullIfZero(body.duration), description := NullIfEmpty(body.description))
        else menus[i]
    ensures r.1.Ok? ==> r.1.data.id == body.id.value && r.1.data in r.0
  {
    if body.id.None? || body.id.value !in Ids(menus, MenuId) || body.name.None? || body.price.None? then
      (menus, ServerError("Failed to update menu"))
    else
      var id := body.id.value;
      var after := MapWhere(menus, (m: Menu) => m.id == id,
        (m: Menu) => m.(name := body.name.value, price := body.price.value,
                        duration := NullIfZero(body.duration), description := NullIfEmpty(body.description)));
      match FindBy(after, MenuId, id)
      case Some(m) => (after, Ok(m))
      case None => (menus, ServerError("Failed to update menu"))
  }

  /** A category `PUT` never changes an id, so the primary key stays unique. */
  lemma UpdateCategoryKeepsUniqueIds(categories: seq<Category>, body: MenuBody)
    requires UniqueIds(categories, CategoryId)
    ensures UniqueIds(UpdateCategory(categories, body).0, CategoryId)
  {
    var r := UpdateCategory(categories, body);
    forall i, j | 0 <= i < j < |r.0| ensures r.0[i].id != r.0[j].id {
      assert r.0[i].id == categories[i].id && r.0[j].id == categories[j].id;
    }
  }

  /** A menu `PUT` never changes an id, so the primary key stays unique. */
  lemma UpdateMenuKeepsUniqueIds(menus: seq<Menu>, body: MenuBody)
    requires UniqueIds(menus, MenuId)
    ensures UniqueIds(UpdateMenu(menus, body).0, MenuId)
  {
    var r := UpdateMenu(menus, body);
    forall i, j | 0 <= i < j < |r.0| ensures r.0[i].id != r.0[j].id {
      assert r.0[i].id == menus[i].id && r.0[j].id == menus[j].id;
    }
  }

  // ---------------------------------------------------------------------------
  // DELETE and GET

  /** `DELETE ?id=&type=`. An empty id is 400. With `type=category` the
      category's menus go first, then the category; otherwise the menu with
      that id goes. Nothing else is removed and the rest keep their order. */
  function Deleted(categories: seq<Category>, menus: seq<Menu>, id: string, kind: string)
    : (r: (seq<Category>, seq<Menu>, Response<()>))
    ensures id == "" <==> r.2.BadRequest?
    ensures id == "" ==> r.0 == categories && r.1 == menus
    ensures !r.2.ServerError?
    ensures id != "" && kind == "category" ==>
      (forall c :: c in r.0 <==> c in categories && c.id != id) &&
      (forall m :: m in r.1 <==> m in menus && m.categoryId != id)
    ensures id != "" && kind == "category" ==>
      (forall c :: multiset(r.0)[c] == if c.id != id then multiset(categories)[c] else 0) &&
      (forall m :: multiset(r.1)[m] == if m.categoryId != id then multiset(menus)[m] else 0)
    ensures id != "" && kind == "category" ==>
      (forall before :: InOrder(categories, before) ==> InOrder(r.0, before)) &&
      (forall before :: InOrder(menus, before) ==> InOrder(r.1, before))
    ensures id != "" && kind != "category" ==>
      r.0 == categories && forall m :: m in r.1 <==> m in menus && m.id != id
    ensures id != "" && kind != "category" ==>
      (forall m :: multiset(r.1)[m] == if m.id != id then multiset(menus)[m] else 0) &&
      (forall before :: InOrder(menus, before) ==> InOrder(r.1, before))
  {
    if id == "" then (categories, menus, BadRequest("id is required"))
    else if kind == "category" then
      var keepCategory := (c: Category) => c.id != id;
      var keepMenu := (m: Menu) => m.categoryId != id;
      FilterCounts(categories, keepCategory);
      FilterKeepsOrders(categories, keepCategory);
      FilterCounts(menus, keepMenu);
      FilterKeepsOrders(menus, keepMenu);
      (Filter(categories, keepCategory), Filter(menus, keepMenu), Ok(()))
    else
      var keepMenu := (m: Menu) => m.id != id;
      FilterCounts(menus, keepMenu);
      FilterKeepsOrders(menus, keepMenu);
      (categories, Filter(menus, keepMenu), Ok(()))
  }

  /** After a category delete no remaining menu points at the category. */
  lemma DeleteCategoryLeavesNoOrphans(categories: seq<Category>, menus: seq<Menu>, id: string)
    requires id != ""
    ensures var r := Deleted(categories, menus, id, "category");
      forall m :: m in r.1 ==> m.categoryId != id && !(exists c :: c in r.0 && c.id == m.categoryId && c.id == id)
  {
  }

  /** `GET ?shopId=`: the shop's categories and menus, each sorted by
      `display_order`; an empty shopId is 400. */
  function Get(categories: seq<Category>, menus: seq<Menu>, shopId: string): (r: Response<(seq<Category>, seq<Menu>)>)
    ensures r.BadRequest? <==> shopId == ""
    ensures shopId != "" ==> r.Ok?
    ensures r.Ok? ==> SortedBy(r.data.0, (a, b) => ByDisplayOrder(CategoryOrder, a, b))
    ensures r.Ok? ==> SortedBy(r.data.1, (a, b) => ByDisplayOrder(MenuOrder, a, b))
    ensures r.Ok? ==> forall c :: c in r.data.0 <==> c in categories && c.shopId == shopId
    ensures r.Ok? ==> forall m :: m in r.data.1 <==> m in menus && m.shopId == shopId
    ensures r.Ok? ==> forall c :: multiset(r.data.0)[c] == if c.shopId == shopId then multiset(categories)[c] else 0
    ensures r.Ok? ==> forall m :: multiset(r.data.1)[m] == if m.shopId == shopId then multiset(menus)[m] else 0
  {
    if shopId == "" then BadRequest("shopId is required")
    else
      var le1 := (a, b) => ByDisplayOrder(CategoryOrder, a, b);
      var le2 := (a, b) => ByDisplayOrder(MenuOrder, a, b);
      assert Total(le1) && Total(le2);
      Ok((SortedWhere(categories, (c: Category) => c.shopId == shopId, le1),
          SortedWhere(menus, (m: Menu) => m.shopId == shopId, le2)))
  }

  // ---------------------------------------------------------------------------
  // The two tables

  class MenuDb {
    var categories: seq<Category>
    var menus: seq<Menu>

    /** Both tables keep their PRIMARY KEY. */
    ghost predicate Valid()
      reads this
    {
      UniqueIds(categories, CategoryId) && UniqueIds(menus, MenuId)
    }

    constructor()
      ensures Valid() && categories == [] && menus == []
    {
      categories := [];
      menus := [];
    }

    function View(shopId: string): Response<(seq<Category>, seq<Menu>)>
      reads this
    {
      Get(categories, menus, shopId)
    }

    /** `POST /api/menus` with a generated id. */
    method Post(body: MenuBody, newId: string) returns (resp: Response<Saved>)
      requires Valid()
      modifies this
      ensures Valid()
      ensures body.kind == "category" ==>
        var r := CreateCategory(old(categories), body, newId);
        categories == r.0 && menus == old(menus) && resp == r.1.Map((c: Category) => SavedCategory(c))
      ensures body.kind != "category" ==>
        var r := CreateMenu(old(menus), body, newId);
        menus == r.0 && categories == old(categories) && resp == r.1.Map((m: Menu) => SavedMenu(m))
    {
      if body.kind == "category" {
        var r := CreateCategory(categories, body, newId);
        if r.1.Ok? {
          AppendUniqueIds(categories, r.1.data, CategoryId);
        }
        categories := r.0;
        resp := r.1.Map((c: Category) => SavedCategory(c));
      } else {
        var r := CreateMenu(menus, body, newId);
        if r.1.Ok? {
          AppendUniqueIds(menus, r.1.data, MenuId);
        }
        menus := r.0;
        resp := r.1.Map((m: Menu) => SavedMenu(m));
      }
    }

    /** `PUT /api/menus`. */
    method Put(body: MenuBody) returns (resp: Response<Saved>)
      requires Valid()
      modifies this
      ensures Valid()
      ensures body.kind == "category" ==>
        var r := UpdateCategory(old(categories), body);
        categories == r.0 && menus == old(menus) && resp == r.1.Map((c: Category) => SavedCategory(c))
      ensures body.kind != "category" ==>
        var r := UpdateMenu(old(menus), body);
        menus == r.0 && categories == old(categories) && resp == r.1.Map((m: Menu) => SavedMenu(m))
    {
      if body.kind == "category" {
        var r := UpdateCategory(categories, body);
        UpdateCategoryKeepsUniqueIds(categories, body);
        categories := r.0;
        resp := r.1.Map((c: Category) => SavedCategory(c));
      } else {
        var r := UpdateMenu(menus, body);
        UpdateMenuKeepsUniqueIds(menus, body);
        menus := r.0;
        resp := r.1.Map((m: Menu) => SavedMenu(m));
      }
    }

    /** `DELETE /api/menus?id=&type=`: for a category, two deletes in turn. */
    method Delete(id: string, kind: string) returns (resp: Response<()>)
      requires Valid()
      modifies this
      ensures Valid()
      ensures (categories, menus, resp) == Deleted(old(categories), old(menus), id, kind)
    {
      if id == "" {
        return BadRequest("id is required");
      }
      if kind == "category" {
        FilterUniqueIds(menus, (m: Menu) => m.categoryId != id, MenuId);
        menus := Filter(menus, (m: Menu) => m.categoryId != id);
        FilterUniqueIds(categories, (c: Category) => c.id != id, CategoryId);
        categories := Filter(categories, (c: Category) => c.id != id);
      } else {
        FilterUniqueIds(menus, (m: Menu) => m.id != id, MenuId);
        menus := Filter(menus, (m: Menu) => m.id != id);
      }
      resp := Ok(());
    }
  }
}
