/** The menu editor: the shop's categories and menus, kept in local lists
    that follow each route call, and the menu edit sheet. */
module MenuPage {
  import opened Common
  import opened Types
  import MenusRoute

  /** The name `addMenu` gives a new menu. */
  const NewMenuName: string := "新規メニュー"

  /** The body `addCategory` posts. */
  function CategoryRequest(shopId: string, name: string): (b: MenusRoute.MenuBody)
    ensures b.kind == "category" && b.shopId == Some(shopId) && b.name == Some(name)
  {
    MenusRoute.MenuBody("category", None, Some(shopId), None, Some(name), None, None, "")
  }

  /** The body `addMenu` posts: no `type`, price 0, the default name. */
  function MenuRequest(shopId: string, categoryId: string): (b: MenusRoute.MenuBody)
    ensures b.kind != "category"
    ensures b.shopId == Some(shopId) && b.categoryId == Some(categoryId)
    ensures b.name == Some(NewMenuName) && b.price == Some(0) && b.duration.None? && b.description == ""
  {
    MenusRoute.MenuBody("", None, Some(shopId), Some(categoryId), Some(NewMenuName), Some(0), None, "")
  }

  /** `JSON.stringify(editingMenu)` as the route reads it: every field of
      the menu, no `type`, and a NULL description read as empty. */
  function EditRequest(m: Menu): (b: MenusRoute.MenuBody)
    ensures b.kind != "category" && b.id == Some(m.id)
    ensures b.name == Some(m.name) && b.price == Some(m.price) && b.duration == m.duration
    ensures NullIfEmpty(b.description) == NullIfEmpty(m.description.GetOr(""))
  {
    MenusRoute.MenuBody("", Some(m.id), Some(m.shopId), Some(m.categoryId), Some(m.name), Some(m.price),
      m.duration, m.description.GetOr(""))
  }

  /** `parseInt(value) || 0` for the price field; `parsed` is parseInt's
      answer, None for NaN. */
  function PriceInput(parsed: Option<int>): (price: int)
    ensures parsed.Some? ==> price == parsed.value
    ensures parsed.None? ==> price == 0
  {
    if parsed.Some? && parsed.value != 0 then parsed.value else 0
  }

  class MenuEditor {
    var shopId: string
    var categories: seq<Category>
    var menus: seq<Menu>
    var newCategoryName: string
    var showAddCategory: bool
    var editingMenu: Option<Menu>

    constructor()
      ensures shopId == "" && categories == [] && menus == []
      ensures newCategoryName == "" && !showAddCategory && editingMenu.None?
    {
      shopId, categories, menus := "", [], [];
      newCategoryName, showAddCategory, editingMenu := "", false, None;
    }

    /** `fetchShopAndMenus`, given the first shop's id (if the listing had
        one) and the answer of `GET /api/menus?shopId=`. */
    method Load(firstShopId: Option<string>, view: Response<(seq<Category>, seq<Menu>)>)
      modifies this`shopId, this`categories, this`menus
      ensures shopId == (if firstShopId.Some? then firstShopId.value else old(shopId))
      ensures firstShopId.Some? && view.Ok? ==> categories == view.data.0 && menus == view.data.1
      ensures firstShopId.None? || !view.Ok? ==> categories == old(categories) && menus == old(menus)
    {
      if firstShopId.Some? {
        shopId := firstShopId.value;
        if view.Ok? {
          categories, menus := view.data.0, view.data.1;
        }
      }
    }

    /** `addCategory`: a blank name or a missing shop sends nothing. The
        route's answer is `resp`; on success the category is appended and
        the input is cleared and closed. */
    method AddCategory(resp: Response<Category>) returns (sent: Option<MenusRoute.MenuBody>)
      modifies this`categories, this`newCategoryName, this`showAddCategory
      ensures sent.None? <==> Trim(old(newCategoryName)) == "" || shopId == ""
      ensures sent.Some? ==> sent.value == CategoryRequest(shopId, old(newCategoryName))
      ensures sent.Some? && resp.Ok? ==> categories == old(categories) + [resp.data] && newCategoryName == "" && !showAddCategory
      ensures sent.None? || !resp.Ok? ==>
        categories == old(categories) && newCategoryName == old(newCategoryName) && showAddCategory == old(showAddCategory)
    {
      if Trim(newCategoryName) == "" || shopId == "" {
        return None;
      }
      sent := Some(CategoryRequest(shopId, newCategoryName));
      if resp.Ok? {
        categories := categories + [resp.data];
        newCategoryName, showAddCategory := "", false;
      }
    }

    /** `deleteCategory(id)`: after confirmation, the category and every
        menu in it leave the local lists. */
    method DeleteCategory(id: string, confirmed: bool)
      modifies this`categories, this`menus
      ensures !confirmed ==> categories == old(categories) && menus == old(menus)
      ensures confirmed ==> categories == Filter(old(categories), (c: Category) => c.id != id)
      ensures confirmed ==> menus == Filter(old(menus), (m: Menu) => m.categoryId != id)
    {
      if !confirmed {
        return;
      }
      categories := Filter(categories, (c: Category) => c.id != id);
      menus := Filter(menus, (m: Menu) => m.categoryId != id);
    }

    /** `addMenu(categoryId)`: on success the new menu is appended and
        opened in the edit sheet. */
    method AddMenu(categoryId: string, resp: Response<Menu>) returns (sent: MenusRoute.MenuBody)
      modifies this`menus, this`editingMenu
      ensures sent == MenuRequest(shopId, categoryId)
      ensures resp.Ok? ==> menus == old(menus) + [resp.data] && editingMenu == Some(resp.data)
      ensures !resp.Ok? ==> menus == old(menus) && editingMenu == old(editingMenu)
    {
      sent := MenuRequest(shopId, categoryId);
      if resp.Ok? {
        menus := menus + [resp.data];
        editingMenu := Some(resp.data);
      }
    }

    /** The edit sheet's price field. */
    method EditPrice(parsed: Option<int>)
      modifies this`editingMenu
      ensures editingMenu == if old(editingMenu).Some? then Some(old(editingMenu).value.(price := PriceInput(parsed))) else old(editingMenu)
    {
      if editingMenu.Some? {
        editingMenu := Some(editingMenu.value.(price := PriceInput(parsed)));
      }
    }

    /** The edit sheet's duration field. */
    method EditDuration(parsed: Option<int>)
      modifies this`editingMenu
      ensures editingMenu == if old(editingMenu).Some? then Some(old(editingMenu).value.(duration := NullIfZero(parsed))) else old(editingMenu)
    {
      if editingMenu.Some? {
        editingMenu := Some(editingMenu.value.(duration := NullIfZero(parsed)));
      }
    }

    /** `updateMenu`: sends the menu being edited; on success the row with
        its id is replaced by the route's answer and the sheet closes. */
    method UpdateMenu(resp: Response<Menu>) returns (sent: Option<MenusRoute.MenuBody>)
      modifies this`menus, this`editingMenu
      ensures old(editingMenu).None? <==> sent.None?
      ensures sent.Some? ==> sent.value == EditRequest(old(editingMenu).value)
      ensures sent.Some? && resp.Ok? ==>
        menus == ReplaceByKey(old(menus), MenusRoute.MenuId, old(editingMenu).value.id, resp.data) && editingMenu.None?
      ensures sent.None? || !resp.Ok? ==> menus == old(menus) && editingMenu == old(editingMenu)
    {
      if editingMenu.None? {
        return None;
      }
      var m := editingMenu.value;
      sent := Some(EditRequest(m));
      if resp.Ok? {
        menus := ReplaceByKey(menus, MenusRoute.MenuId, m.id, resp.data);
        editingMenu := None;
      }
    }

    /** `deleteMenu(id)`: after confirmation, only that menu leaves. */
    method DeleteMenu(id: string, confirmed: bool)
      modifies this`menus
      ensures !confirmed ==> menus == old(menus)
      ensures confirmed ==> menus == Filter(old(menus), (m: Menu) => m.id != id)
    {
      if confirmed {
        menus := Filter(menus, (m: Menu) => m.id != id);
      }
    }
  }

  /** The local category delete removes what the route's category delete
      removes from the same lists. */
  lemma LocalCategoryDeleteMatchesRoute(categories: seq<Category>, menus: seq<Menu>, id: string)
    requires id != ""
    ensures var r := MenusRoute.Deleted(categories, menus, id, "category");
      (forall c :: c in r.0 <==> c in Filter(categories, (c: Category) => c.id != id)) &&
      (forall m :: m in r.1 <==> m in Filter(menus, (m: Menu) => m.categoryId != id))
  {
  }

  /** When the page's list is the table, replacing the edited row by the
      route's answer gives exactly the table after the `PUT`. */
  lemma {:induction false} LocalUpdateMatchesRoute(menus: seq<Menu>, m: Menu)
    requires UniqueIds(menus, MenusRoute.MenuId)
    requires MenusRoute.UpdateMenu(menus, EditRequest(m)).1.Ok?
    ensures var r := MenusRoute.UpdateMenu(menus, EditRequest(m));
      ReplaceByKey(menus, MenusRoute.MenuId, m.id, r.1.data) == r.0
  {
    var r := MenusRoute.UpdateMenu(menus, EditRequest(m));
    ReplaceByAnswer(menus, r.0, MenusRoute.MenuId, m.id, r.1.data);
  }

  /** A menu added from the page is numbered after every menu of its
      category in that shop. */
  lemma AddedMenuComesLast(menus: seq<Menu>, shopId: string, categoryId: string, newId: string)
    requires MenusRoute.CreateMenu(menus, MenuRequest(shopId, categoryId), newId).1.Ok?
    ensures var added := MenusRoute.CreateMenu(menus, MenuRequest(shopId, categoryId), newId).1.data;
      added.name == NewMenuName && added.price == 0 && added.duration.None? && added.description.None? &&
      forall x :: x in menus && x.shopId == shopId && x.categoryId == categoryId ==> x.displayOrder < added.displayOrder
  {
  }
}
