/** The admin screens' bottom tab bar: five fixed tabs, and which one is
    highlighted for the current path. */
module TabNavigation {
  import opened Common

  datatype Tab = Tab(name: string, href: string)

  const HomeHref: string := "/admin"

  /** `tabs`, in display order: home, posts, pages, links, settings. */
  function Tabs(): (ts: seq<Tab>)
    ensures |ts| == 5
    ensures ts[0].href == HomeHref && ts[1].href == "/admin/posts" && ts[2].href == "/admin/pages"
    ensures ts[3].href == "/admin/links" && ts[4].href == "/admin/settings"
    ensures forall i :: 0 <= i < |ts| ==> StartsWith(ts[i].href, HomeHref)
  {
    [ Tab("ホーム", HomeHref),
      Tab("投稿", "/admin/posts"),
      Tab("ページ", "/admin/pages"),
      Tab("導線", "/admin/links"),
      Tab("設定", "/admin/settings") ]
  }

  /** `pathname === tab.href || (tab.href !== '/admin' && pathname.startsWith(tab.href))`. */
  predicate IsActive(pathname: string, href: string) {
    pathname == href || (href != HomeHref && StartsWith(pathname, href))
  }

  /** The home tab lights up on `/admin` itself and nowhere else. */
  lemma HomeActiveOnlyOnExactPath(pathname: string)
    ensures IsActive(pathname, HomeHref) <==> pathname == HomeHref
  {
  }

  /** Any other tab lights up on every path that starts with its href,
      with no check for a segment boundary. */
  lemma OtherTabsMatchByPrefix(pathname: string, i: nat)
    requires 0 < i < |Tabs()|
    ensures IsActive(pathname, Tabs()[i].href) <==> StartsWith(pathname, Tabs()[i].href)
  {
  }

  /** Two prefixes of one path: the shorter is a prefix of the longer. */
  lemma PrefixesNest(pathname: string, a: string, b: string)
    requires StartsWith(pathname, a) && StartsWith(pathname, b) && |a| <= |b|
    ensures StartsWith(b, a)
  {
    assert b[..|a|] == pathname[..|b|][..|a|];
  }

  /** No href of the tabs after home is a prefix of another tab's href. */
  lemma HrefsArePrefixFree(i: nat, j: nat)
    requires 0 < i < |Tabs()| && 0 < j < |Tabs()| && i != j
    ensures !StartsWith(Tabs()[j].href, Tabs()[i].href)
  {
    var a, b := Tabs()[i].href, Tabs()[j].href;
    assert a[7] != b[7] || a[8] != b[8];
  }

  /** At most one tab is highlighted for any path. */
  lemma AtMostOneActive(pathname: string, i: nat, j: nat)
    requires i < |Tabs()| && j < |Tabs()| && i != j
    requires IsActive(pathname, Tabs()[i].href)
    ensures !IsActive(pathname, Tabs()[j].href)
  {
    var a, b := Tabs()[i].href, Tabs()[j].href;
    if IsActive(pathname, b) && i != 0 && j != 0 {
      assert StartsWith(pathname, a) && StartsWith(pathname, b);
      if |a| <= |b| {
        PrefixesNest(pathname, a, b);
        HrefsArePrefixFree(i, j);
      } else {
        PrefixesNest(pathname, b, a);
        HrefsArePrefixFree(j, i);
      }
    }
  }

  /** The first highlighted tab at or after `from`. */
  function FirstActive(pathname: string, from: nat): (r: Option<nat>)
    requires from <= |Tabs()|
    ensures r.Some? ==> from <= r.value < |Tabs()| && IsActive(pathname, Tabs()[r.value].href)
    ensures r.None? ==> forall k :: from <= k < |Tabs()| ==> !IsActive(pathname, Tabs()[k].href)
    decreases |Tabs()| - from
  {
    if from == |Tabs()| then None
    else if IsActive(pathname, Tabs()[from].href) then Some(from)
    else FirstActive(pathname, from + 1)
  }

  /** The highlighted tab, if any: it is the only one. */
  function ActiveTab(pathname: string): (r: Option<nat>)
    ensures r.None? <==> forall k :: 0 <= k < |Tabs()| ==> !IsActive(pathname, Tabs()[k].href)
    ensures r.Some? ==> r.value < |Tabs()| && IsActive(pathname, Tabs()[r.value].href)
    ensures r.Some? ==> forall k :: 0 <= k < |Tabs()| && k != r.value ==> !IsActive(pathname, Tabs()[k].href)
  {
    var r := FirstActive(pathname, 0);
    if r.Some? then
      OthersInactive(pathname, r.value);
      r
    else r
  }

  /** Once one tab is highlighted, every other tab is not. */
  lemma OthersInactive(pathname: string, i: nat)
    requires i < |Tabs()| && IsActive(pathname, Tabs()[i].href)
    ensures forall k :: 0 <= k < |Tabs()| && k != i ==> !IsActive(pathname, Tabs()[k].href)
  {
    forall k | 0 <= k < |Tabs()| && k != i
      ensures !IsActive(pathname, Tabs()[k].href)
    {
      AtMostOneActive(pathname, i, k);
    }
  }

  /** The new-post screen keeps the posts tab highlighted. */
  lemma NewPostHighlightsPosts()
    ensures ActiveTab("/admin/posts/new") == Some(1)
  {
    assert IsActive("/admin/posts/new", Tabs()[1].href);
  }

  /** With no boundary check, a path that merely continues an href's text
      highlights that tab too. */
  lemma PrefixWithoutBoundaryHighlights()
    ensures ActiveTab("/admin/postscript") == Some(1)
  {
    assert IsActive("/admin/postscript", Tabs()[1].href);
  }

  /** A path outside the admin screens highlights nothing. */
  lemma OutsideAdminHighlightsNothing(pathname: string)
    requires !StartsWith(pathname, HomeHref)
    ensures ActiveTab(pathname).None?
  {
    forall k | 0 <= k < |Tabs()| ensures !IsActive(pathname, Tabs()[k].href) {
      if IsActive(pathname, Tabs()[k].href) {
        PrefixesNest(pathname, HomeHref, Tabs()[k].href);
      }
    }
  }
}
