/** The public microsite page: the fixed footer of call-to-action buttons,
    which posts are shown, and the FAQ accordion. */
module PublicSite {
  import opened Common
  import opened Types
  import AnalyticsRoute

  // ---------------------------------------------------------------------------
  // Footer call-to-action buttons

  /** The settings the footer reads: the shop's own, or all three buttons
      shown when the shop has none. The fallback has no `order`. */
  function EffectiveCta(stored: Option<CtaSettings>): (s: CtaSettings)
    ensures stored.Some? ==> s == stored.value
    ensures stored.None? ==> s.showReservation && s.showLine && s.showPhone
  {
    match stored
    case Some(settings) => settings
    case None => CtaSettings(true, true, true, [])
  }

  /** One rendered button: what it is, its caption, its link, the background
      colour it is filled with (if any), and the `type` it reports to
      `/api/analytics` when tapped. */
  datatype CtaButton = CtaButton(kind: CtaKind, caption: string, href: string, background: Option<string>, reports: string)

  function PhoneButton(shop: Shop): CtaButton {
    CtaButton(Phone, "電話", "tel:" + shop.phone, None, CtaName(Phone))
  }

  /** The reservation button is the only one that depends on today's
      availability: then it reads 今すぐ予約 on the brand colour. */
  function ReservationButton(shop: Shop, url: string): CtaButton {
    CtaButton(Reservation, if shop.todayAvailable then "今すぐ予約" else "予約", url,
      if shop.todayAvailable then Some(shop.brandColor) else None, CtaName(Reservation))
  }

  function LineButton(url: string): CtaButton {
    CtaButton(Line, "LINE", url, None, CtaName(Line))
  }

  /** Position in the footer, left to right. */
  function Rank(k: CtaKind): nat {
    match k
    case Phone => 0
    case Reservation => 1
    case Line => 2
  }

  predicate Shows(buttons: seq<CtaButton>, k: CtaKind) {
    exists i :: 0 <= i < |buttons| && buttons[i].kind == k
  }

  /** A footer slot: the button when its condition holds, nothing otherwise. */
  function Slot(on: bool, b: CtaButton): (r: seq<CtaButton>)
    ensures |r| <= 1 && (r != [] <==> on) && forall x :: x in r ==> x == b
  {
    if on then [b] else []
  }

  /** Three slots of one kind each, laid out left to right: a kind is shown
      exactly when its slot is filled, and ranks strictly increase. */
  lemma SlotsInOrder(p: seq<CtaButton>, q: seq<CtaButton>, l: seq<CtaButton>)
    requires |p| <= 1 && |q| <= 1 && |l| <= 1
    requires forall x :: x in p ==> x.kind == Phone
    requires forall x :: x in q ==> x.kind == Reservation
    requires forall x :: x in l ==> x.kind == Line
    ensures Shows(p + q + l, Phone) <==> p != []
    ensures Shows(p + q + l, Reservation) <==> q != []
    ensures Shows(p + q + l, Line) <==> l != []
    ensures forall i, j :: 0 <= i < j < |p + q + l| ==> Rank((p + q + l)[i].kind) < Rank((p + q + l)[j].kind)
  {
    var r := p + q + l;
    forall i | 0 <= i < |r|
      ensures Rank(r[i].kind) == if i < |p| then 0 else if i < |p| + |q| then 1 else 2
    {
      if i < |p| {
        assert r[i] == p[i];
      } else if i < |p| + |q| {
        assert r[i] == q[i - |p|];
      } else {
        assert r[i] == l[i - |p| - |q|];
      }
    }
    if p != [] { assert r[0] == p[0]; }
    if q != [] { assert r[|p|] == q[0]; }
    if l != [] { assert r[|p| + |q|] == l[0]; }
  }

  /** The footer: phone, reservation and LINE, each when its flag is set and
      its target is non-empty, always in that order. */
  function FooterButtons(shop: Shop): (r: seq<CtaButton>)
    ensures Shows(r, Phone) <==> EffectiveCta(shop.ctaSettings).showPhone && shop.phone != ""
    ensures Shows(r, Reservation) <==> EffectiveCta(shop.ctaSettings).showReservation && Present(shop.reservationUrl)
    ensures Shows(r, Line) <==> EffectiveCta(shop.ctaSettings).showLine && Present(shop.lineUrl)
    ensures forall i, j :: 0 <= i < j < |r| ==> Rank(r[i].kind) < Rank(r[j].kind)
  {
    var s := EffectiveCta(shop.ctaSettings);
    var phone := Slot(s.showPhone && shop.phone != "", PhoneButton(shop));
    var reservation := Slot(s.showReservation && Present(shop.reservationUrl),
      ReservationButton(shop, shop.reservationUrl.GetOr("")));
    var line := Slot(s.showLine && Present(shop.lineUrl), LineButton(shop.lineUrl.GetOr("")));
    SlotsInOrder(phone, reservation, line);
    phone + reservation + line
  }

  /** The footer never reads `ctaSettings.order`: any order gives the same buttons. */
  lemma FooterIgnoresOrder(shop: Shop, order: seq<CtaKind>)
    requires shop.ctaSettings.Some?
    ensures FooterButtons(shop.(ctaSettings := Some(shop.ctaSettings.value.(order := order)))) == FooterButtons(shop)
  {
  }

  /** Targets and analytics: the phone button dials `tel:` plus the stored
      number, the other two link to the stored URL verbatim, and each button
      reports its own kind, which `/api/analytics` counts in that kind's column. */
  lemma FooterTargets(shop: Shop, b: CtaButton)
    requires b in FooterButtons(shop)
    ensures b.kind == Phone ==> b.href == "tel:" + shop.phone
    ensures b.kind == Reservation ==> Some(b.href) == shop.reservationUrl
    ensures b.kind == Line ==> Some(b.href) == shop.lineUrl
    ensures b.reports == CtaName(b.kind)
    ensures AnalyticsRoute.ColumnFor(b.reports) == Some(Counter(b.kind))
  {
  }

  /** The analytics column each kind of tap is counted in. */
  function Counter(k: CtaKind): AnalyticsRoute.Counter {
    match k
    case Reservation => AnalyticsRoute.ReservationTaps
    case Line => AnalyticsRoute.LineTaps
    case Phone => AnalyticsRoute.PhoneTaps
  }

  /** How one button differs once today's availability is `avail`: only a
      reservation button changes, and then only its caption and fill. */
  predicate AvailabilityChange(shop: Shop, avail: bool, before: CtaButton, after: CtaButton) {
    after.kind == before.kind && after.href == before.href &&
    (before.kind != Reservation ==> after == before) &&
    (before.kind == Reservation ==>
      (after.caption == if avail then "今すぐ予約" else "予約") &&
      (after.background == if avail then Some(shop.brandColor) else None))
  }

  /** Keeping the outer slots and changing the middle one changes the
      buttons position by position only where the middle slot is. */
  lemma MiddleSlotChange(shop: Shop, avail: bool, p: seq<CtaButton>, q: seq<CtaButton>, q2: seq<CtaButton>, l: seq<CtaButton>)
    requires |q| == |q2| <= 1
    requires q != [] ==> AvailabilityChange(shop, avail, q[0], q2[0])
    requires forall x :: x in p + l ==> x.kind != Reservation
    ensures forall i :: 0 <= i < |p + q + l| ==> AvailabilityChange(shop, avail, (p + q + l)[i], (p + q2 + l)[i])
  {
    var before, after := p + q + l, p + q2 + l;
    forall i | 0 <= i < |before|
      ensures AvailabilityChange(shop, avail, before[i], after[i])
    {
      if i < |p| {
        assert before[i] == p[i] == after[i];
        assert p[i] in p + l;
      } else if i < |p| + |q| {
        assert before[i] == q[0] && after[i] == q2[0];
      } else {
        assert before[i] == l[i - |p| - |q|] == after[i];
        assert l[i - |p| - |q|] in p + l;
      }
    }
  }

  /** Only the reservation button changes with today's availability: it reads
      今すぐ予約 on the brand colour when the shop has room today, 予約 with
      no fill otherwise; the phone and LINE buttons are the same either way. */
  lemma FooterAvailability(shop: Shop, avail: bool)
    ensures var before := FooterButtons(shop);
      var after := FooterButtons(shop.(todayAvailable := avail));
      |after| == |before| &&
      forall i :: 0 <= i < |before| ==> AvailabilityChange(shop, avail, before[i], after[i])
  {
    var shop2 := shop.(todayAvailable := avail);
    var s := EffectiveCta(shop.ctaSettings);
    var phone := Slot(s.showPhone && shop.phone != "", PhoneButton(shop));
    var line := Slot(s.showLine && Present(shop.lineUrl), LineButton(shop.lineUrl.GetOr("")));
    var on := s.showReservation && Present(shop.reservationUrl);
    var url := shop.reservationUrl.GetOr("");
    var rb := Slot(on, ReservationButton(shop, url));
    var ra := Slot(on, ReservationButton(shop2, url));
    assert FooterButtons(shop) == phone + rb + line;
    assert FooterButtons(shop2) == phone + ra + line;
    MiddleSlotChange(shop, avail, phone, rb, ra, line);
  }

  /** A shop with no settings at all shows every button it has a target for. */
  lemma FooterFallbackShowsAll(shop: Shop)
    requires shop.ctaSettings.None?
    requires shop.phone != "" && Present(shop.reservationUrl) && Present(shop.lineUrl)
    ensures |FooterButtons(shop)| == 3
  {
  }

  // ---------------------------------------------------------------------------
  // Posts

  predicate IsCase(p: Post) { p.postType == "case" }
  predicate IsNews(p: Post) { p.postType == "news" }

  /** `posts.filter(p => p.type === 'case')`: every case post, as often as
      it occurs, in the order the posts came in. */
  function CasePosts(posts: seq<Post>): (r: seq<Post>)
    ensures forall p :: p in r <==> p in posts && IsCase(p)
    ensures forall p :: multiset(r)[p] == if IsCase(p) then multiset(posts)[p] else 0
    ensures forall before :: InOrder(posts, before) ==> InOrder(r, before)
  {
    FilterCounts(posts, IsCase);
    FilterKeepsOrders(posts, IsCase);
    Filter(posts, IsCase)
  }

  /** `posts.filter(p => p.type === 'news')`: every news post, as often as
      it occurs, in the order the posts came in. */
  function NewsPosts(posts: seq<Post>): (r: seq<Post>)
    ensures forall p :: p in r <==> p in posts && IsNews(p)
    ensures forall p :: multiset(r)[p] == if IsNews(p) then multiset(posts)[p] else 0
    ensures forall before :: InOrder(posts, before) ==> InOrder(r, before)
  {
    FilterCounts(posts, IsNews);
    FilterKeepsOrders(posts, IsNews);
    Filter(posts, IsNews)
  }

  /** The two kinds split the posts: when every post is one or the other,
      each post appears exactly as often among the case and news posts
      together as among all posts. */
  lemma PartitionPosts(posts: seq<Post>)
    requires forall i :: 0 <= i < |posts| ==> IsCase(posts[i]) || IsNews(posts[i])
    ensures multiset(CasePosts(posts)) + multiset(NewsPosts(posts)) == multiset(posts)
  {
    forall p ensures (multiset(CasePosts(posts)) + multiset(NewsPosts(posts)))[p] == multiset(posts)[p] {
      FilterCount(posts, IsCase, p);
      FilterCount(posts, IsNews, p);
    }
  }

  /** The page shows the first news item, the first six case posts, and the
      first two tags of each case post shown. */
  function ShownNews(posts: seq<Post>): (r: seq<Post>)
    ensures |r| <= 1
    ensures |r| <= |NewsPosts(posts)| && r == NewsPosts(posts)[..|r|]
    ensures NewsPosts(posts) != [] ==> r == [NewsPosts(posts)[0]]
  {
    Take(NewsPosts(posts), 1)
  }

  function ShownCases(posts: seq<Post>): (r: seq<Post>)
    ensures |r| <= 6
    ensures |r| <= |CasePosts(posts)| && r == CasePosts(posts)[..|r|]
    ensures |r| == 6 || r == CasePosts(posts)
  {
    Take(CasePosts(posts), 6)
  }

  function ShownTags(p: Post): (r: seq<string>)
    ensures |r| <= 2
    ensures |r| <= |p.tags| && r == p.tags[..|r|]
    ensures |r| == 2 || r == p.tags
  {
    Take(p.tags, 2)
  }

  /** Every case post shown is a case post of the shop's list. */
  lemma ShownCasesAreCases(posts: seq<Post>, p: Post)
    requires p in ShownCases(posts)
    ensures p in posts && IsCase(p)
  {
    var r := ShownCases(posts);
    var i :| 0 <= i < |r| && r[i] == p;
    assert p == CasePosts(posts)[i];
  }

  /** The menus listed under a category: `menus.filter(m => m.categoryId ===
      category.id)`, each as often as it occurs, in the order the menus came
      in (by `display_order`). */
  function MenusOf(menus: seq<Menu>, category: Category): (r: seq<Menu>)
    ensures forall m :: m in r <==> m in menus && m.categoryId == category.id
    ensures forall m :: multiset(r)[m] == if m.categoryId == category.id then multiset(menus)[m] else 0
    ensures forall before :: InOrder(menus, before) ==> InOrder(r, before)
  {
    var keep := (m: Menu) => m.categoryId == category.id;
    FilterCounts(menus, keep);
    FilterKeepsOrders(menus, keep);
    Filter(menus, keep)
  }

  // ---------------------------------------------------------------------------
  // FAQ accordion

  /** Which FAQ is expanded after a sequence of clicks, starting with all
      closed. */
  function AfterClicks(clicks: seq<string>): Option<string>
    decreases |clicks|
  {
    if clicks == [] then None else ToggleChoice(AfterClicks(clicks[..|clicks| - 1]), clicks[|clicks| - 1])
  }

  /** How many of the last clicks, counted back from the end, were on `id`. */
  function TrailingRun(clicks: seq<string>, id: string): nat
    decreases |clicks|
  {
    if clicks == [] || clicks[|clicks| - 1] != id then 0 else 1 + TrailingRun(clicks[..|clicks| - 1], id)
  }

  /** An entry is open exactly when the last clicks were on it an odd number
      of times in a row; so only the entry clicked last can be open. */
  lemma {:induction false} OpenAfterClicks(clicks: seq<string>, id: string)
    ensures AfterClicks(clicks) == Some(id) <==> TrailingRun(clicks, id) % 2 == 1
    ensures AfterClicks(clicks) == Some(id) ==> clicks != [] && clicks[|clicks| - 1] == id
    decreases |clicks|
  {
    if clicks != [] {
      OpenAfterClicks(clicks[..|clicks| - 1], id);
    }
  }

  /** Which FAQ, if any, is expanded. */
  class FaqAccordion {
    var expanded: Option<string>
    /** The questions clicked so far. */
    ghost var clicks: seq<string>

    ghost predicate Valid()
      reads this
    {
      expanded == AfterClicks(clicks)
    }

    constructor()
      ensures Valid() && clicks == []
      ensures expanded.None?
    {
      expanded := None;
      clicks := [];
    }

    predicate IsExpanded(id: string)
      reads this
    {
      expanded == Some(id)
    }

    /** Clicking a question: the open one closes, any other opens and is then
        the only one open. */
    method Click(id: string)
      requires Valid()
      modifies this
      ensures Valid() && clicks == old(clicks) + [id]
      ensures IsExpanded(id) <==> !old(IsExpanded(id))
      ensures forall other :: other != id ==> !IsExpanded(other)
    {
      expanded := ToggleChoice(expanded, id);
      clicks := clicks + [id];
      assert clicks[..|clicks| - 1] == old(clicks);
    }
  }
}
