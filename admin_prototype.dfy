/** The static admin prototype: one site record kept in the browser's
    storage, edited in place through panels for the site, the footer CTA,
    sample posts and FAQs. */
module AdminPrototype {
  import opened Common

  const Placeholder: string := "../assets/placeholder.svg"
  const DefaultTitle: string := "新規投稿"
  const DefaultCta: string := "予約する"
  const DefaultResult: string := "導線強化"

  datatype Theme = Theme(primary: string, accent: string, bg: string)
  datatype CtaLink = CtaLink(buttonLabel: string, url: string)
  datatype CallLink = CallLink(buttonLabel: string, tel: string)
  datatype Cta = Cta(booking: CtaLink, line: CtaLink, call: CallLink)
  datatype Availability = Availability(hasSlotsToday: bool, note: string)
  datatype ShortLinks = ShortLinks(shortUrl: string, qrLabel: string)
  datatype ProtoPost = ProtoPost(title: string, tags: seq<string>, media: seq<string>, cta: string, result: string,
                                 created: string)
  datatype ProtoFaq = ProtoFaq(q: string, a: string)

  /** The whole stored record. */
  datatype SiteData = SiteData(
    siteName: string,
    tagline: string,
    subcopy: string,
    theme: Theme,
    cta: Cta,
    availability: Availability,
    shortLinks: ShortLinks,
    posts: seq<ProtoPost>,
    faq: seq<ProtoFaq>)

  /** `loadState`: a non-empty cached text that parses wins; otherwise the
      defaults. `parse` stands for `JSON.parse`, None where it throws. */
  function LoadState(cached: Option<string>, parse: string -> Option<SiteData>, defaults: SiteData): (r: SiteData)
    ensures Present(cached) && parse(cached.value).Some? ==> r == parse(cached.value).value
    ensures !Present(cached) || parse(cached.value).None? ==> r == defaults
  {
    if Present(cached) then
      match parse(cached.value)
      case Some(d) => d
      case None => defaults
    else defaults
  }

  /** What `saveState` stores comes back on the next load, provided the
      parser reads back what the serializer writes. */
  lemma SavedStateReloads(d: SiteData, defaults: SiteData, stringify: SiteData -> string,
                          parse: string -> Option<SiteData>)
    requires stringify(d) != "" && parse(stringify(d)) == Some(d)
    ensures LoadState(Some(stringify(d)), parse, defaults) == d
  {
  }

  // ---------------------------------------------------------------------------
  // Comma-separated fields

  /** No whitespace at either end. */
  predicate Trimmed(s: string) {
    s == [] || (!IsJsWhitespace(s[0]) && !IsJsWhitespace(s[|s| - 1]))
  }

  /** `pieces.map((s) => s.trim())`. */
  function TrimAll(pieces: seq<string>): (r: seq<string>)
    ensures |r| == |pieces|
    ensures forall i :: 0 <= i < |pieces| ==> r[i] == Trim(pieces[i])
  {
    seq(|pieces|, i requires 0 <= i < |pieces| => Trim(pieces[i]))
  }

  /** Trimming leaves a trimmed piece of the original. */
  lemma TrimFacts(s: string)
    ensures Trimmed(Trim(s))
    ensures forall c :: c in Trim(s) ==> c in s
  {
    var a := TrimStart(s);
    var r := TrimEnd(a);
    if r != [] {
      assert r[0] == a[0];
    }
    forall c | c in r ensures c in s {
      var k :| 0 <= k < |r| && r[k] == c;
      assert a[k] == c;
      assert s[|s| - |a| + k] == c;
    }
  }

  /** `value.split(',').map((s) => s.trim()).filter(Boolean)`: the tags and
      media fields. */
  function ParseList(s: string): (r: seq<string>)
    ensures forall p :: p in r ==> p != "" && ',' !in p && Trimmed(p)
  {
    var trimmed := TrimAll(Split(s, ','));
    TrimmedPieces(s);
    Filter(trimmed, NonEmpty)
  }

  /** `Boolean` on a string. */
  predicate NonEmpty(p: string) { p != "" }

  /** Each trimmed piece of a comma split is trimmed and comma-free. */
  lemma TrimmedPieces(s: string)
    ensures forall p :: p in TrimAll(Split(s, ',')) ==> ',' !in p && Trimmed(p)
  {
    var pieces := Split(s, ',');
    var trimmed := TrimAll(pieces);
    forall p | p in trimmed ensures ',' !in p && Trimmed(p) {
      var i :| 0 <= i < |trimmed| && trimmed[i] == p;
      assert pieces[i] in pieces;
      TrimFacts(pieces[i]);
    }
  }

  /** Trimming entries that are already trimmed changes nothing. */
  lemma TrimAllIdentity(xs: seq<string>)
    requires forall i :: 0 <= i < |xs| ==> Trimmed(xs[i])
    ensures TrimAll(xs) == xs
  {
    forall i | 0 <= i < |xs| ensures Trim(xs[i]) == xs[i] {
      TrimIdentity(xs[i]);
    }
  }

  /** An empty field parses to no entries. */
  lemma ParseEmpty()
    ensures ParseList("") == []
  {
    assert Split("", ',') == [""];
    assert Trim("") == "";
    assert TrimAll([""]) == [""];
  }

  /** Joining clean entries with commas and parsing gives them back. */
  lemma ParseJoinRoundTrip(xs: seq<string>)
    requires forall i :: 0 <= i < |xs| ==> xs[i] != "" && ',' !in xs[i] && Trimmed(xs[i])
    ensures ParseList(Join(xs, ',')) == xs
  {
    if xs == [] {
      assert Join(xs, ',') == "";
      ParseEmpty();
    } else {
      var j := Join(xs, ',');
      SplitJoin(xs, ',');
      TrimAllIdentity(xs);
      FilterKeepsAll(xs, NonEmpty);
      calc {
        ParseList(j);
        Filter(TrimAll(Split(j, ',')), NonEmpty);
        Filter(TrimAll(xs), NonEmpty);
        Filter(xs, NonEmpty);
      }
    }
  }

  /** Parsing is idempotent: the parsed list, written back as text, parses
      to itself. */
  lemma ParseListIdempotent(s: string)
    ensures ParseList(Join(ParseList(s), ',')) == ParseList(s)
  {
    var xs := ParseList(s);
    assert forall i :: 0 <= i < |xs| ==> xs[i] in xs;
    ParseJoinRoundTrip(xs);
  }

  /** The media field: the placeholder stands in only for an empty field. */
  function ParseMedia(field: string): (r: seq<string>)
    ensures forall p :: p in r ==> p != "" && ',' !in p && Trimmed(p)
  {
    ParseList(OrDefault(field, Placeholder))
  }

  /** An empty media field gives the placeholder image. */
  lemma EmptyMediaIsPlaceholder()
    ensures ParseMedia("") == [Placeholder]
  {
    ParseJoinRoundTrip([Placeholder]);
    assert Join([Placeholder], ',') == Placeholder;
  }

  /** A field holding only a space is not empty, so it gets no placeholder
      and the post has no image. */
  lemma BlankMediaHasNoImage()
    ensures ParseMedia(" ") == []
  {
    SplitNoSep(" ", ',');
    assert Trim(" ") == "";
  }

  /** The new-post form as submitted. */
  datatype PostForm = PostForm(title: string, tags: string, media: string, cta: string, result: string)

  /** The post the form adds: empty title, CTA and result take their
      defaults; `created` is the date part of the ISO timestamp. */
  function NewPost(f: PostForm, isoNow: string): (p: ProtoPost)
    ensures p.title == (if f.title == "" then DefaultTitle else f.title)
    ensures p.cta == (if f.cta == "" then DefaultCta else f.cta)
    ensures p.result == (if f.result == "" then DefaultResult else f.result)
    ensures p.tags == ParseList(f.tags) && p.media == ParseMedia(f.media)
    ensures |isoNow| >= 10 ==> p.created == isoNow[..10]
    ensures |isoNow| < 10 ==> p.created == isoNow
  {
    ProtoPost(OrDefault(f.title, DefaultTitle), ParseList(f.tags), ParseMedia(f.media),
      OrDefault(f.cta, DefaultCta), OrDefault(f.result, DefaultResult), Take(isoNow, 10))
  }

  /** The site and CTA fields `save` reads from the panels. */
  datatype SaveForm = SaveForm(
    siteName: string,
    tagline: string,
    subcopy: string,
    theme: Theme,
    bookingLabel: string,
    bookingUrl: string,
    lineLabel: string,
    lineUrl: string,
    callLabel: string,
    callTel: string,
    availabilityNote: string)

  /** `appState`: the record being edited. */
  class AppState {
    var siteName: string
    var tagline: string
    var subcopy: string
    var theme: Theme
    var cta: Cta
    var availability: Availability
    var shortLinks: ShortLinks
    var posts: seq<ProtoPost>
    var faq: seq<ProtoFaq>

    constructor(d: SiteData)
      ensures Snapshot() == d
    {
      siteName, tagline, subcopy := d.siteName, d.tagline, d.subcopy;
      theme, cta, availability, shortLinks := d.theme, d.cta, d.availability, d.shortLinks;
      posts, faq := d.posts, d.faq;
    }

    /** The record as `saveState` serializes it. */
    function Snapshot(): SiteData
      reads this
    {
      SiteData(siteName, tagline, subcopy, theme, cta, availability, shortLinks, posts, faq)
    }

    /** The post form's submit: `posts.unshift(newPost)`. */
    method AddPost(f: PostForm, isoNow: string)
      modifies this`posts
      ensures posts == [NewPost(f, isoNow)] + old(posts)
      ensures |posts| == |old(posts)| + 1 && posts[1..] == old(posts)
    {
      posts := [NewPost(f, isoNow)] + posts;
    }

    /** A post's delete button: `posts.splice(idx, 1)`. */
    method DeletePost(idx: nat)
      modifies this`posts
      ensures posts == RemoveAt(old(posts), idx)
      ensures idx < |old(posts)| ==> multiset(posts) == multiset(old(posts)) - multiset{old(posts)[idx]}
    {
      if idx < |posts| {
        RemoveAtMultiset(posts, idx);
      }
      posts := RemoveAt(posts, idx);
    }

    /** The FAQ form's submit: `faq.push({ q, a })`. */
    method AddFaq(q: string, a: string)
      modifies this`faq
      ensures faq == old(faq) + [ProtoFaq(q, a)]
    {
      faq := faq + [ProtoFaq(q, a)];
    }

    /** An FAQ's delete button: `faq.splice(idx, 1)`. */
    method DeleteFaq(idx: nat)
      modifies this`faq
      ensures faq == RemoveAt(old(faq), idx)
      ensures idx < |old(faq)| ==> multiset(faq) == multiset(old(faq)) - multiset{old(faq)[idx]}
    {
      if idx < |faq| {
        RemoveAtMultiset(faq, idx);
      }
      faq := RemoveAt(faq, idx);
    }

    /** The save button: copies the panel fields into the record and stores
        it. Posts, FAQs, the availability switch and the short links keep
        their values. */
    method Save(f: SaveForm) returns (stored: SiteData)
      modifies this`siteName, this`tagline, this`subcopy, this`theme, this`cta, this`availability
      ensures siteName == f.siteName && tagline == f.tagline && subcopy == f.subcopy && theme == f.theme
      ensures cta == Cta(CtaLink(f.bookingLabel, f.bookingUrl), CtaLink(f.lineLabel, f.lineUrl), CallLink(f.callLabel, f.callTel))
      ensures availability == old(availability).(note := f.availabilityNote)
      ensures stored == Snapshot()
    {
      siteName := f.siteName;
      tagline := f.tagline;
      subcopy := f.subcopy;
      theme := f.theme;
      cta := cta.(booking := cta.booking.(buttonLabel := f.bookingLabel));
      cta := cta.(booking := cta.booking.(url := f.bookingUrl));
      cta := cta.(line := cta.line.(buttonLabel := f.lineLabel));
      cta := cta.(line := cta.line.(url := f.lineUrl));
      cta := cta.(call := cta.call.(buttonLabel := f.callLabel));
      cta := cta.(call := cta.call.(tel := f.callTel));
      availability := availability.(note := f.availabilityNote);
      stored := Snapshot();
    }

    /** `toggle-availability`: flips today's-slots flag and nothing else. */
    method ToggleAvailability()
      modifies this`availability
      ensures availability.hasSlotsToday == !old(availability.hasSlotsToday)
      ensures availability.note == old(availability.note)
    {
      availability := availability.(hasSlotsToday := !availability.hasSlotsToday);
    }

    /** `reset-links`: the short URL and the QR caption go back to the
        defaults. */
    method ResetLinks(defaults: SiteData)
      modifies this`shortLinks
      ensures shortLinks.shortUrl == defaults.shortLinks.shortUrl
      ensures shortLinks.qrLabel == defaults.shortLinks.qrLabel
    {
      shortLinks := shortLinks.(shortUrl := defaults.shortLinks.shortUrl);
      shortLinks := shortLinks.(qrLabel := defaults.shortLinks.qrLabel);
    }
  }
}
