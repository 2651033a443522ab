/** The new-post editor: images (at most six), tag chips, the duration and
    price-range chips of a case post, the news fields, and the save payload
    posted to `/api/posts`. */
module PostEditorPage {
  import opened Common
  import opened Types
  import PostsRoute

  const MaxImages: nat := 6

  /** `[...prev.slice(0, 5), result]`: a new image after at most five of the
      previous ones. */
  function AddImage(prev: seq<string>, image: string): (r: seq<string>)
    ensures 1 <= |r| <= MaxImages
    ensures r[|r| - 1] == image
    ensures r[..|r| - 1] == Take(prev, MaxImages - 1)
    ensures |prev| < MaxImages ==> r == prev + [image]
  {
    Take(prev, MaxImages - 1) + [image]
  }

  /** The images after the reader results arrive one by one (a file the
      reader gives no result for adds nothing). */
  function AddAll(prev: seq<string>, results: seq<Option<string>>): (r: seq<string>)
    ensures |prev| <= MaxImages ==> |r| <= MaxImages
    decreases |results|
  {
    if results == [] then prev
    else
      var next := if results[|results| - 1].Some? then AddImage(AddAll(prev, results[..|results| - 1]), results[|results| - 1].value)
        else AddAll(prev, results[..|results| - 1]);
      next
  }

  /** With room for all of them, the results are simply appended in order. */
  lemma {:induction false} AddAllWithRoom(prev: seq<string>, images: seq<string>)
    requires |prev| + |images| <= MaxImages
    ensures AddAll(prev, seq(|images|, i requires 0 <= i < |images| => Some(images[i]))) == prev + images
    decreases |images|
  {
    var results := seq(|images|, i requires 0 <= i < |images| => Some(images[i]));
    if images != [] {
      var init := images[..|images| - 1];
      assert results[..|results| - 1] == seq(|init|, i requires 0 <= i < |init| => Some(init[i]));
      AddAllWithRoom(prev, init);
      assert prev + images == (prev + init) + [images[|images| - 1]];
    }
  }

  /** Once six images are shown, each further image replaces the sixth:
      the first five stay. */
  lemma FullListKeepsFirstFive(prev: seq<string>, image: string)
    requires |prev| == MaxImages
    ensures |AddImage(prev, image)| == MaxImages
    ensures AddImage(prev, image)[..MaxImages - 1] == prev[..MaxImages - 1]
  {
  }

  /** The fields the payload carries depend on the post type: a case post
      sends duration and price range, a news post sends its news fields. */
  function SavePayload(shopId: string, postType: string, title: string, content: string,
                       images: seq<string>, tags: seq<string>, duration: Option<int>, priceRange: Option<int>,
                       newsType: string, displayStart: string, displayEnd: string, status: string)
    : (r: Option<PostsRoute.PostBody>)
    ensures r.None? <==> shopId == ""
    ensures r.Some? ==> r.value.shopId == Some(shopId) && r.value.postType == postType && r.value.status == status
    ensures r.Some? ==> r.value.images == Some(images) && r.value.tags == Some(tags)
    ensures r.Some? && postType == "case" ==> r.value.duration == duration && r.value.priceRange == priceRange
    ensures r.Some? && postType != "case" ==> r.value.duration.None? && r.value.priceRange.None?
    ensures r.Some? && postType != "news" ==> r.value.newsType == "" && r.value.displayStart == "" && r.value.displayEnd == ""
    ensures r.Some? && postType == "news" ==>
      r.value.newsType == newsType && r.value.displayStart == displayStart && r.value.displayEnd == displayEnd
  {
    if shopId == "" then None
    else
      var isCase := postType == "case";
      var isNews := postType == "news";
      Some(PostsRoute.PostBody(Some(shopId), postType, title, content, Some(images), Some(tags),
        if isCase then duration else None,
        if isCase then priceRange else None,
        "", status,
        if isNews then newsType else "",
        if isNews then displayStart else "",
        if isNews then displayEnd else ""))
  }

  class Editor {
    const postType: string
    var shopId: string
    var images: seq<string>
    var title: string
    var content: string
    var selectedTags: seq<string>
    var duration: Option<int>
    var priceRange: Option<int>
    var newsType: string
    var displayStart: string
    var displayEnd: string

    ghost predicate Valid()
      reads this
    {
      |images| <= MaxImages && NoDup(selectedTags)
    }

    /** The page as it opens: `type` from the query string, 'case' when
        absent; no shop yet. */
    constructor(typeParam: string)
      ensures Valid()
      ensures postType == OrDefault(typeParam, "case")
      ensures shopId == "" && images == [] && title == "" && content == "" && selectedTags == []
      ensures duration.None? && priceRange.None?
      ensures newsType == "campaign" && displayStart == "" && displayEnd == ""
    {
      postType := OrDefault(typeParam, "case");
      shopId, images, title, content, selectedTags := "", [], "", "", [];
      duration, priceRange := None, None;
      newsType, displayStart, displayEnd := "campaign", "", "";
    }

    /** `handleImageSelect`: the `images.length >= 6` test reads the list as
        it was when the files were chosen, then each reader result is added
        in turn. */
    method SelectImages(results: seq<Option<string>>)
      requires Valid()
      modifies this`images
      ensures Valid()
      ensures images == if |old(images)| >= MaxImages then old(images) else AddAll(old(images), results)
    {
      var seen := |images|;
      if seen >= MaxImages {
        return;
      }
      ghost var start := images;
      var i := 0;
      while i < |results|
        invariant 0 <= i <= |results|
        invariant images == AddAll(start, results[..i])
        invariant |images| <= MaxImages
      {
        if results[i].Some? {
          images := AddImage(images, results[i].value);
        }
        i := i + 1;
        assert results[..i][..i - 1] == results[..i - 1];
      }
      assert results[..|results|] == results;
    }

    /** `removeImage(index)`. */
    method RemoveImage(index: nat)
      requires Valid()
      modifies this`images
      ensures Valid()
      ensures images == RemoveAt(old(images), index)
    {
      images := RemoveAt(images, index);
    }

    /** `toggleTag(tag)`. */
    method ToggleTag(tag: string)
      requires Valid()
      modifies this`selectedTags
      ensures Valid()
      ensures selectedTags == ToggleMember(old(selectedTags), tag)
    {
      ToggleKeepsNoDup(selectedTags, tag);
      selectedTags := ToggleMember(selectedTags, tag);
    }

    /** A duration chip: selecting the current one clears it. */
    method PickDuration(d: int)
      modifies this`duration
      ensures duration == ToggleChoice(old(duration), d)
    {
      duration := ToggleChoice(duration, d);
    }

    /** A price-range chip: selecting the current one clears it. */
    method PickPriceRange(p: int)
      modifies this`priceRange
      ensures priceRange == ToggleChoice(old(priceRange), p)
    {
      priceRange := ToggleChoice(priceRange, p);
    }

    /** `handleSave(status)`: nothing is sent without a shop. */
    method Save(status: string) returns (sent: Option<PostsRoute.PostBody>)
      ensures sent == SavePayload(shopId, postType, title, content, images, selectedTags, duration,
        priceRange, newsType, displayStart, displayEnd, status)
      ensures shopId == "" ==> sent.None?
    {
      sent := SavePayload(shopId, postType, title, content, images, selectedTags, duration,
        priceRange, newsType, displayStart, displayEnd, status);
    }
  }

  /** A saved post keeps the editor's images and tags: the route stores them
      as JSON and hands back the same lists. */
  lemma SavedListsRoundTrip(rows: seq<PostsRoute.PostRow>, body: PostsRoute.PostBody, images: seq<string>, tags: seq<string>,
                            newId: string, now: int)
    requires body.images == Some(images) && body.tags == Some(tags)
    requires PostsRoute.Create(rows, body, newId, now).1.Ok?
    ensures PostsRoute.Create(rows, body, newId, now).1.data.images == images
    ensures PostsRoute.Create(rows, body, newId, now).1.data.tags == tags
  {
  }

  /** A news post created from the editor stores no duration or price
      range, whatever chips were left selected. */
  lemma NewsPostHasNoCaseFields(shopId: string, title: string, content: string, images: seq<string>, tags: seq<string>,
                                duration: Option<int>, priceRange: Option<int>, newsType: string, displayStart: string,
                                displayEnd: string, status: string, rows: seq<PostsRoute.PostRow>, newId: string, now: int)
    requires shopId != ""
    ensures var body := SavePayload(shopId, "news", title, content, images, tags, duration, priceRange,
        newsType, displayStart, displayEnd, status).value;
      var r := PostsRoute.Create(rows, body, newId, now);
      r.1.Ok? ==> (r.0[|r.0| - 1].duration.None? && r.0[|r.0| - 1].priceRange.None? &&
        r.0[|r.0| - 1].newsType == NullIfEmpty(newsType))
  {
  }
}
