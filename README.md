# PocketCMS core, modelled in Dafny

PocketCMS is a small multi-tenant CMS. It gives a shop (a salon, say) a
one-page microsite with posts, menus, staff and FAQs. It also gives the
shop a footer of call-to-action buttons (phone, reservation, LINE), a short
URL with a QR code, and tap analytics. This project models the rules behind
it:

- **the public page** (`PublicSite`): which footer buttons appear, in what
  order, with which target and emphasis; which posts, tags and menus are
  shown; and the FAQ accordion;
- **the API routes**, each over an in-memory table:
  - `AnalyticsRoute`: get-or-create a day row, then bump a counter; reads by
    day and by date range;
  - `MenusRoute`, `StaffRoute`, `FaqsRoute`: create, read, update and delete.
    A new row's `display_order` is the largest order in its scope plus one,
    and deleting a category also deletes its menus;
  - `ShopsRoute`: the subdomain slug, `POST` defaults, `formatShop` and the
    newest-first listing;
  - `QrRoute`: the short-code alphabet and the short URL, which is got or
    created once per shop;
  - `PostsRoute`: the filtered query builder, `POST` defaults, and the JSON
    round trip of the `images` and `tags` columns;
  - `UploadRoute`: the upload checks and the stored file name;
- **the admin client pages**, each a class whose fields are the page's state:
  - `OnboardingPage`: the onboarding wizard;
  - `PostEditorPage`: the post editor;
  - `ShopPage`: the shop-info editor;
  - `LinksPage`: the links and CTA editor;
  - `MenuPage`, `StaffPage`, `FaqPage`: the menu, staff and FAQ editors;
  - `TabNavigation`: the admin tab bar;
- **the static prototype** `public/admin.js` (`AdminPrototype`): an
  in-memory site store with list parsing, in-place list edits and a cache.

Shared pieces:

- `Common`: `Option` and `Response` (200 / 400 / 500); JavaScript's `||`
  defaults; filtering, replace-by-id and remove-at; toggle-membership;
  `split`/`join` and `trim`.
- `Ordering`: insertion sort, `display_order` assignment and string order.
- `Json`: an encoder and decoder for arrays of strings.
- `Types`: the entities of `src/types/index.ts`, plus facts about tables
  whose ids are unique.

### How state is modelled

- A route's table is a `seq` of rows. Each route operation is a function
  from the old table and the request to the new table and the response.
- Each route also has a small class holding the table. Its methods update
  the table in place, and their `ensures` tie the new state to that function.
- Each client page is a class with one field per React state variable.
  - A handler is a method with `modifies` on exactly the fields it sets.
  - Whatever the browser supplies becomes a parameter: the route's answer,
    `confirm()`, the `FileReader` result, `parseInt`.
- Things the program takes from outside also become parameters:
  - uuids and `Math.random` draws;
  - the clock ("today", `created_at`);
  - the QR renderer, which may reject a url;
  - whether the upload form could be read, and whether `sharp` converted the
    upload, the original was copied instead, or storing it threw.

### CTA order

`CTASettings.order` (src/types/index.ts:123) is a field of the stored CTA
settings. The links page gives it a default and saves it back with the
other settings (src/app/admin/links/page.tsx:20-24, 41-42, 93), but
`PublicSite` never reads it. The footer buttons always come phone, then
reservation, then LINE. `PublicSite.FooterIgnoresOrder` proves that
changing `order` changes nothing.

### Toggling twice

Toggling a value twice restores a list only when the value was absent. A
present tag or payment method that is toggled twice ends up at the end of
the list (`Common.ToggleTwiceMovesToEnd`). So "toggling twice restores the
list" holds for membership (`Common.ToggleTwice`), not for order.

## Model

| member | source | states |
|---|---|---|
| PublicSite.EffectiveCta | src/components/public/PublicSite.tsx:18 | stored settings are used as they are; with none stored, all three buttons are enabled |
| PublicSite.FooterButtons | src/components/public/PublicSite.tsx:264-305 | phone shows iff showPhone and a phone number; reservation iff showReservation and a reservation URL; LINE iff showLine and a LINE URL; the buttons appear in the strict order phone, reservation, LINE |
| PublicSite.FooterIgnoresOrder | src/components/public/PublicSite.tsx:264-305 | the footer does not depend on `ctaSettings.order` |
| PublicSite.FooterTargets | src/components/public/PublicSite.tsx:264-300 | phone links to `tel:` + the raw number, reservation and LINE to their stored URLs; each click reports its own type, which the analytics route maps to that button's counter |
| PublicSite.FooterAvailability | src/components/public/PublicSite.tsx:280-291 | `todayAvailable` changes only the reservation button's caption and background; the set, order and targets of the buttons stay the same |
| PublicSite.FooterFallbackShowsAll | src/components/public/PublicSite.tsx:18 | a shop with no settings and all three targets shows three buttons |
| PublicSite.CasePosts | src/components/public/PublicSite.tsx:20 | exactly the posts of type `case`, each as often as it occurs, in their incoming order (any order between the posts holds between the case posts) |
| PublicSite.NewsPosts | src/components/public/PublicSite.tsx:21 | exactly the posts of type `news`, each as often as it occurs, in their incoming order |
| PublicSite.PartitionPosts | src/components/public/PublicSite.tsx:20-21 | when every post is a case or news post, the two lists together are a permutation of the posts |
| PublicSite.ShownNews | src/components/public/PublicSite.tsx:70 | at most one news item, the first |
| PublicSite.ShownCases | src/components/public/PublicSite.tsx:85 | a prefix of the case posts of length at most 6, all of them if fewer |
| PublicSite.ShownTags | src/components/public/PublicSite.tsx:98 | a prefix of the post's tags of length at most 2 |
| PublicSite.ShownCasesAreCases | src/components/public/PublicSite.tsx:20-85 | every shown case card is a case post of the page |
| PublicSite.MenusOf | src/components/public/PublicSite.tsx:120-121 | exactly the menus whose category id is the category's, each as often as it occurs, in their incoming (display) order |
| PublicSite.FaqAccordion.Click | src/components/public/PublicSite.tsx:238 | the clicked entry flips between open and closed; every other entry is closed; the open entry stays the one the click history determines |
| PublicSite.OpenAfterClicks | src/components/public/PublicSite.tsx:238 | after any click sequence an entry is open iff the trailing run of clicks on it has odd length, so only the last-clicked entry can be open |
| AnalyticsRoute.ColumnFor | src/app/api/analytics/route.ts:103-109 | `reservation`, `line`, `phone` and `pageView` map to their own counters (both directions); an inherited `Object.prototype` member names no counter |
| AnalyticsRoute.Bump | src/app/api/analytics/route.ts:111-115 | the named counter goes up by one; the other counters and the row's identity are unchanged |
| AnalyticsRoute.Find | src/app/api/analytics/route.ts:89-92 | finds a row of the shop and day, and finds none only when no such row exists |
| AnalyticsRoute.FindIsFirst | src/app/api/analytics/route.ts:89-92 | the row found is the first row of that shop and day |
| AnalyticsRoute.Recorded | src/app/api/analytics/route.ts:73-132 | a missing shopId or type gives 400 and no change; success exactly when the type is no inherited member and a day row exists or the new id is free; an inherited member gives 500 after the day row was inserted; other failures change nothing; after success the response is the table's row for (shop, today) |
| AnalyticsRoute.RecordInheritedKeyKeepsInsert | src/app/api/analytics/route.ts:95-115 | a type naming an inherited member answers 500, yet the first request of the day has inserted an all-zero day row |
| AnalyticsRoute.RecordCreatesDayRow | src/app/api/analytics/route.ts:94-100 | with no day row, the new row has the given id, shop, day and source (NULL when empty), and the tapped counter at 1 and the others at 0 |
| AnalyticsRoute.RecordBumpsOneCounter | src/app/api/analytics/route.ts:103-115 | a known type raises exactly its counter for (shop, today) by one and no other counter |
| AnalyticsRoute.RecordUnknownTypeCountsNothing | src/app/api/analytics/route.ts:109-115 | an unknown type still leaves a day row, and changes no counter |
| AnalyticsRoute.RecordLeavesOtherDays | src/app/api/analytics/route.ts:89-115 | rows of other shops or other days are untouched |
| AnalyticsRoute.RecordIsMonotone | src/app/api/analytics/route.ts:112-114 | no counter of any shop and day ever decreases |
| AnalyticsRoute.RecordManyAddsN | src/app/api/analytics/route.ts:103-115 | n taps of one known type raise its counter by exactly n |
| AnalyticsRoute.DaysWhere | src/app/api/analytics/route.ts:43-62 | exactly the shop's rows whose date passes the filter, each as often as stored, newest first |
| AnalyticsRoute.Get | src/app/api/analytics/route.ts:6-70 | no shopId gives 400; with `date`, the stored row or an all-zero record; with both range ends, the shop's rows in the inclusive range, newest first; otherwise the rows since the given day |
| AnalyticsRoute.DatePartOfTimestamp | src/app/api/analytics/route.ts:86 | "today" is the text before the `T` of the ISO timestamp |
| AnalyticsRoute.AnalyticsTable.Post | src/app/api/analytics/route.ts:73-132 | the table and response are those of `Recorded` |
| MenusRoute.CreateCategory | src/app/api/menus/route.ts:46-64 | success iff shop and name are given and the id is free; failure is a 500 with no change; the new category is appended with an order above every category of the shop, or 1 when the shop has none |
| MenusRoute.CreateMenu | src/app/api/menus/route.ts:67-88 | success iff shop, category, name and price are given and the id is free; falsy duration and description are stored as NULL; the new order is above every menu of the same shop and category, or 1 |
| MenusRoute.MenuOrderIsPerCategory | src/app/api/menus/route.ts:67-84 | menus of other categories or shops do not affect a new menu's order |
| MenusRoute.UpdateCategory | src/app/api/menus/route.ts:103-110 | only the category with that id gets the new name; an unknown id gives 500 and no change |
| MenusRoute.UpdateMenu | src/app/api/menus/route.ts:112-124 | only the menu with that id changes name, price, duration and description (falsy ones to NULL); an unknown id gives 500 and no change |
| MenusRoute.UpdateCategoryKeepsUniqueIds | src/app/api/menus/route.ts:103-110 | a category `PUT` keeps every id, so the primary key stays unique |
| MenusRoute.UpdateMenuKeepsUniqueIds | src/app/api/menus/route.ts:112-124 | a menu `PUT` keeps every id, so the primary key stays unique |
| MenusRoute.Deleted | src/app/api/menus/route.ts:128-158 | no id gives 400; a category delete removes that category and exactly the menus in it; a menu delete removes only that menu; every other row stays, as often as before and in its order |
| MenusRoute.DeleteCategoryLeavesNoOrphans | src/app/api/menus/route.ts:143-146 | no remaining menu refers to the deleted category |
| MenusRoute.Get | src/app/api/menus/route.ts:6-44 | no shopId gives 400; otherwise exactly the shop's categories and menus, each as often as stored, each list sorted by display order |
| MenusRoute.MenuDb.Post | src/app/api/menus/route.ts:46-96 | the tables and response are those of `CreateCategory` or `CreateMenu`, by kind; ids stay unique |
| MenusRoute.MenuDb.Put | src/app/api/menus/route.ts:98-126 | the tables and response are those of `UpdateCategory` or `UpdateMenu`; ids stay unique |
| MenusRoute.MenuDb.Delete | src/app/api/menus/route.ts:128-158 | the tables and response are those of `Deleted`; ids stay unique |
| StaffRoute.Create | src/app/api/staff/route.ts:37-74 | success iff shop and name are given and the id is free; role, image and description stored as NULL when falsy; appended with an order above the shop's others, or 1 |
| StaffRoute.Update | src/app/api/staff/route.ts:76-100 | only the row with that id changes name, role, image and description; an unknown id gives 500 and no change |
| StaffRoute.Deleted | src/app/api/staff/route.ts:102-125 | no id gives 400; otherwise exactly the rows with other ids remain, as often as before and in their order |
| StaffRoute.Get | src/app/api/staff/route.ts:6-35 | no shopId gives 400; otherwise exactly the shop's staff, each as often as stored, sorted by display order |
| StaffRoute.StaffTable.Post | src/app/api/staff/route.ts:37-74 | the table and response are those of `Create`; ids stay unique |
| StaffRoute.StaffTable.Put | src/app/api/staff/route.ts:76-100 | the table and response are those of `Update` |
| StaffRoute.StaffTable.Delete | src/app/api/staff/route.ts:102-125 | the table and response are those of `Deleted` |
| FaqsRoute.Create | src/app/api/faqs/route.ts:37-72 | success iff shop, question and answer are given and the id is free; question and answer stored verbatim; appended with an order above the shop's others, or 1 |
| FaqsRoute.Update | src/app/api/faqs/route.ts:74-98 | only the row with that id changes question and answer; an unknown id gives 500 and no change |
| FaqsRoute.Deleted | src/app/api/faqs/route.ts:100-123 | no id gives 400; otherwise exactly the rows with other ids remain, as often as before and in their order |
| FaqsRoute.Get | src/app/api/faqs/route.ts:6-35 | no shopId gives 400; otherwise exactly the shop's FAQs, each as often as stored, sorted by display order |
| FaqsRoute.FaqTable.Post | src/app/api/faqs/route.ts:37-72 | the table and response are those of `Create`; ids stay unique |
| FaqsRoute.FaqTable.Put | src/app/api/faqs/route.ts:74-98 | the table and response are those of `Update` |
| FaqsRoute.FaqTable.Delete | src/app/api/faqs/route.ts:100-123 | the table and response are those of `Deleted` |
| ShopsRoute.KeepSlugChars | src/app/api/shops/route.ts:70 | the slug characters of the input in order (the same as filtering by `SlugChar`): every ASCII letter or digit, kana or CJK character kept, every other one dropped; a string of slug characters is kept whole |
| ShopsRoute.Lower | src/app/api/shops/route.ts:69 | no ASCII capital is left, nothing gets shorter, and a string without cased characters is unchanged |
| ShopsRoute.SubdomainBase | src/app/api/shops/route.ts:68-71 | the first ten (or all, when fewer) slug characters of the lowered name; so at most 10 characters, none an ASCII capital |
| ShopsRoute.SubdomainBaseIdempotent | src/app/api/shops/route.ts:68-71 | deriving the base from a base gives the same base |
| ShopsRoute.GenerateSubdomain | src/app/api/shops/route.ts:67-74 | the base, a hyphen, then characters 2 to 8 of the random text; always contains a hyphen; at most 17 characters |
| ShopsRoute.SubdomainSplitsAtHyphen | src/app/api/shops/route.ts:67-74 | the text before the first hyphen is the base |
| ShopsRoute.FormatShop | src/app/api/shops/route.ts:76-101 | `todayAvailable` is true iff the column is non-zero; NULL hours and holidays read as empty; NULL CTA settings read as `{}`; every other column is copied unchanged |
| ShopsRoute.NullCtaSettingsHideFooter | src/app/api/shops/route.ts:97 | a shop whose CTA column is NULL shows no footer button, because `{}` is truthy and switches every button off |
| ShopsRoute.Create | src/app/api/shops/route.ts:25-65 | no name gives 500; success iff the id and the generated subdomain are free; the row is appended with the defaults (`beauty`, `#0ea5e9`, empty URLs as NULL, closed today, every CTA on) |
| ShopsRoute.CreatedShopShowsConfiguredButtons | src/app/api/shops/route.ts:40-50 | a new shop shows each footer button exactly when its target was given |
| ShopsRoute.List | src/app/api/shops/route.ts:6-23 | one entry per row, newest first; every stored shop appears formatted, and every entry is some stored row formatted |
| ShopsRoute.ShopTable.Post | src/app/api/shops/route.ts:25-65 | the table and response are those of `Create`; ids and subdomains stay unique |
| QrRoute.CodeFrom | src/app/api/qr/route.ts:101-108 | one alphabet character per random draw |
| QrRoute.GenerateShortCode | src/app/api/qr/route.ts:101-108 | the loop yields 6 characters from a-z and 0-9, the ones `CodeFrom` picks |
| QrRoute.EveryCodeCanBeDrawn | src/app/api/qr/route.ts:101-108 | every 6-character code over the alphabet comes from some draws |
| QrRoute.Get | src/app/api/qr/route.ts:7-44 | no url gives 400; otherwise success exactly when the library renders the url, with that image and the url, and a rejection answers 500 `Failed to generate QR code` |
| QrRoute.LinkFor | src/app/api/qr/route.ts:71 | the short URL is `https://pocketcms.jp/s/` followed by the code |
| QrRoute.Created | src/app/api/qr/route.ts:47-99 | no shopId gives 400; an existing row's code is returned with no insert; otherwise exactly one row is inserted, or 500 when the id or code is taken |
| QrRoute.PostTwiceSameCode | src/app/api/qr/route.ts:62-74 | a second `POST` for the shop returns the same response and inserts nothing |
| QrRoute.CreatedKeepsWellFormed | src/app/api/qr/route.ts:77-83 | ids, shops and codes stay unique |
| QrRoute.ShortUrlTable.Post | src/app/api/qr/route.ts:47-99 | the table and response are those of `Created` for the generated code |
| PostsRoute.Clauses | src/app/api/posts/route.ts:17-30 | a clause for each present filter and none for an absent one |
| PostsRoute.PlaceholdersMatchParams | src/app/api/posts/route.ts:14-30 | the query has as many `?` placeholders as parameters |
| PostsRoute.BuildQuery | src/app/api/posts/route.ts:14-32 | the query and parameters built by three conditional appends are those of the present filters, in the order shopId, type, status, with one placeholder per parameter |
| PostsRoute.AddCondition | src/app/api/posts/route.ts:17-30 | one ` AND col = ?` is appended to the query and its value to the parameters |
| PostsRoute.Prepare | src/app/api/posts/route.ts:34 | the statement with its parameters is read as its fixed head, one condition per `?` bound in order, and the fixed tail |
| PostsRoute.PrepareQueryText | src/app/api/posts/route.ts:14-34 | the database reads a built statement back as exactly the conditions it was built from |
| PostsRoute.QueryDeterminesConditions | src/app/api/posts/route.ts:14-32 | two filter combinations that build the same statement and parameters are the same |
| PostsRoute.SatisfiesFilters | src/app/api/posts/route.ts:17-30 | a row matches the clauses iff it equals every present filter |
| PostsRoute.FormatPost | src/app/api/posts/route.ts:97-117 | `images` and `tags` are the parsed JSON of their columns (`[]` when empty); a column that does not parse is a failure; every other column is copied unchanged |
| PostsRoute.Select | src/app/api/posts/route.ts:32-46 | success exactly when every matching row decodes; then the matching rows, each as often as stored, newest first, each formatted |
| PostsRoute.Selected | src/app/api/posts/route.ts:32-34 | the rows satisfying every condition, each as often as stored, newest first |
| PostsRoute.HitsDecode | src/app/api/posts/route.ts:36-46 | every selected row decodes iff every matching stored row does |
| PostsRoute.FormattedHits | src/app/api/posts/route.ts:32-39 | formatting the sorted selected rows one by one gives the formatted selection, newest first |
| PostsRoute.NewRow | src/app/api/posts/route.ts:65-80 | type defaults to `case` and status to `draft`; lists are written as JSON (`[]` when missing); falsy optional fields are NULL |
| PostsRoute.ListColumnRoundTrip | src/app/api/posts/route.ts:71-72 | a written list column reads back as the same list |
| PostsRoute.Create | src/app/api/posts/route.ts:50-95 | success iff shopId is given and the id is free; the row is appended; the response carries the sent images and tags |
| PostsRoute.PostTable.Post | src/app/api/posts/route.ts:50-95 | the table and response are those of `Create` |
| PostsRoute.PostTable.Get | src/app/api/posts/route.ts:6-48 | builds the statement, reads back the conditions it means, and answers `Select` of the table for the present filters |
| Json.ParseStringify | src/app/api/posts/route.ts:105-106 | parsing a written array of strings gives back the array |
| UploadRoute.Validate | src/app/api/upload/route.ts:12-33 | presence, then size at most 10 MiB, then an `image/` type; the first failing check decides the 400 |
| UploadRoute.SizeLimitIsInclusive | src/app/api/upload/route.ts:20 | exactly 10 MiB passes and one byte more fails |
| UploadRoute.Extension | src/app/api/upload/route.ts:43 | non-empty and without a dot |
| UploadRoute.ExtensionWithoutDot | src/app/api/upload/route.ts:43 | a name without a dot is its own extension, and an empty name gives `jpg` |
| UploadRoute.ExtensionAfterLastDot | src/app/api/upload/route.ts:43 | the text after the last dot |
| UploadRoute.ExtensionOfTrailingDot | src/app/api/upload/route.ts:43 | a name ending in a dot gives `jpg` |
| UploadRoute.StoredName | src/app/api/upload/route.ts:44-53 | the stored name is the file id followed by a dot |
| UploadRoute.StoredNameKeepsExtension | src/app/api/upload/route.ts:43-53 | the stored name's extension is `webp` after a conversion and the original extension otherwise |
| UploadRoute.Upload | src/app/api/upload/route.ts:7-89 | an unreadable form or a file that could not be stored answers 500 `Failed to upload file`; otherwise a failed check answers its 400; success exactly when the form is read, the checks pass and the file is stored, with url `/uploads/` + the stored name, the original name and size |
| OnboardingPage.CanProceedAt | src/app/onboarding/page.tsx:105-118 | step 0 needs a business type, step 1 a name, phone and address, steps 2 and 3 nothing |
| OnboardingPage.Wizard.Payload | src/app/onboarding/page.tsx:85-94 | the reservation URL is sent only for `url` or `all`, the LINE URL only for `line` or `all`, otherwise null |
| OnboardingPage.Wizard.Next | src/app/onboarding/page.tsx:66-72 | below step 3 the step goes up by one; at step 3 it stays and the payload is submitted |
| OnboardingPage.Wizard.Back | src/app/onboarding/page.tsx:74-78 | the step goes down by one only above 0, so it stays in 0..3 |
| OnboardingPage.Wizard.PressNext | src/app/onboarding/page.tsx:280 | a disabled button does nothing; otherwise as `Next` |
| OnboardingPage.PhoneOnlyShowsOnlyPhone | src/app/onboarding/page.tsx:90-91 | a shop created with the phone channel shows no reservation or LINE button |
| PostEditorPage.AddImage | src/app/admin/posts/new/page.tsx:68 | the first 5 earlier images followed by the new one; plain append while there is room |
| PostEditorPage.AddAllWithRoom | src/app/admin/posts/new/page.tsx:58-73 | with room for them, the images are appended in file order |
| PostEditorPage.FullListKeepsFirstFive | src/app/admin/posts/new/page.tsx:68 | on a full list the new image replaces the sixth |
| PostEditorPage.Editor.constructor | src/app/admin/posts/new/page.tsx:32-44 | the type defaults to `case`; every field starts empty |
| PostEditorPage.Editor.SelectImages | src/app/admin/posts/new/page.tsx:58-73 | nothing happens with 6 images; otherwise each read result is added by `AddImage`, and the list never exceeds 6 |
| PostEditorPage.Editor.RemoveImage | src/app/admin/posts/new/page.tsx:75-77 | exactly the image at the index leaves; the others keep their order |
| PostEditorPage.Editor.ToggleTag | src/app/admin/posts/new/page.tsx:79-83 | the tag is removed if present, appended if absent; no duplicates appear |
| PostEditorPage.Editor.PickDuration | src/app/admin/posts/new/page.tsx:213 | picking the current duration clears it, another sets it |
| PostEditorPage.Editor.PickPriceRange | src/app/admin/posts/new/page.tsx:235 | picking the current price range clears it, another sets it |
| PostEditorPage.SavePayload | src/app/admin/posts/new/page.tsx:85-104 | no shop sends nothing; duration and price range are sent only for `case`; news type and dates only for `news` |
| PostEditorPage.Editor.Save | src/app/admin/posts/new/page.tsx:85-104 | sends `SavePayload` of the editor's state |
| PostEditorPage.SavedListsRoundTrip | src/app/admin/posts/new/page.tsx:97-98 | the images and tags sent come back from the route unchanged |
| PostEditorPage.NewsPostHasNoCaseFields | src/app/admin/posts/new/page.tsx:100-104 | a saved news post has no duration or price range |
| Common.ToggleMember | src/app/admin/posts/new/page.tsx:79-83 | the toggled value's membership flips and no other value's changes; an absent value is appended |
| Common.ToggleKeepsNoDup | src/app/admin/posts/new/page.tsx:79-83 | toggling keeps a list free of duplicates |
| Common.ToggleTwice | src/app/admin/posts/new/page.tsx:79-83 | toggling twice restores membership, and the list itself when the value was absent |
| Common.ToggleTwiceMovesToEnd | src/app/admin/posts/new/page.tsx:79-83 | toggling a present value twice moves it to the end |
| ShopPage.DefaultBusinessHours | src/app/admin/pages/shop/page.tsx:11-16 | seven entries, day i at index i, open iff 1 <= i <= 6, all 10:00-20:00 |
| ShopPage.DefaultsCloseOnlySunday | src/app/admin/pages/shop/page.tsx:11-16 | day 0 is the only closed default day |
| ShopPage.ApplyEdit | src/app/admin/pages/shop/page.tsx:89 | only the named field changes |
| ShopPage.EditedDefaultsStayAWeek | src/app/admin/pages/shop/page.tsx:87-91 | an edit of the defaults keeps seven day-indexed entries and changes only one |
| ShopPage.ShopEditor.Load | src/app/admin/pages/shop/page.tsx:40-59 | the first shop's fields load; hours replace the defaults only when non-empty |
| ShopPage.ShopEditor.UpdateBusinessHour | src/app/admin/pages/shop/page.tsx:87-91 | same length; only the entry at the index changes, by `ApplyEdit`; day indexing is kept |
| ShopPage.ShopEditor.TogglePayment | src/app/admin/pages/shop/page.tsx:93-97 | the payment method is removed if present, appended if absent |
| ShopPage.ShopEditor.Save | src/app/admin/pages/shop/page.tsx:61-85 | nothing without a shop; otherwise only name, phone, address and hours |
| LinksPage.ToggleCta | src/app/admin/links/page.tsx:117-119 | exactly the named flag flips; the others and the order stay |
| LinksPage.ToggleCtaTwice | src/app/admin/links/page.tsx:117-119 | toggling a flag twice is the identity |
| LinksPage.ToggleCtaCommutes | src/app/admin/links/page.tsx:117-119 | toggles of two flags commute |
| LinksPage.SiteUrl | src/app/admin/links/page.tsx:57 | starts with `https://`, then exactly the subdomain, then exactly the host `.pocketcms.jp`, and nothing else |
| LinksPage.SiteQrNeverBadRequest | src/app/admin/links/page.tsx:57-60 | the QR request for the site URL is never a 400; it succeeds exactly when the library renders that URL, and then carries that URL |
| LinksPage.LinksEditor.constructor | src/app/admin/links/page.tsx:20-25 | all three flags on, order reservation, line, phone |
| LinksPage.LinksEditor.Load | src/app/admin/links/page.tsx:31-53 | missing URLs load as empty; stored settings replace the defaults only when present |
| LinksPage.LinksEditor.ShowLinks | src/app/admin/links/page.tsx:55-79 | a successful QR or short-URL answer is shown; a failed one changes nothing |
| LinksPage.LinksEditor.Toggle | src/app/admin/links/page.tsx:117-119 | the settings become `ToggleCta` of the old ones |
| LinksPage.LinksEditor.Save | src/app/admin/links/page.tsx:81-94 | nothing without a shop; otherwise only the three URLs and the CTA settings |
| LinksPage.LinksEditor.Saved | src/app/admin/links/page.tsx:97-99 | a successful answer replaces the shop; a failure keeps it |
| MenuPage.PriceInput | src/app/admin/pages/menu/page.tsx:267 | an unreadable price becomes 0 |
| Common.NullIfZero | src/app/admin/pages/menu/page.tsx:277 | an unreadable or zero number becomes undefined (the routes' `|| null`); any other value is kept |
| MenuPage.MenuEditor.Load | src/app/admin/pages/menu/page.tsx:24-44 | the first shop's id and, on success, its categories and menus load |
| MenuPage.MenuEditor.AddCategory | src/app/admin/pages/menu/page.tsx:46-68 | a blank name or no shop sends nothing; on success the category is appended and the input cleared and closed; a failure changes nothing |
| MenuPage.MenuEditor.DeleteCategory | src/app/admin/pages/menu/page.tsx:70-80 | after confirmation the category and its menus leave the lists; otherwise nothing changes |
| MenuPage.LocalCategoryDeleteMatchesRoute | src/app/admin/pages/menu/page.tsx:75-76 | the local delete removes what the route's category delete removes |
| MenuPage.MenuEditor.AddMenu | src/app/admin/pages/menu/page.tsx:82-102 | the default menu is sent; on success it is appended and opened for editing |
| MenuPage.AddedMenuComesLast | src/app/admin/pages/menu/page.tsx:88-91 | a menu added from the page is named `新規メニュー`, priced 0, and ordered after its category's menus |
| MenuPage.MenuEditor.EditPrice | src/app/admin/pages/menu/page.tsx:267 | only the edited menu's price changes, to `PriceInput` |
| MenuPage.MenuEditor.EditDuration | src/app/admin/pages/menu/page.tsx:277 | only the edited menu's duration changes, to `NullIfZero` of the parsed input |
| MenuPage.MenuEditor.UpdateMenu | src/app/admin/pages/menu/page.tsx:104-121 | nothing without an edited menu; on success only the entry with its id becomes the answer and the sheet closes |
| MenuPage.LocalUpdateMatchesRoute | src/app/admin/pages/menu/page.tsx:115-116 | when the local list is the table, the local replacement equals the table after the `PUT` |
| MenuPage.MenuEditor.DeleteMenu | src/app/admin/pages/menu/page.tsx:123-132 | after confirmation only that menu leaves |
| StaffPage.AddRequest | src/app/admin/pages/staff/page.tsx:48-55 | the new member carries only the shop and the name `新しいスタッフ` |
| StaffPage.StaffEditor.Load | src/app/admin/pages/staff/page.tsx:21-40 | the first shop's id and, on success, its staff load |
| StaffPage.StaffEditor.AddStaff | src/app/admin/pages/staff/page.tsx:42-60 | on success the member is appended and opened for editing; a failure changes nothing |
| StaffPage.AddedStaffComesLast | src/app/admin/pages/staff/page.tsx:48-55 | a member added from the page has no role, photo or description and is ordered after the shop's staff |
| StaffPage.StaffEditor.UpdateStaff | src/app/admin/pages/staff/page.tsx:62-79 | nothing without an edited member; on success only the entry with its id becomes the answer and the sheet closes |
| StaffPage.LocalUpdateMatchesRoute | src/app/admin/pages/staff/page.tsx:73-74 | when the local list is the table, the local replacement equals the table after the `PUT` |
| StaffPage.StaffEditor.DeleteStaff | src/app/admin/pages/staff/page.tsx:81-90 | after confirmation only that member leaves |
| StaffPage.StaffEditor.ImageSelect | src/app/admin/pages/staff/page.tsx:92-103 | with a file, an edited member and a non-empty result, only that member's image changes; otherwise nothing does |
| StaffPage.PickedImageIsStored | src/app/admin/pages/staff/page.tsx:92-103 | a picked photo, once saved, is the photo the table returns |
| FaqPage.Templates | src/app/admin/pages/faq/page.tsx:9-15 | five templates, each with a question; the second, third and fifth have no answer |
| FaqPage.AddRequest | src/app/admin/pages/faq/page.tsx:57-58 | an empty question becomes `新しい質問` and an empty answer `回答を入力してください` |
| FaqPage.FaqEditor.Load | src/app/admin/pages/faq/page.tsx:29-48 | the first shop's id and, on success, its FAQs load |
| FaqPage.FaqEditor.ToggleTemplates | src/app/admin/pages/faq/page.tsx:161 | the template panel opens or closes |
| FaqPage.FaqEditor.AddFaq | src/app/admin/pages/faq/page.tsx:50-72 | on success the entry is appended and the template panel closes; the sheet opens only when no question was given; a failure changes nothing |
| FaqPage.FaqEditor.PickTemplate | src/app/admin/pages/faq/page.tsx:179 | the template's question and answer are sent; the sheet is not opened |
| FaqPage.TemplateStored | src/app/admin/pages/faq/page.tsx:9-15 | a template is stored with its question, and with the default answer exactly when it has none |
| FaqPage.AddAcceptedWithFreshId | src/app/admin/pages/faq/page.tsx:50-58 | with a fresh id every add from the page is accepted, and never stores an empty question or answer |
| FaqPage.FaqEditor.UpdateFaq | src/app/admin/pages/faq/page.tsx:74-91 | nothing without an edited entry; on success only the entry with its id becomes the answer and the sheet closes |
| FaqPage.LocalUpdateMatchesRoute | src/app/admin/pages/faq/page.tsx:85-86 | when the local list is the table, the local replacement equals the table after the `PUT` |
| FaqPage.FaqEditor.DeleteFaq | src/app/admin/pages/faq/page.tsx:93-102 | after confirmation only that entry leaves |
| TabNavigation.Tabs | src/components/admin/TabNavigation.tsx:7-13 | five tabs in the order home, posts, pages, links, settings, each under `/admin` |
| TabNavigation.HomeActiveOnlyOnExactPath | src/components/admin/TabNavigation.tsx:22 | the home tab is active iff the path is exactly `/admin` |
| TabNavigation.OtherTabsMatchByPrefix | src/components/admin/TabNavigation.tsx:22 | any other tab is active iff the path starts with its href |
| TabNavigation.HrefsArePrefixFree | src/components/admin/TabNavigation.tsx:7-13 | no href of the other tabs is a prefix of another |
| TabNavigation.AtMostOneActive | src/components/admin/TabNavigation.tsx:7-22 | no path activates two tabs |
| TabNavigation.ActiveTab | src/components/admin/TabNavigation.tsx:7-22 | the active tab, when there is one, is the only active tab; none exactly when no tab is active |
| TabNavigation.NewPostHighlightsPosts | src/components/admin/TabNavigation.tsx:22 | `/admin/posts/new` highlights the posts tab |
| TabNavigation.PrefixWithoutBoundaryHighlights | src/components/admin/TabNavigation.tsx:22 | `/admin/postscript` highlights the posts tab too |
| TabNavigation.OutsideAdminHighlightsNothing | src/components/admin/TabNavigation.tsx:22 | a path outside `/admin` highlights no tab |
| AdminPrototype.LoadState | public/admin.js:14-24 | a present cache that parses is used; otherwise the defaults |
| AdminPrototype.SavedStateReloads | public/admin.js:14-28 | a saved state loads back as itself |
| AdminPrototype.ParseList | public/admin.js:141 | every entry is non-empty, free of commas and trimmed |
| AdminPrototype.ParseJoinRoundTrip | public/admin.js:141 | parsing the comma-joined entries gives the entries back |
| AdminPrototype.ParseListIdempotent | public/admin.js:141 | parsing the joined result again changes nothing |
| AdminPrototype.ParseMedia | public/admin.js:142 | the same parsing as tags, on the field or the placeholder |
| AdminPrototype.EmptyMediaIsPlaceholder | public/admin.js:142 | an empty media field gives the placeholder image |
| AdminPrototype.BlankMediaHasNoImage | public/admin.js:142 | a blank but non-empty media field gives no image at all |
| AdminPrototype.NewPost | public/admin.js:139-146 | empty title, CTA and result take their defaults; tags and media are parsed; the date is the first 10 characters of the timestamp |
| AdminPrototype.AppState.constructor | public/admin.js:14-24 | the store holds the loaded site data |
| AdminPrototype.AppState.AddPost | public/admin.js:147 | the new post goes in front of the others |
| AdminPrototype.AppState.DeletePost | public/admin.js:131 | exactly the post at the index leaves; the others keep their order |
| AdminPrototype.AppState.AddFaq | public/admin.js:185 | the new FAQ goes at the end |
| AdminPrototype.AppState.DeleteFaq | public/admin.js:177 | exactly the FAQ at the index leaves; the others keep their order |
| AdminPrototype.AppState.Save | public/admin.js:200-219 | the form's site fields, theme, CTAs and availability note are written and stored; the rest is kept |
| AdminPrototype.AppState.ToggleAvailability | public/admin.js:225 | only `hasSlotsToday` flips |
| AdminPrototype.AppState.ResetLinks | public/admin.js:229-230 | only the short URL and QR label return to the defaults |
| Ordering.NextOrderIn | src/app/api/menus/route.ts:53-60 | above every order in scope, one more than the largest, or 1 when the scope is empty |
| Ordering.SortSorted | src/app/api/menus/route.ts:21-27 | the sort yields a sorted permutation |

## Left out

- Database access, `fetch`, `alert`, clipboard, `localStorage` and routing are not modelled. Tables are sequences, and each route answer a page receives is a parameter. The error paths that only catch a failed request (`catch` branches that log) change nothing and are not separate cases.
- Concurrency: the read-then-insert race of the analytics get-or-create, and concurrent taps. The model is single-threaded.
- UploadRoute.Upload: the file system and the form parser are outcomes passed in (`formRead`, `stored`); which of `mkdirSync`, `arrayBuffer` or `writeFileSync` threw is not distinguished, and the bytes written are not modelled.
- uuids, `Math.random`, the clock, the QR renderer, `sharp`, `FileReader`, `confirm`, `JSON.parse` of the prototype's cache, and `parseInt` are parameters or oracles. The model does not say how they compute.
- SQL ordering: `ORDER BY` is modelled as a stable insertion sort. Rows that tie keep table order, which SQLite does not promise.
- `Json` encodes and decodes arrays of strings in one canonical form. Whitespace and other JSON values in a column are not modelled.
- `src/app/api/shops/[id]/route.ts` (the `PUT` the shop and links pages call) is not part of this model. The pages' request bodies are modelled; the route that stores them is not.
- ShopsRoute.LowerChar: `toLowerCase` is modelled only for ASCII capitals and the two characters outside ASCII that lower to an ASCII letter. Every other character is kept, which is enough for the slug because the slug filter drops it or keeps it either way.
- The analytics `GET` default window `date('now', '-7 days')` is a `since` parameter.
- `todayAvailable` only restyles the reservation button. Colours, captions other than the reservation caption, and all layout are not modelled.
- Foreign keys: each route's table is modelled on its own, without the `shops` table, so no insert checks a foreign key, and deleting a shop or category does not cascade except where the route deletes explicitly (the category delete). The members below state success conditions that the source meets only for a known shop (and category).
- AnalyticsRoute.Recorded: the new day row's `shop_id` is not checked against the `shops` table. The database enforces the foreign key (src/lib/schema.ts:127), so a first tap of the day for an unknown shop is a 500 there; the model inserts the row and answers 200. The success condition stated is therefore one the source meets only for known shops.
- PostsRoute.Create: a post for an unknown shop violates the foreign key (src/lib/schema.ts:50) and is a 500 in the source; the model accepts it.
- MenusRoute.CreateCategory: a category for an unknown shop violates the foreign key (src/lib/schema.ts:63) and is a 500 in the source; the model accepts it.
- MenusRoute.CreateMenu: a menu for an unknown shop or an unknown category violates a foreign key (src/lib/schema.ts:80-81) and is a 500 in the source; the model accepts it.
- StaffRoute.Create: a staff row for an unknown shop violates the foreign key (src/lib/schema.ts:97) and is a 500 in the source; the model accepts it.
- FaqsRoute.Create: an FAQ for an unknown shop violates the foreign key (src/lib/schema.ts:111) and is a 500 in the source; the model accepts it.
- QrRoute.Created: a short URL for an unknown shop violates the foreign key (src/lib/schema.ts:138) and is a 500 in the source; the model inserts it.
- FaqPage.AddAcceptedWithFreshId: holds only for a `shopId` naming a stored shop; the page's empty `shopId` before its shop has loaded would fail the foreign key in the source.
- UNIQUE `subdomain` and `code`: a clash is a 500, as in the route, with no retry. The model does not estimate how likely a clash is.
- The onboarding progress bar (floating-point percentage) and the pages' loading and saving flags are not modelled.
- The static prototype's rendering, tab switching and the `reset-links` handler's aliasing are not modelled. When no cache exists, `appState` is the defaults object itself, so resetting copies a field onto itself. `AdminPrototype.AppState.ResetLinks` takes the defaults as a separate value.
- PostEditorPage.Editor.SelectImages: the readers' results arrive in file order, one after another. Interleaving with other edits is not modelled.
- The seeding of `public/main.js` and the purely presentational pages and components are outside the core.
