# List shaping for a luxury-interiors site, in Dafny

This project models the part of the site that shapes lists. That covers the public read
endpoints for services, products, projects and blog posts, two client-side filters on
the journal and work pages, and the index of the swipeable mobile section.

Every list endpoint runs the same five steps:

- read `limit` as `min(parseInt(limit || "50"), 100)`;
- read `offset` as `max(parseInt(offset || "0"), 0)`;
- apply an exact-equality filter for each filter parameter that is switched on;
- count the filtered records;
- return `slice(offset, offset + limit)` with `meta = {total, limit, offset}`.

Products, projects and posts are then mapped to a public shape. The mapping uses
JavaScript truthiness (`x || default`) and a media-URL helper.

Modules:

- `Js`: the JavaScript notions the code relies on:
  - `Option` (`None` is NaN where a number is meant, and `null` in a response);
  - `Nullable` (a record field that is `undefined`, `null` or a value);
  - truthiness, `|| null`, `|| []` and `|| false`;
  - `toLowerCase` and `includes`.
- `NumberParsing`: `parseInt(s, 10)`, which yields NaN (`None`) when no digit follows the optional whitespace and sign.
- `Seqs`: `filter`, `map` and `find` over sequences, with the facts the routes need (membership, order, conjunction of filters).
- `Listing`: the shared steps above, including `Array.prototype.slice` with negative and NaN arguments. Also the multi-page client walk, which shows that paging visits every record once.
- `Media`: image keys to URLs, and the featured-image fallback chain.
- `ServicesRoute`, `ProductsRoute`, `ProjectsRoute`, `BlogRoute`: one module per endpoint.
- `JournalPage`, `WorkPage`: the client-side filters over their literal data.
- `SwipeableSection`: the drag and indicator transitions of the current index.

Things the model makes explicit:

- The data-access layer's published collections are parameters (`published`).
- The media-URL helper is a parameter (`mediaUrl: string -> string`).
- A `meta.limit` or `meta.offset` that is NaN is serialised as `null`, so both are `Option<int>`.

Three consequences of the paging code that are easy to miss:

- `limit` has only an upper bound. `limit=0` gives an empty page. A negative `limit` that still leaves `offset + limit` at 0 or above also gives an empty page (`Listing.WindowShortNegativeLimit`). A negative `offset + limit` counts the end of the slice back from the end of the list (`Listing.WindowNegativeEnd`, `Listing.NegativeLimitDropsLast`).
- An `offset` past the end of the list gives an empty page, so `offset + data.length` then exceeds `total` (`Listing.OffsetPastEnd`).
- Text with no leading digits escapes the clamp: `parseInt` gives NaN, and `Math.min`/`Math.max` keep it. The page is then empty and `meta` reports `null` (`Listing.Window`, `Listing.ListPage`).

## Model

| member | source | states |
|---|---|---|
| NumberParsing.ParseInt | app/api/public/services/route.ts:21-22 | `parseInt(s, 10)`: NaN exactly when, after leading whitespace and one optional sign, no digit follows; a negative result needs a leading `-` |
| NumberParsing.ParseIntRoundTrip | app/api/public/services/route.ts:21-22 | any integer written in decimal reads back as itself |
| NumberParsing.ParseSignedDigits | app/api/public/services/route.ts:21-22 | a digit string with an optional `-` reads as its signed decimal value |
| NumberParsing.ParseIntSkipsWhiteSpace | app/api/public/services/route.ts:21-22 | leading whitespace does not change what `parseInt` reads |
| NumberParsing.ParseIntIgnoresTrailing | app/api/public/services/route.ts:21-22 | text after the digits (such as `"20abc"`) is ignored |
| Listing.ParamOr | app/api/public/services/route.ts:21-22 | a missing or empty parameter takes the fallback text, any other value is kept |
| Listing.ParseLimit | app/api/public/services/route.ts:21 | `meta.limit` is never above 100; it is 50 when the parameter is missing or empty; otherwise it is NaN exactly when the text does not parse, and `min(parsed, 100)` when it does |
| Listing.ParseLimitReadsFallback | app/api/public/services/route.ts:21 | the limit is `parseInt` of the parameter, or of the text `"50"` when it is missing or empty, capped at 100 |
| Listing.DefaultLimitParses | app/api/public/services/route.ts:21 | the fallback text `"50"` reads as 50 |
| Listing.ParseOffset | app/api/public/services/route.ts:22 | `meta.offset` is never negative; it is 0 when the parameter is missing or empty; otherwise it is NaN exactly when the text does not parse, and `max(parsed, 0)` when it does |
| Listing.ParseOffsetReadsFallback | app/api/public/services/route.ts:22 | the offset is `parseInt` of the parameter, or of the text `"0"` when it is missing or empty, floored at 0 |
| Listing.DefaultOffsetParses | app/api/public/services/route.ts:22 | the fallback text `"0"` reads as 0 |
| Listing.TextFilter | app/api/public/services/route.ts:23 | the category filter is on exactly when the parameter is present and non-empty, and then it carries that text |
| Listing.FlagFilter | app/api/public/services/route.ts:24 | a flag filter is on exactly when the parameter is the text `"true"` |
| Listing.AddNumbers | app/api/public/services/route.ts:121 | `offset + limit` is NaN when either side is, and their sum otherwise |
| Listing.SliceIndex | app/api/public/services/route.ts:121 | a `slice` argument always lands inside `[0, length]` |
| Listing.Slice | app/api/public/services/route.ts:121 | `slice` returns the records from the resolved start index up to the resolved end index, and nothing when the end resolves before the start |
| Listing.WindowNonNegative | app/api/public/services/route.ts:121 | for non-negative `limit` and `offset` the slice is `items[min(offset,n) .. min(offset+limit,n)]`, at most `limit` long |
| Listing.Window | app/api/public/services/route.ts:121 | `slice(offset, offset + limit)` runs from the resolved offset to the resolved `offset + limit`, and is empty when `limit` or `offset` is NaN or when that end lies before the start |
| Listing.WindowNegativeEnd | app/api/public/services/route.ts:21 | with no lower bound on `limit`, a negative `offset + limit` counts the end from the back of the list |
| Listing.NegativeLimitDropsLast | app/api/public/services/route.ts:121 | `limit=-k`, `offset=0` returns every record but the last `k` |
| Listing.WindowShortNegativeLimit | app/api/public/services/route.ts:121 | a negative `limit` with `offset + limit` still at 0 or above gives an empty page |
| Listing.Page | app/api/public/services/route.ts:118-131 | for parsed `limit` and `offset`: `success` is true, `meta` is `{total: filtered count, limit, offset}`, and `data` is the filtered records from the resolved offset to the resolved `offset + limit`, empty when either value is NaN |
| Listing.ListPage | app/api/public/services/route.ts:118-131 | `success` is true, `total` is the filtered count, `meta` echoes the parsed `limit` and `offset`, and `data` is the filtered records from the resolved offset to the resolved `offset + limit`, empty when either value is NaN |
| Listing.ListPageFrom | app/api/public/services/route.ts:121 | every returned record comes from the filtered list |
| Listing.ListPageWindow | app/api/public/services/route.ts:121 | with a parsed non-negative `limit`, `data` is exactly the filtered records from `offset` to `offset + limit`, in order |
| Listing.OffsetPastEnd | app/api/public/services/route.ts:121-129 | an offset past the end gives an empty page, with `offset + data.length > total` |
| Listing.MapResponse | app/api/public/products/route.ts:49-86 | mapping the page leaves `success` and `meta` alone and maps each record in place |
| Listing.PageQueryParses | app/api/public/services/route.ts:21-22 | a client's in-range `limit` and `offset`, sent as text, are read back unchanged |
| Listing.RequestPage | app/api/public/services/route.ts:21-22 | one request returns the records from `offset` to `offset + limit` |
| Listing.PagesFromStep | app/api/public/services/route.ts:121 | collecting pages from `offset` is the current window followed by the pages after it |
| Listing.PagesReassemble | app/api/public/services/route.ts:118-121 | requesting consecutive pages from `offset` collects exactly the remaining records, each once, in order |
| Listing.LaterPages | app/api/public/services/route.ts:118-121 | the pages after the one at `offset` hold exactly the records after that window |
| Listing.PagingCoversList | app/api/public/services/route.ts:118-121 | paging from 0 with any limit in `[1, 100]` reassembles the whole filtered list |
| Seqs.Filter | app/api/public/products/route.ts:32-40 | `filter` never grows the list, and every kept element comes from the list and satisfies the predicate |
| Seqs.FilterMembership | app/api/public/products/route.ts:32-40 | an element is kept exactly when it is in the list and satisfies the predicate |
| Seqs.FilterMultiplicity | app/api/public/products/route.ts:32-40 | every copy of a matching element is kept and no copy of any other |
| Seqs.FilterIsSubsequence | app/api/public/products/route.ts:32-40 | `filter` preserves relative order |
| Seqs.FilterConjunction | app/api/public/products/route.ts:32-40 | filtering by one predicate then another is filtering once by both |
| Seqs.FilterKeepsAll | app/api/public/products/route.ts:32-40 | a predicate true of every element keeps the list unchanged |
| Seqs.FilterKeepsNone | app/work/page.tsx:76 | a predicate true of no element keeps nothing |
| Seqs.FilterSamePredicate | app/api/public/products/route.ts:32-40 | two predicates that agree on the elements give the same result |
| Seqs.FilterWhen | app/api/public/products/route.ts:32-40 | a filter applied only under a condition is a filter by `condition ==> predicate` |
| Seqs.Map | app/api/public/products/route.ts:49 | `map` keeps the length and maps each position |
| Seqs.FindIndex | app/journal/page.tsx:102 | the index found is the first one satisfying the predicate; none is found exactly when no element satisfies it |
| Seqs.Find | app/journal/page.tsx:102 | `find` returns nothing exactly when no element satisfies the predicate, and otherwise an element satisfying it with none before it |
| Js.StringOrNull | app/api/public/products/route.ts:60 | defaulting text to null is null exactly for a missing, null or empty value, and otherwise the stored text |
| Js.ArrayOrEmpty | app/api/public/products/route.ts:67 | defaulting an array to `[]` keeps any stored array, empty or not, and gives `[]` for a missing or null one |
| Js.ObjectOrNull | app/api/public/products/route.ts:70 | defaulting an object to null keeps any stored object and gives null for a missing or null one |
| Js.RealOrNull | app/api/public/products/route.ts:63 | defaulting `price` to null gives null exactly for a missing, null or zero price |
| Js.IntOrNull | app/api/public/projects/route.ts:54 | defaulting `year` to null gives null exactly for a missing, null or zero number |
| Js.BoolOrFalse | app/api/public/products/route.ts:68 | defaulting `featured` to false gives true exactly when the stored flag is `true` |
| Js.ToLower | app/journal/page.tsx:95-96 | lower-casing keeps the length and lower-cases each character |
| Js.LowerCharIdempotent | app/journal/page.tsx:95-96 | lower-casing a character twice is lower-casing it once |
| Js.ToLowerIdempotent | app/journal/page.tsx:95-96 | lower-casing text twice is lower-casing it once |
| Js.Includes | app/journal/page.tsx:95-96 | every text includes the empty text, and a text that includes another is at least as long |
| Js.IncludesIff | app/journal/page.tsx:95-96 | `s.includes(sub)` holds exactly when `sub` occurs in `s` at some position |
| Media.ImageUrls | app/api/public/products/route.ts:51 | `images` has one URL per stored key, `mediaUrl(key_i)` at position `i`, and is empty when no keys are stored |
| Media.FeaturedImageUrl | app/api/public/products/route.ts:52-54 | the featured image is `mediaUrl(key)` for a non-empty key, else the first image URL if that is non-empty, else null |
| Media.NoImagesGiveNull | app/api/public/projects/route.ts:41-44 | with no featured key and no image keys the featured image is null, never undefined |
| Media.FeaturedImageIsMediaUrl | app/api/public/projects/route.ts:41-44 | a present featured image is always a URL the media helper produced |
| ServicesRoute.FilterServicesMatches | app/api/public/services/route.ts:109-115 | the category filter followed by the featured filter keeps exactly the services matching every filter switched on, in order |
| ServicesRoute.FilterServices | app/api/public/services/route.ts:109-115 | the two filters never grow the list, and every kept service is from the list, has the requested category, and is featured when `featured` is on |
| ServicesRoute.GetServicesFrom | app/api/public/services/route.ts:109-131 | `success` is true; `total` counts the matching services; every returned service is from the list and has the requested category, and is featured under `featured=true`; `meta` echoes the parsed window |
| ServicesRoute.GetServices | app/api/public/services/route.ts:109-131 | over the static list, `success` is true, `total` is the number of services matching every filter switched on, `meta` echoes the parsed `limit` and `offset`, and every returned service is one of the six and matches every filter switched on |
| ServicesRoute.ServicesTotalIgnoresWindow | app/api/public/services/route.ts:118 | `total` does not depend on `limit` or `offset` |
| ServicesRoute.ServicesPageWindow | app/api/public/services/route.ts:121 | for a non-negative window, `data` is exactly the filtered services from `offset` to `offset + limit`, in order |
| ServicesRoute.EmptyCategoryIsNoFilter | app/api/public/services/route.ts:23 | `category=` gives the same response as no category |
| ServicesRoute.FeaturedOnlyTrueFilters | app/api/public/services/route.ts:113-115 | any `featured` value but `"true"`, including `"false"`, gives the same response as none |
| ServicesRoute.FeaturedServices | app/api/public/services/route.ts:27-106 | the featured services are the first, second and fifth, in that order |
| ServicesRoute.ServicesCategory | app/api/public/services/route.ts:27-106 | category `services` holds the third, fourth and sixth services |
| ServicesRoute.StaticTotalAll | app/api/public/services/route.ts:109-118 | with no filters `total` is 6 |
| ServicesRoute.StaticTotalFeatured | app/api/public/services/route.ts:113-118 | with `featured=true` `total` is 3 |
| ServicesRoute.StaticTotalCategory | app/api/public/services/route.ts:110-118 | with `category=services` `total` is 3 |
| ProductsRoute.ToPublic | app/api/public/products/route.ts:49-75 | the public product: image URLs and the featured-image fallback; `title` falls back to `name`, `slug` to `id`, `currency` to `KES`; `price`, `description`, `subcategory`, `seo_title` and `seo_description` are the stored value when truthy and null otherwise; `specifications` is the stored object or null; `in_stock` is true only when undefined (null stays null, false stays false); `featured` defaults to false and `tags` to `[]`; `category` is copied |
| ProductsRoute.FilterChainSteps | app/api/public/products/route.ts:32-40 | each of the three optional filters is a filter by "switched off, or matches" |
| ProductsRoute.PassesAreMatches | app/api/public/products/route.ts:32-40 | the conjunction of the three switched filters is the query's match predicate |
| ProductsRoute.FilterProducts | app/api/public/products/route.ts:32-40 | the three filters never grow the list, and every kept product is from the list, has the requested category, and is featured or in stock when those filters are on |
| ProductsRoute.FilterProductsMatches | app/api/public/products/route.ts:32-40 | the three filters in sequence keep exactly the products matching every filter switched on, in order |
| ProductsRoute.GetProducts | app/api/public/products/route.ts:22-86 | `success` is true; `total` counts the matching products before slicing; `meta` echoes the parsed window; every returned product shows the requested category, and `featured`/`in_stock` true under those filters |
| ProductsRoute.ProductsTotalIgnoresWindow | app/api/public/products/route.ts:43 | `total` does not depend on `limit` or `offset` |
| ProductsRoute.ProductsPageWindow | app/api/public/products/route.ts:46-76 | for a non-negative window, `data` is the public shape of exactly the filtered products from `offset` to `offset + limit`, in order |
| ProductsRoute.InStockDefaultNotSelected | app/api/public/products/route.ts:38-39 | a product with no stock flag is reported `in_stock: true`, yet `in_stock=true` does not select it |
| ProductsRoute.FalsyValuesInPublicShape | app/api/public/products/route.ts:63-69 | an explicit `in_stock: false` is kept and a zero price is reported as null |
| ProjectsRoute.ToPublic | app/api/public/projects/route.ts:39-63 | the public project: image URLs and the featured-image fallback; `featured_image_key` is the raw non-empty key or null; `description`, `short_description`, `client_name`, `location`, `completion_date` and `year` are the stored value when truthy and null otherwise; `featured` defaults to false and `tags` to `[]`; both SEO fields are always null |
| ProjectsRoute.FilterProjectsMatches | app/api/public/projects/route.ts:28-30 | the optional featured filter is a filter by the query's match predicate |
| ProjectsRoute.GetProjects | app/api/public/projects/route.ts:20-74 | `success` is true; `total` counts the matching projects, all of them when the filter is off; `meta` echoes the parsed window; under `featured=true` every returned project is featured |
| ProjectsRoute.ProjectsTotalIgnoresWindow | app/api/public/projects/route.ts:33 | `total` does not depend on `limit` or `offset` |
| ProjectsRoute.ProjectsPageWindow | app/api/public/projects/route.ts:36-64 | for a non-negative window, `data` is the public shape of exactly the filtered projects from `offset` to `offset + limit`, in order |
| BlogRoute.ToPublic | app/api/public/blog/route.ts:34-50 | the public post: `images` is always empty; `featured_image` is `mediaUrl(key)` for a non-empty key, else null, with no fallback; `published_at` takes `published_at`, else `publish_date`, else null; `excerpt`, `category`, `read_time`, `seo_title` and `seo_description` are the stored value when truthy and null otherwise; `tags` defaults to `[]` |
| BlogRoute.GetPosts | app/api/public/blog/route.ts:20-60 | `success` is true, `total` is the number of published posts, `meta` echoes the parsed window, and no returned post has images |
| BlogRoute.PostsPageWindow | app/api/public/blog/route.ts:31-50 | for a non-negative window, `data` is the public shape of exactly the posts from `offset` to `offset + limit`, in order |
| BlogRoute.PostsIgnoreFilters | app/api/public/blog/route.ts:20-31 | `category`, `featured` and `in_stock` parameters have no effect |
| JournalPage.FilterArticles | app/journal/page.tsx:92-100 | every shown article passes both the search and the category test |
| JournalPage.FeaturedArticle | app/journal/page.tsx:102 | the featured article is a listed article marked featured, and there is none exactly when no article is marked featured |
| JournalPage.FilteredArticles | app/journal/page.tsx:92-100 | the shown articles are at most the six listed ones, each from the list and passing both the search and the category test |
| JournalPage.FilterArticlesMembership | app/journal/page.tsx:92-100 | an article is shown exactly when it is listed and passes both tests |
| JournalPage.FilteredIsSubsequence | app/journal/page.tsx:92 | the shown articles keep the list order |
| JournalPage.EmptyQueryNoRestriction | app/journal/page.tsx:93-98 | with an empty search, "All" shows everything and any other tab shows exactly its category |
| JournalPage.AllNoRestriction | app/journal/page.tsx:97-98 | under "All" only the search decides |
| JournalPage.ShownArticlesContainQuery | app/journal/page.tsx:95-96 | for a non-empty search, every shown article holds the lower-cased query in its lower-cased title or excerpt |
| JournalPage.SearchIgnoresCase | app/journal/page.tsx:95-96 | lower-casing the query does not change what is shown |
| JournalPage.FeaturedArticleIsFirst | app/journal/page.tsx:102 | the featured article is article 1, and it depends on no search or tab state |
| JournalPage.UntabbedOnlyUnderAll | app/journal/page.tsx:86-98 | an article whose category has no tab is shown only under "All" |
| JournalPage.MaintenanceOnlyUnderAll | app/journal/page.tsx:73-98 | the "Maintenance" article is shown only under "All", and is shown there with an empty search |
| JournalPage.InitialShowsAll | app/journal/page.tsx:89-100 | the initial state shows every article |
| WorkPage.FilterProjects | app/work/page.tsx:73-76 | under any tab but "All", every shown project has exactly that category |
| WorkPage.FilteredProjects | app/work/page.tsx:71-76 | the "All" tab shows the portfolio unchanged, and any other tab shows only projects of exactly that category |
| WorkPage.FilterProjectsMembership | app/work/page.tsx:73-76 | a project is shown exactly when the tab is "All" or names its category |
| WorkPage.FilterProjectsOrder | app/work/page.tsx:73-76 | the shown projects keep the list order, and "All" shows the list unchanged |
| WorkPage.InitialShowsAll | app/work/page.tsx:71-76 | the initial tab shows the whole portfolio in list order |
| WorkPage.ResidentialProjects | app/work/page.tsx:13-76 | "Residential" shows projects 1, 2 and 5, in that order |
| WorkPage.LuxuryTabIsEmpty | app/work/page.tsx:11-76 | `Luxury` is one of the tabs, projects 1, 3 and 5 carry the tag `Luxury`, and the `Luxury` tab shows no project because the filter compares only the category |
| SwipeableSection.DragEnd | components/mobile/swipeable-section.tsx:27-47 | a right swipe happens exactly when the offset exceeds 50 and the index is above 0, and moves it down by one; a left swipe happens exactly when the offset is below -50 and the index is below the last, and moves it up by one; otherwise nothing changes |
| SwipeableSection.Step | components/mobile/swipeable-section.tsx:33-70 | a drag moves the index by at most one and keeps an in-range index in range, and a click on indicator `i` sets the index to `i` |
| SwipeableSection.Run | components/mobile/swipeable-section.tsx:23-70 | a sequence of events fires no more swipe callbacks than it has drags, and a sequence of indicator clicks fires none |
| SwipeableSection.RunFirstEvent | components/mobile/swipeable-section.tsx:27-70 | a click sets the index to its target and fires no callback; a drag moves the index as `handleDragEnd` decides and fires its reported direction, if any |
| SwipeableSection.SmallDragIgnored | components/mobile/swipeable-section.tsx:31-46 | a drag within 50 pixels either way changes nothing and fires no callback |
| SwipeableSection.StepInRange | components/mobile/swipeable-section.tsx:33-70 | one drag or indicator click keeps the index on a child |
| SwipeableSection.RunInRange | components/mobile/swipeable-section.tsx:33-70 | any sequence of drags and indicator clicks keeps the index on a child, and fires at most one callback per event |
| SwipeableSection.FromInitialInRange | components/mobile/swipeable-section.tsx:23-70 | from the initial index 0, with at least one child, the index always names a child |
| SwipeableSection.EmptySectionStaysAtZero | components/mobile/swipeable-section.tsx:23-46 | with no children, drags never move the index off 0 and fire no callback |
| SwipeableSection.LeftSwipesAdvance | components/mobile/swipeable-section.tsx:38-46 | `k` left swipes advance the index by `k`, stopping at the last child, with one callback per move |

## Left out

- Request and response plumbing is not modelled: `NextRequest`/`NextResponse`, JSON serialisation, `console.error`, and the `{success: false}` 500 responses of the catch blocks. The modelled handlers never throw once their inputs are given.
- The data-access calls (`productsAPI`, `projectsAPI`, `blogAPI`) and `getPublicMediaUrl` are not part of this model. Their results are parameters.
- The services' `created_at`/`updated_at` timestamps read the clock, so they are left out. Also left out of `Service` are `icon`, `featured_image` and `images`, which are constant null or empty in the static data.
- Single-item slug routes, the inquiries route, the admin, contact and products pages, and animation, loading and theme code are all outside the list-shaping core.
- `parseInt` reads integers exactly. A digit string long enough to lose precision as a JavaScript double, or to overflow to `Infinity`, is not modelled.
- The whitespace `parseInt` skips is the ECMAScript WhiteSpace and LineTerminator set, written out by code point.
- `Js.ToLower` lower-cases ASCII letters only. Full Unicode case mapping is not modelled.
- `price` is a real, `year` and `read_time` are integers, and the drag offset is a real number. Floating-point rounding and NaN-valued record fields are not modelled.
- A record field that holds a value of the wrong JavaScript type, such as a text `featured`, is not modelled; fields carry their declared types.
- Haptic feedback and framer-motion rendering in the swipeable section are not modelled. The `onSwipe` callback is modelled as the direction the transition reports.
- The journal search is not evaluated on concrete query text over the literal articles. Its behaviour is stated for every query over any article list instead.
