# ElevenLabs agent for Odoo — a verified model of its decision logic

This project is a Dafny model of the logic in the ElevenLabs voice-agent add-on for Odoo. It covers the parts of the add-on that decide something. Modules:

- **WidgetGate, WidgetTriggers, WidgetCarousel, WidgetTools** (`static/src/js/elevenlabs_widget.js`), the storefront widget:
  - the page classifier and the show/hide page lists;
  - the geographic, device and logged-in filters;
  - the fixed order in which `initializeElevenLabsWidget` applies them;
  - the one-shot trigger system: delay, scroll, time on page and exit intent race to mount the widget once;
  - the paging of the product-card carousel;
  - the normalisation of the client-tool parameters for showing cards and adding to the cart.
- **AgentWidget** (`static/src/js/elevenlabs_agent.js`), the older public-widget variant:
  - its own page classifier, which uses ordered substring tests, and its own show/hide rule;
  - the size and position tables;
  - the order of the checks in `start`;
  - the customer-segment test over localStorage;
  - its cart mapping.
  - Lemmas set this variant side by side with the storefront widget.
- **ProductSearch** (`controllers/main.py`):
  - how a search request is normalised (limit clamp, empty query, word split, short description);
  - the search of the static fallback catalog, with its word, category, price and stock filters and its early stop at the limit;
  - the SKU lookup and its catalog fallback.
- **AgentUsage** (`models/elevenlabs_agent_usage.py`):
  - the identification constraint and the public user id;
  - the daily and global message limits;
  - the in-place session updates.
- **Usage** (`models/elevenlabs_usage.py`):
  - the per-(session, user) usage records and their uniqueness;
  - get-or-create;
  - the ordered daily/global/session limit check;
  - cleanup of old records.
- **Text, JsValues and Wrappers** hold the language semantics the code relies on:
  - JavaScript's `split`, `trim`, `includes`, truthiness, `||` and property access, which throws on `null` and `undefined`;
  - Python's whitespace `split()`, `in`, `lower()` and `upper()`.

Code that changes state is imperative Dafny. The trigger system, the carousel, the legacy widget's storage and the two Odoo tables are classes. The trigger system, the carousel and the two tables have a `Valid()` invariant that their methods keep. The legacy widget has no invariant: its methods state the storage, counters and warning they leave behind. Every method states the whole new state. Loops are methods with invariants: the catalog walk, the database result copy, the carousel display and repeated timer ticks. The catalog walk and the result copy are proved equal to specification functions, and lemmas are proved about those functions. The carousel display states each card slot and button directly. The repeated ticks state the counter, timer, mount flag and listeners as closed formulas in the old state and the number of seconds. Decision tables and filters are functions.

Odoo tables are sequences of records, newest first, which is the models' `create_date desc` order. `search(..., limit=1)` is the first matching record. A `user_id` is a `nat`, with 0 for no user. A NULL text field is `None`.

## Model

| member | source | states |
|---|---|---|
| Text.Split | static/src/js/elevenlabs_widget.js:445 | `split(',')` yields at least one piece, and no piece holds the separator |
| Text.JoinSplit | static/src/js/elevenlabs_widget.js:473 | joining the pieces of a split with the separator gives back the string |
| Text.SplitJoin | static/src/js/elevenlabs_widget.js:473 | splitting a join of separator-free pieces gives back the pieces |
| Text.Trim | static/src/js/elevenlabs_widget.js:452 | `trim()` is a contiguous piece of the text with only whitespace before and after it; it is empty exactly when the text is blank, and otherwise starts and ends with a non-space |
| Text.TrimIsInfix | static/src/js/elevenlabs_widget.js:452 | the trimmed text is the infix left after a whitespace-only head and a whitespace-only tail |
| Text.TrimEnds | static/src/js/elevenlabs_widget.js:452 | a non-empty trimmed text starts and ends with a non-space |
| Text.TrimEmptyIffBlank | static/src/js/elevenlabs_agent.js:218 | trimming leaves nothing exactly when the text is blank |
| Text.TrimIdempotent | static/src/js/elevenlabs_widget.js:445 | trimming twice is trimming once |
| Text.TrimEach | static/src/js/elevenlabs_agent.js:218 | `map(p => p.trim())` keeps the length and trims each entry in place |
| Text.DropEmpty | static/src/js/elevenlabs_widget.js:473 | `filter(s => s !== '')` keeps exactly the non-empty entries |
| Text.SplitOfSeparators | static/src/js/elevenlabs_widget.js:473 | a path made only of `/` splits into empty segments |
| Text.SplitOfBlank | static/src/js/elevenlabs_agent.js:218 | every piece of a blank list is blank |
| Text.WordLength | controllers/main.py:177 | the run of non-whitespace a text starts with, ending at whitespace or the end |
| Text.Words | controllers/main.py:177 | `query.split()` yields non-empty words without whitespace, and none exactly for an all-whitespace query |
| Text.WordsOfGapWordRest | controllers/main.py:177 | after leading whitespace, the first maximal run of non-whitespace is the first word, and the rest of the text splits on its own |
| Text.WordsOfJoin | controllers/main.py:288 | words joined by single spaces split back into the same words |
| Text.ContainsAt | controllers/main.py:293-296 | `word in text` / `includes` holds exactly when the word occurs at some offset |
| Text.ContainsOfExtension | static/src/js/elevenlabs_agent.js:250-253 | a path containing `/contactus` (or any extension of a text) contains `/contact` |
| Text.ContainsPrefix | static/src/js/elevenlabs_agent.js:244 | a path contains every prefix it starts with |
| Text.Lower | controllers/main.py:288 | `lower()` keeps the length and lowers each character |
| Text.Upper | controllers/main.py:53 | `upper()` keeps the length and raises each character |
| Text.UpperOfLower | controllers/main.py:53 | upper-casing a lowered text without lower-case letters gives it back |
| JsValues.Or | static/src/js/elevenlabs_widget.js:930-937 | JavaScript's logical or of two values is one of its operands, and truthy exactly when either operand is |
| JsValues.FirstTruthy | static/src/js/elevenlabs_widget.js:930-937 | the first truthy value of a list, or the fallback when none is truthy |
| JsValues.OrExtendsFirstTruthy | static/src/js/elevenlabs_widget.js:930-937 | a left-nested chain of JavaScript's logical or picks the first truthy operand, and the last operand when none is |
| JsValues.OrIsFirstTruthy | static/src/js/elevenlabs_widget.js:800 | the logical or of two values picks `a` when it is truthy, else `b`, as a one-element first-truthy search |
| JsValues.OrChainIsFirstTruthy2 | static/src/js/elevenlabs_widget.js:937 | a three-operand or-chain is a first-truthy search over its first two operands |
| JsValues.OrChainIsFirstTruthy3 | static/src/js/elevenlabs_widget.js:936 | a four-operand or-chain is a first-truthy search over its first three operands |
| JsValues.OrChainIsFirstTruthy | static/src/js/elevenlabs_widget.js:933 | a five-operand or-chain is a first-truthy search over its first four operands |
| JsValues.Prop | static/src/js/elevenlabs_widget.js:794-800 | reading a key of an object gives its value when present and `undefined` when absent; any non-object value gives `undefined` |
| WidgetGate.PageType | static/src/js/elevenlabs_widget.js:465-476 | `/` is `homepage`; the tag is never empty and holds no `/`; any tag other than `other` is a segment of the path |
| WidgetGate.OnlySlashesIsOther | static/src/js/elevenlabs_widget.js:473-474 | a path of slashes only, other than `/`, is `other` |
| WidgetGate.FirstSegmentIsPageType | static/src/js/elevenlabs_widget.js:473-474 | a path of one or more slashes, a segment, then nothing or a `/` and anything (`/seg/...`, `//seg`) is classified `seg` |
| WidgetGate.LeadingSlashesDropped | static/src/js/elevenlabs_widget.js:473 | leading slashes only add empty segments, so removing them leaves the non-empty segments unchanged |
| WidgetGate.PageList | static/src/js/elevenlabs_widget.js:445 | list entries are trimmed and non-empty; an unset list is empty |
| WidgetGate.PageAllowed | static/src/js/elevenlabs_widget.js:440-463 | shown iff not in the hide list and (show list blank or page in it), in both directions |
| WidgetGate.ShouldShowOnCurrentPage | static/src/js/elevenlabs_widget.js:440-463 | the current path's page tag is shown iff it is not in the hide list and the show list is blank or names it; the root path is judged as `homepage` |
| WidgetGate.PassesDeviceFiltering | static/src/js/elevenlabs_widget.js:489-501 | refuses only `desktop` on mobile and `mobile` on desktop; any other setting passes |
| WidgetGate.DeviceFiltersAreComplementary | static/src/js/elevenlabs_widget.js:492-496 | exactly one of the `desktop` and `mobile` filters admits a visitor |
| WidgetGate.IsPublicUser | static/src/js/elevenlabs_widget.js:233 | a non-empty `userIsPublic` attribute decides: public iff it reads `True` |
| WidgetGate.ExclusionWithoutPublicFlag | static/src/js/elevenlabs_widget.js:271 | without the flag, the exclusion applies iff it is on and the user id is set to something other than `0`, `public` and `undefined` |
| WidgetGate.LoggedInExcluded | static/src/js/elevenlabs_widget.js:271 | defines the exclusion: it is switched on, the visitor is not public, and the user id is present and is none of empty, `0` and `undefined` |
| WidgetGate.MountGate | static/src/js/elevenlabs_widget.js:252-298 | the triggers are armed iff every check passes; each refusal holds iff every earlier check passed and that one failed, in the order page, geography, device, logged-in, enabled, agent id; geography never refuses |
| WidgetGate.InitializeElevenLabsWidget | static/src/js/elevenlabs_widget.js:252-298 | a fresh trigger system exactly when the gate passes, and the agent-id warning exactly when only the id is missing |
| WidgetTriggers.ScrollReached | static/src/js/elevenlabs_widget.js:75-79 | for a non-zero height, the division-free scroll test holds iff `(scrollTop/docHeight)*100 >= threshold`; for a zero height, iff the offset is positive (the quotient is +Infinity, NaN at 0, -Infinity below) |
| WidgetTriggers.TriggerSystem.constructor | static/src/js/elevenlabs_widget.js:30-140 | each trigger is armed iff configured; an all-zero configuration mounts at once; nothing is armed exactly for a negative setting among disabled ones |
| WidgetTriggers.TriggerSystem.CreateWidgetOnce | static/src/js/elevenlabs_widget.js:43-63 | mounts at most once (`mountCount` stays 1); a second call changes nothing; the scroll and exit listeners are removed |
| WidgetTriggers.TriggerSystem.DelayElapsed | static/src/js/elevenlabs_widget.js:67-70 | the delay fires once and mounts iff it was pending; a mount removes both listeners, which are otherwise kept |
| WidgetTriggers.TriggerSystem.Tick | static/src/js/elevenlabs_widget.js:89-99 | one more second counted while running; the interval stops and mounts on the first tick reaching the threshold; a mount removes both listeners, which are otherwise kept |
| WidgetTriggers.TriggerSystem.TickFor | static/src/js/elevenlabs_widget.js:89-99 | after `n` ticks of a running timer the counter is `old + n` below the threshold, or the threshold itself with the interval cleared and the widget mounted; a stopped timer changes nothing; the listeners stay iff nothing mounts |
| WidgetTriggers.TriggerSystem.Scroll | static/src/js/elevenlabs_widget.js:73-86 | mounts iff the scroll listener is still registered and the threshold is reached; a mount removes both listeners, which are otherwise kept |
| WidgetTriggers.TriggerSystem.MouseOut | static/src/js/elevenlabs_widget.js:105-117 | exit intent fires once, only when the pointer leaves the window or reaches `HTML`, and never after a mount; a mount removes both listeners, which are otherwise kept |
| WidgetTriggers.TriggerSystem.MouseMove | static/src/js/elevenlabs_widget.js:119-128 | exit intent fires once, only above `clientY` 50, and never after a mount; a mount removes both listeners, which are otherwise kept |
| WidgetCarousel.IndicatorCount | static/src/js/elevenlabs_widget.js:650-660 | one indicator per started page of three, and none when everything fits on one page |
| WidgetCarousel.ProductCarousel.constructor | static/src/js/elevenlabs_widget.js:677-690 | the carousel starts on the first card |
| WidgetCarousel.ProductCarousel.Prev | static/src/js/elevenlabs_widget.js:724-731 | back by three, clamped at 0; nothing at the start |
| WidgetCarousel.ProductCarousel.Next | static/src/js/elevenlabs_widget.js:733-740 | forward by three but never past `count - 3`; nothing once the last card shows |
| WidgetCarousel.ProductCarousel.GoToPage | static/src/js/elevenlabs_widget.js:743-749 | an indicator jumps to its page's first card, which becomes the active page |
| WidgetCarousel.ProductCarousel.UpdateDisplay | static/src/js/elevenlabs_widget.js:692-722 | at most three consecutive existing cards from `currentIndex`; prev disabled iff at 0; next disabled iff the last card shows |
| WidgetCarousel.OpenProductModal | static/src/js/elevenlabs_widget.js:509-569 | a modal with a carousel on its first page opens iff the parameters hold products |
| WidgetTools.ProductsParam | static/src/js/elevenlabs_widget.js:509-527 | an array is used as is; an object contributes its `products` array, failing that its `Products` array, failing both none; anything else none |
| WidgetTools.ShowProductCard | static/src/js/elevenlabs_widget.js:509-534 | nothing is shown iff the product list is empty; otherwise the modal holds exactly that list |
| WidgetTools.WrappedProductsShowSameCards | static/src/js/elevenlabs_widget.js:1048 | `{products: r}` and `{Products: r}` show the same cards as `r` |
| WidgetTools.CartItems | static/src/js/elevenlabs_widget.js:790-813 | throws iff the parameters are nullish; an `items` array, failing that an `Items` array, failing that the array itself are the items; otherwise a truthy `product`/`Product` becomes the one item whose product is the first truthy of `product, Product` and whose quantity is the first truthy of `quantity, Quantity`, else 1; no product gives none |
| WidgetTools.WidgetCartLine | static/src/js/elevenlabs_widget.js:930-937 | each field is the first truthy of its keys: SKU of `sku, SKU, product, Product` else `DEFAULT`; id of `id, product_id` else `null`; name of `product, Product, name` else empty; quantity of `quantity, Quantity` else 1 |
| WidgetTools.MapItems | static/src/js/elevenlabs_widget.js:930-937 | `map` throws iff some item is nullish, and otherwise maps every item in order |
| WidgetTools.AddToCart | static/src/js/elevenlabs_widget.js:790-813 | throws iff the parameters are nullish or some item is; otherwise line `i` is the cart line of item `i`, with a truthy SKU and quantity |
| WidgetTools.SingleProductAddsOneUnit | static/src/js/elevenlabs_widget.js:800-806 | `{product: name}` adds one unit under that name, with no id |
| WidgetTools.SingleProductIsOneItem | static/src/js/elevenlabs_widget.js:800-806 | `{product: name}` is read as the single item of that product with quantity 1 |
| WidgetTools.SingleItemLine | static/src/js/elevenlabs_widget.js:930-937 | that item's cart line has the name as SKU and display name, a `null` id and quantity 1 |
| AgentWidget.PageType | static/src/js/elevenlabs_agent.js:239-257 | each tag holds iff its test is the first that matches, in the order `/` (homepage), `/shop` or `/product`, `/cart`, `/checkout`, `/contact`, `/about`; `other` iff none does |
| AgentWidget.ShopPagesDiffer | static/src/js/elevenlabs_agent.js:244 | `/shop...` is `shop` for the storefront widget but `product` here |
| AgentWidget.ProductPathsComeFirst | static/src/js/elevenlabs_agent.js:244-246 | every path starting with `/product` is `product`, even a cart path |
| AgentWidget.PageAllowed | static/src/js/elevenlabs_agent.js:215-237 | shown iff a set show list names the page and a set hide list does not, with trimmed entries and empty entries kept |
| AgentWidget.ShouldShowOnCurrentPage | static/src/js/elevenlabs_agent.js:215-237 | the current path's page tag is shown iff an unset show list or its trimmed entries admit it and an unset hide list or its trimmed entries do not name it; the root path is judged as `homepage` |
| AgentWidget.VisibilityRulesAgree | static/src/js/elevenlabs_agent.js:215-237 | both variants' list rules agree on every page tag unless the show list is blank but not empty |
| AgentWidget.ListMembershipAgrees | static/src/js/elevenlabs_agent.js:218 | a non-empty tag is in the cleaned list iff it is among the trimmed entries |
| AgentWidget.BlankShowListDiffers | static/src/js/elevenlabs_agent.js:217-223 | a blank, non-empty show list shows the storefront widget but never this one |
| AgentWidget.WidgetSize | static/src/js/elevenlabs_agent.js:197-213 | one of three sizes, each reached from exactly one case: 300x400 iff `small`, 450x600 iff `large`, 380x500 iff anything else |
| AgentWidget.SizesAreOrdered | static/src/js/elevenlabs_agent.js:200-210 | the three sizes grow strictly in width and height |
| AgentWidget.Position | static/src/js/elevenlabs_agent.js:154-170 | three named corners; anything else is bottom-right |
| AgentWidget.PositionRoundTrip | static/src/js/elevenlabs_agent.js:154-170 | every corner is reached by its name, and the four names read back |
| AgentWidget.StartGate | static/src/js/elevenlabs_agent.js:65-114 | initialises iff every check passes, deferred by `triggerDelay*1000` ms iff the delay is positive; each refusal holds iff every earlier check passed and that one failed, in the order page, geography, device, logged-in, enabled, agent id |
| AgentWidget.StartChecksPass | static/src/js/elevenlabs_agent.js:65-114 | defines the checks of `start` that must all pass: page visibility, device filter, logged-in exclusion, enabled flag, agent id (the geographic check always passes); StartGate proves it is exactly the initialise-now-or-later case |
| AgentWidget.StartIgnoresSegmentSettings | static/src/js/elevenlabs_agent.js:83-87 | the segment settings do not change `start`'s decision |
| AgentWidget.LegacyAgentWidget.Start | static/src/js/elevenlabs_agent.js:12-123 | the decision is `StartGate`; initialises now or schedules once; storage untouched; warning only for a missing id |
| AgentWidget.LegacyAgentWidget.DelayElapsed | static/src/js/elevenlabs_agent.js:106-110 | the scheduled timeout initialises once |
| AgentWidget.LegacyAgentWidget.PassesCustomerSegmentTargeting | static/src/js/elevenlabs_agent.js:284-309 | a stored visit mark refuses first-time-only; its absence is recorded; then the segment switch decides; the mark is always stored afterwards |
| AgentWidget.SegmentAllows | static/src/js/elevenlabs_agent.js:297-308 | every segment other than `first_time` and `returning` (`vip`, `all`, anything else) admits everyone |
| AgentWidget.SegmentsAreComplementary | static/src/js/elevenlabs_agent.js:297-302 | `first_time` and `returning` split every visitor between them, on whether the returning mark is stored and non-empty |
| AgentWidget.LoadPage | static/src/js/elevenlabs_agent.js:12-123 | a page load initialises the widget exactly once when every check passes, and never otherwise |
| AgentWidget.SecondVisitRefused | static/src/js/elevenlabs_agent.js:286-294 | with first-time-only on, the second test in a browser always refuses |
| AgentWidget.CartLineOf | static/src/js/elevenlabs_agent.js:567-572 | the SKU is the first truthy of `product, Product, sku, SKU`, else `DEFAULT`; the quantity the first truthy of `quantity, Quantity`, else 1 |
| AgentWidget.AddToCart | static/src/js/elevenlabs_agent.js:482-507 | fails iff the items cannot be read or one is nullish; otherwise line `i` is the cart line of item `i` |
| AgentWidget.SkuPreferenceDiffers | static/src/js/elevenlabs_agent.js:567-572 | an item with both a SKU and a product goes under its SKU in the storefront widget but its product here |
| ProductSearch.EffectiveLimit | controllers/main.py:158 | never above 20 and never 0; missing or 0 gives 6; a limit up to 20 is kept |
| ProductSearch.EffectiveLimitIdempotent | controllers/main.py:158 | clamping a clamped limit changes nothing |
| ProductSearch.ShortDescription | controllers/main.py:231 | the description itself up to 200 characters, else its first 200 and `...` |
| ProductSearch.ShortDescriptionIdempotent | controllers/main.py:331 | shortening a short description changes nothing |
| ProductSearch.QueryWords | controllers/main.py:288 | one lower-cased, non-empty word per whitespace-separated word |
| ProductSearch.QueryWordsOfTypedWords | controllers/main.py:288 | words typed with single spaces come back lower-cased |
| ProductSearch.PriceFilterIsRange | controllers/main.py:310-317 | with parseable bounds the price test is `min <= price <= max` |
| ProductSearch.UnparseableMinimumSkipsMaximum | controllers/main.py:310-317 | an unparseable minimum lets every price through, whatever the maximum |
| ProductSearch.EmptyFiltersMatchEverything | controllers/main.py:291-321 | no words and no filters match every catalog item |
| ProductSearch.MatchingItems | controllers/main.py:290-321 | exactly the catalog items passing every test |
| ProductSearch.TextMatches | controllers/main.py:293-302 | defines the text test: every query word occurs in the lower-cased name or the lower-cased description |
| ProductSearch.AllWordsInOfConcat | controllers/main.py:297-300 | the words are joined by AND: a list of words matches iff each part of it matches |
| ProductSearch.CategoryMatches | controllers/main.py:304-306 | defines the category test: no category, or the lower-cased category occurs in the item's lower-cased category |
| ProductSearch.OwnCategoryMatches | controllers/main.py:304-306 | no category matches every item, and so does the item's own category name |
| ProductSearch.PricePasses | controllers/main.py:308-317 | defines the price test as written, one `try` around both bounds; PriceFilterIsRange and UnparseableMinimumSkipsMaximum state what it means |
| ProductSearch.StockPasses | controllers/main.py:319-321 | every catalog entry passes the stock test, with or without `in_stock_only` |
| ProductSearch.Matches | controllers/main.py:291-321 | defines a match as passing all four tests of the loop body, in order |
| ProductSearch.MatchingItemsOfPrefix | controllers/main.py:290-340 | the matches of a prefix of the catalog are a prefix of all matches |
| ProductSearch.MatchingItemsStep | controllers/main.py:290-323 | the next item joins the matches iff it passes every test |
| ProductSearch.CatalogHits | controllers/main.py:323-337 | one catalog hit per item, in order |
| ProductSearch.Cap | controllers/main.py:339-340 | the loop stops at the limit, after at least one hit |
| ProductSearch.StaticSearchSoundAndComplete | controllers/main.py:282-342 | at most `limit` hits; each hit is a catalog item passing every test; all matches when fewer than the cap |
| ProductSearch.SearchStaticCatalog | controllers/main.py:282-342 | the static search returns the first matches of the catalog up to the limit, in catalog order |
| ProductSearch.SearchItems | controllers/main.py:290-340 | the loop with its early `break` returns the hits of the first `Cap(limit)` matching items, in order |
| ProductSearch.CatalogHitsStep | controllers/main.py:290-337 | one more item adds its hit iff it passes every test |
| ProductSearch.FirstMatchHitsAtCap | controllers/main.py:339-340 | once the matches so far reach the cap, they are the whole result |
| ProductSearch.FirstMatchHitsBelowCap | controllers/main.py:290-342 | when the whole catalog matches fewer items than the cap, all of them are returned |
| ProductSearch.TruncateToInt | controllers/main.py:249 | Python's `int()` on a float: the integer part, at most one unit toward zero from the value |
| ProductSearch.InStockAgreesWithQuantity | controllers/main.py:248-249 | a positive `stock_quantity` implies `in_stock`; they agree for catalog hits and for whole database quantities |
| ProductSearch.FractionalStockReportsZero | controllers/main.py:248-249 | a database quantity strictly between 0 and 1 is in stock with `stock_quantity` 0 |
| ProductSearch.SearchProducts | controllers/main.py:143-269 | empty query rejected with no products; otherwise `total_count` is the number of hits; database hits in order, else the static search with the clamped limit, at most 20 |
| ProductSearch.FindBySku | controllers/main.py:53 | a catalog item with exactly the key, or none has it |
| ProductSearch.GetProductBySku | controllers/main.py:23-68 | success iff not the placeholder; the database product iff there is a database match, then the catalog by upper-cased SKU, else the not-found placeholder named after the SKU |
| ProductSearch.CatalogSkusAreUpperAndDistinct | controllers/main.py:344-403 | catalog SKUs are distinct and hold no lower-case letter |
| ProductSearch.StaticCatalog | controllers/main.py:344-403 | seven entries, and every catalog entry is listed |
| ProductSearch.SkuLookupIgnoresCase | controllers/main.py:52-57 | every catalog entry is found by its SKU in lower case |
| AgentUsage.CheckUserIdentification | models/elevenlabs_agent_usage.py:78-85 | passes iff exactly one of user and public id is set; the two errors for neither and both |
| AgentUsage.Prefix16 | models/elevenlabs_agent_usage.py:99 | the first 16 characters, or all of a shorter text |
| AgentUsage.PublicUserId | models/elevenlabs_agent_usage.py:87-99 | `public_` and the first 16 digest characters of the IP, `unknown` standing for a missing IP |
| AgentUsage.UnknownIpsShareOneId | models/elevenlabs_agent_usage.py:93-94 | missing and empty IPs share the id of `unknown` |
| AgentUsage.PublicUserIdLength | models/elevenlabs_agent_usage.py:87-99 | with 64-character digests every public id has 23 characters |
| AgentUsage.PublicRecordIsIdentified | models/elevenlabs_agent_usage.py:78-99 | a record owned by a public id passes the identification check |
| AgentUsage.DayStart | models/elevenlabs_agent_usage.py:117 | midnight of the day holding `now`, at most one day before it |
| AgentUsage.OwnerOf | models/elevenlabs_agent_usage.py:125-128 | the user when given, else the public id |
| AgentUsage.TotalNonNegative | models/elevenlabs_agent_usage.py:131-132 | a sum of non-negative counts is non-negative |
| AgentUsage.OwnerTotalAtMostGlobal | models/elevenlabs_agent_usage.py:153-173 | one owner's daily total never exceeds the global total |
| AgentUsage.TotalAfterUpdate | models/elevenlabs_agent_usage.py:187-214 | replacing one record changes a total by the difference of its contributions |
| AgentUsage.LimitDecision | models/elevenlabs_agent_usage.py:113-139 | a limit of 0 or less is unlimited; otherwise allowed iff below the limit, `remaining` never negative |
| AgentUsage.CheckDailyLimit | models/elevenlabs_agent_usage.py:101-139 | a daily limit of 0 or less allows everything (count 0, remaining -1); otherwise the count is the owner's active messages since midnight, allowed iff it is below the limit, and remaining is what is left of the limit, 0 once refused |
| AgentUsage.CheckGlobalLimit | models/elevenlabs_agent_usage.py:141-173 | a global limit of 0 or less allows everything (count 0, remaining -1); otherwise the count is everyone's active messages since midnight, allowed iff it is below the limit, and remaining is what is left of the limit, 0 once refused |
| AgentUsage.DailyRefusalImpliesGlobalRefusal | models/elevenlabs_agent_usage.py:101-173 | the global count is at least the daily one, so a daily refusal is a global refusal at the same limit |
| AgentUsage.FindSession | models/elevenlabs_agent_usage.py:182 | the first record of the session, or none has it |
| AgentUsage.AgentUsageTable.constructor | models/elevenlabs_agent_usage.py:9-76 | an empty table satisfies the identification constraint |
| AgentUsage.AgentUsageTable.GetSessionMessageCount | models/elevenlabs_agent_usage.py:175-185 | the first matching record's count, or 0 |
| AgentUsage.AgentUsageTable.IncrementSessionMessages | models/elevenlabs_agent_usage.py:187-198 | one more message on the first record of the session, returning the new count; nothing and no change for an unknown session |
| AgentUsage.AgentUsageTable.EndSession | models/elevenlabs_agent_usage.py:200-214 | the first record of the session becomes inactive with an end date; the result says whether one was found |
| AgentUsage.SessionStaysFirst | models/elevenlabs_agent_usage.py:187-198 | updating a session's first record keeps it first |
| AgentUsage.EndedSessionStopsCounting | models/elevenlabs_agent_usage.py:200-214 | ending a session drops exactly its record's contribution from every total |
| AgentUsage.IncrementCountsOnce | models/elevenlabs_agent_usage.py:187-198 | a new message adds one to every total counting its record and leaves the others alone |
| Usage.KeysOfHolds | models/elevenlabs_usage.py:64-70 | a key is among the table's keys iff some record has it |
| Usage.FindUsage | models/elevenlabs_usage.py:78-86 | the first record of the session and user (by user id, else identifier), or none matches |
| Usage.NewUsageRecord | models/elevenlabs_usage.py:92-106 | a new record of one message, owned by the user or the identifier, never both, that the lookup matches |
| Usage.SessionMessagesAfterIncrement | models/elevenlabs_usage.py:88-91 | one more message on a record is one more for its session only |
| Usage.IncrementKeepsUnique | models/elevenlabs_usage.py:88-91 | incrementing keeps the keys and their uniqueness |
| Usage.UsageTable.constructor | models/elevenlabs_usage.py:8-70 | an empty table is unique |
| Usage.UsageTable.GetOrCreateUsageRecord | models/elevenlabs_usage.py:72-106 | created iff nothing matches; a created record goes first with one message, otherwise the match gets one more; the table grows by at most one record; the session gets exactly one message more; keys stay unique |
| Usage.UsageTable.CleanupOldRecords | models/elevenlabs_usage.py:194-202 | keeps exactly the records created at or after the cutoff, in order, and reports how many went |
| Usage.NewKeyIsFresh | models/elevenlabs_usage.py:64-70 | when nothing matches, the created record's key is new |
| Usage.Kept | models/elevenlabs_usage.py:199-201 | a record is kept iff it was created at or after the cutoff |
| Usage.KeptKeepsValid | models/elevenlabs_usage.py:194-202 | deleting old records keeps uniqueness and the single owner column |
| Usage.ValidTableHasNoSqlConflict | models/elevenlabs_usage.py:64-70 | a record holding only one owner column can never trip the SQL constraint |
| Usage.PublicLookupMatchesUserRecord | models/elevenlabs_usage.py:78-86 | a lookup with neither user nor identifier matches a logged-in user's record of the session |
| Usage.UserFilterOf | models/elevenlabs_usage.py:130-135 | counts by user, else by a non-empty identifier, else over all records |
| Usage.CountRecords | models/elevenlabs_usage.py:137-141 | never more than the table's records |
| Usage.DailyCountAtMostGlobal | models/elevenlabs_usage.py:127-141 | records since a day start never outnumber all records |
| Usage.CheckUserLimits | models/elevenlabs_usage.py:108-180 | the three usages; the reason is the first limit reached of daily, global, session; the widget may show iff there is none |
| Usage.UnsetLimitsNeverBlock | models/elevenlabs_usage.py:151-180 | daily usage never exceeds global usage, and limits of 0 or less never block |

## Left out

- Timers, event listeners and DOM work become discrete events and return values. This covers `setTimeout`, `setInterval`, `addEventListener`, HTML and CSS building, `createProductCardsHTML`, `showCartAnimation`, the debug panel and dialogs.
- Network calls are not modelled: `fetch`, `ajax.jsonRpc` and the cart endpoint. The model stops at the request it would send.
- Reading settings from the container and the session is not modelled. That covers `parseInt`, `parseFloat` and `|| 0` on data attributes, and reading the user from `odoo.session_info` or storage. These values arrive already parsed.
- The user-agent regular expression is given as the boolean `isMobile`. The cookie test of `_isLoggedIn` is given as the boolean `isLoggedIn`.
- `_passesGeographicRestrictions` performs no lookup in the source, so it is the constant `true`.
- The scroll percentage is compared over the reals without dividing. A zero document height follows IEEE division: infinity or NaN.
- Numbers are unbounded reals or integers, with no floating-point rounding.
- The Odoo ORM is not modelled. The database search domain of `search_products` (controllers/main.py:179-218) and the database lookup of `get_product_by_sku` arrive as their results. The result entries keep only the fields that carry decisions. URLs, images, formatted prices and `_get_product_variants` are left out. `min(int(limit or 6), 20)` lets a negative limit through, and controllers/main.py:220 passes it to the database search before the static fallback runs. The model takes that search's result as given. So the case where a limit below 1 lets one static hit through (see `Cap`) is reached only if the database search with that limit returns normally.
- Prices are integer cents. Stock quantities are reals, and `int()` on them truncates toward zero. A price bound that `float()` rejects is the `Unparseable` case.
- EffectiveLimit: the limit arrives as an optional integer, so `int(limit or 6)` on a float (which truncates) and the `ValueError` that `int()` raises on non-numeric text are not modelled.
- The SHA-256 hex digest is a function parameter. `generate_user_identifier_from_ip` (models/elevenlabs_usage.py:182-192) is not part of this model, because it depends on hashing and UUIDs.
- The clock is a parameter in whole seconds. The day starts at a multiple of 86400 seconds in the clock's own zone.
- Odoo keeps an empty text apart from NULL, and the model keeps them apart as `Some("")` and `None`. The JavaScript settings treat an unset text as the empty string.
- Case mapping covers ASCII letters only. The catalog SKUs are ASCII.
- These handlers of the legacy widget are not modelled, because they only build HTML or call the network: `_handleShowProductCard`, `_bindProductCardEvents` and `_handleSearchProducts` in `static/src/js/elevenlabs_agent.js`. The storefront widget's equivalents are modelled.
- The cart-add route decorator at controllers/main.py:70 sits on `get_product_details`, so it declares no handler of its own. Record display names, `name_get`, are not modelled either.
- Usage.UsageTable.Valid: uniqueness is stated with NULLs compared as values, which is stronger than the SQL constraint. `Usage.ValidTableHasNoSqlConflict` relates the two.
- The widgets' client-tool registration and the dispatch of search results are not modelled. Only the parameter normalisation they call is.
