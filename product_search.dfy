/**
 * The product search endpoint: request normalisation (limit clamp, empty query, word split,
 * short description), the search over the static fallback catalog with its word, category, price
 * and stock filters and its early stop at the limit, and the SKU lookup's catalog fallback. The
 * database search itself is given as its result.
 */
module ProductSearch {
  import opened Wrappers
  import opened Text

  // ---------------------------------------------------------------------------
  // Request normalisation

  const DefaultLimit: int := 6
  const MaxLimit: int := 20

  /**
   * `min(int(limit or 6), 20)`: a missing or zero limit becomes 6, no limit exceeds 20, and a
   * limit in range is kept (negative ones included).
   */
  function EffectiveLimit(limit: Option<int>): (n: int)
    ensures n <= MaxLimit && n != 0
    ensures limit.None? || limit == Some(0) ==> n == DefaultLimit
    ensures limit.Some? && limit.value != 0 && limit.value <= MaxLimit ==> n == limit.value
    ensures limit.Some? && limit.value > MaxLimit ==> n == MaxLimit
  {
    var requested := if limit.None? || limit.value == 0 then DefaultLimit else limit.value;
    if requested < MaxLimit then requested else MaxLimit
  }

  /** Normalising an already normalised limit changes nothing. */
  lemma EffectiveLimitIdempotent(limit: Option<int>)
    ensures EffectiveLimit(Some(EffectiveLimit(limit))) == EffectiveLimit(limit)
  {
  }

  const ShortDescriptionLength: nat := 200

  /**
   * The `short_description` of a hit: the description itself up to 200 characters, otherwise its
   * first 200 characters followed by `...`.
   */
  function ShortDescription(description: string): (short: string)
    ensures |description| <= ShortDescriptionLength ==> short == description
    ensures |description| > ShortDescriptionLength ==>
              |short| == ShortDescriptionLength + 3 &&
              short[..ShortDescriptionLength] == description[..ShortDescriptionLength] &&
              short[ShortDescriptionLength..] == "..."
  {
    if |description| > ShortDescriptionLength then description[..ShortDescriptionLength] + "..." else description
  }

  /** Shortening a short description again changes nothing. */
  lemma ShortDescriptionIdempotent(description: string)
    ensures ShortDescription(ShortDescription(description)) == ShortDescription(description)
  {
    var short := ShortDescription(description);
    if |description| > ShortDescriptionLength {
      assert short[..ShortDescriptionLength] == description[..ShortDescriptionLength];
      assert short[..ShortDescriptionLength] + "..." == short;
    }
  }

  /**
   * The static search's words: `query.split()`, each stripped and lower-cased. The words of
   * `split()` hold no whitespace, so stripping keeps them and none is dropped as empty.
   */
  function QueryWords(query: string): (words: seq<string>)
    ensures |words| == |Words(query)|
    ensures forall i :: 0 <= i < |words| ==> words[i] == Lower(Words(query)[i]) && words[i] != []
  {
    var ws := Words(query);
    seq(|ws|, i requires 0 <= i < |ws| => Lower(ws[i]))
  }

  /** Words typed with single spaces between them come back as those words, lower-cased. */
  lemma QueryWordsOfTypedWords(ws: seq<string>)
    requires forall i :: 0 <= i < |ws| ==> ws[i] != [] && HasNoPySpace(ws[i])
    ensures |QueryWords(Join(ws, ' '))| == |ws|
    ensures forall i :: 0 <= i < |ws| ==> QueryWords(Join(ws, ' '))[i] == Lower(ws[i])
  {
    WordsOfJoin(ws);
  }

  // ---------------------------------------------------------------------------
  // The static catalog

  /**
   * The entries of the fallback catalog of `_get_static_catalog`; each one's fields are member
   * functions. Prices are in cents, and every entry is in stock.
   */
  datatype CatalogItem =
    | ConferenceChair | MacBookAirM2 | GalaxyS24Ultra | IPhone15Pro | AirForce1 | Ultraboost22 | AirPodsPro2
  {
    function Sku(): string {
      match this
      case ConferenceChair => "WH-1000XM5"
      case MacBookAirM2 => "MACBOOK-AIR-M2"
      case GalaxyS24Ultra => "S24-ULTRA"
      case IPhone15Pro => "IPHONE-15-PRO"
      case AirForce1 => "AF1-WHITE"
      case Ultraboost22 => "ADIDAS-ULTRA"
      case AirPodsPro2 => "AIRPODS-PRO-2"
    }

    function Name(): string {
      match this
      case ConferenceChair => "Conference Chair"
      case MacBookAirM2 => "Apple MacBook Air 13-inch M2 (2024)"
      case GalaxyS24Ultra => "Samsung Galaxy S24 Ultra"
      case IPhone15Pro => "iPhone 15 Pro"
      case AirForce1 => "Nike Air Force 1 '07"
      case Ultraboost22 => "Adidas Ultraboost 22"
      case AirPodsPro2 => "Apple AirPods Pro (2nd Gen)"
    }

    function PriceCents(): int {
      match this
      case ConferenceChair => 3300
      case MacBookAirM2 => 109900
      case GalaxyS24Ultra => 129999
      case IPhone15Pro => 99900
      case AirForce1 => 11000
      case Ultraboost22 => 19000
      case AirPodsPro2 => 24900
    }

    function Description(): string {
      match this
      case ConferenceChair =>
        "A comfortable ergonomic office chair with adjustable height and lumbar support. Perfect for long working sessions."
      case MacBookAirM2 =>
        "Supercharged by M2 chip. Features a 13.6-inch Liquid Retina display, 8-core CPU, 10-core GPU, and up to 18-hour battery life."
      case GalaxyS24Ultra =>
        "Epic, just like that. Features a 6.8-inch display, 200MP camera, S Pen included, and Galaxy AI for intelligent assistance."
      case IPhone15Pro =>
        "Titanium. So strong. So light. So Pro. Features A17 Pro chip, 48MP camera system, and Action button."
      case AirForce1 =>
        "The radiance lives on. Classic white leather basketball sneaker with Air cushioning for all-day comfort."
      case Ultraboost22 =>
        "Incredible energy return. Features Boost midsole, Primeknit upper, and Linear Energy Push system for responsive cushioning."
      case AirPodsPro2 =>
        "Up to 2x more Active Noise Cancellation. Features H2 chip, USB-C charging case, and up to 30 hours of total listening time."
    }

    function Category(): string {
      match this
      case ConferenceChair => "Office Furniture"
      case AirForce1 | Ultraboost22 => "Footwear"
      case _ => "Electronics"
    }

    function InStock(): bool {
      true
    }
  }

  /** `_get_static_catalog`, in its declaration order. */
  function StaticCatalog(): (catalog: seq<CatalogItem>)
    ensures |catalog| == 7
    ensures forall it: CatalogItem :: it in catalog
  {
    var catalog := [ConferenceChair, MacBookAirM2, GalaxyS24Ultra, IPhone15Pro, AirForce1, Ultraboost22, AirPodsPro2];
    assert forall it: CatalogItem :: it in catalog by {
      forall it: CatalogItem ensures it in catalog {
        assert it == catalog[0] || it == catalog[1] || it == catalog[2] || it == catalog[3] ||
               it == catalog[4] || it == catalog[5] || it == catalog[6];
      }
    }
    catalog
  }

  // ---------------------------------------------------------------------------
  // Filters

  /** A price bound as passed in: absent, a number (in cents), or text that does not parse. */
  datatype PriceBound = NoBound | Bound(cents: int) | Unparseable

  /** The filter settings of one search; an absent category is the empty string. */
  datatype Filters = Filters(
    words: seq<string>,
    category: string,
    minPrice: PriceBound,
    maxPrice: PriceBound,
    inStockOnly: bool)

  /** Every query word occurs in the lower-cased name or the lower-cased description. */
  predicate TextMatches(item: CatalogItem, words: seq<string>) {
    AllWordsIn(Lower(item.Name()), Lower(item.Description()), words)
  }

  /** Every word occurs in one of the two texts. */
  predicate AllWordsIn(name: string, description: string, words: seq<string>) {
    forall i :: 0 <= i < |words| ==> Contains(name, words[i]) || Contains(description, words[i])
  }

  /** The words are joined by AND: a query matches iff each part of it matches on its own. */
  lemma AllWordsInOfConcat(name: string, description: string, a: seq<string>, b: seq<string>)
    ensures AllWordsIn(name, description, a + b) <==> AllWordsIn(name, description, a) && AllWordsIn(name, description, b)
  {
    if AllWordsIn(name, description, a + b) {
      forall i | 0 <= i < |a| ensures Contains(name, a[i]) || Contains(description, a[i]) {
        assert (a + b)[i] == a[i];
      }
      forall i | 0 <= i < |b| ensures Contains(name, b[i]) || Contains(description, b[i]) {
        assert (a + b)[|a| + i] == b[i];
      }
    }
  }

  /** No category asked for, or it occurs in the item's category, ignoring case. */
  predicate CategoryMatches(item: CatalogItem, category: string) {
    category == [] || Contains(Lower(item.Category()), Lower(category))
  }

  /** No category matches every item, and so does the item's own category, written in any case. */
  lemma OwnCategoryMatches(item: CatalogItem)
    ensures CategoryMatches(item, [])
    ensures CategoryMatches(item, item.Category())
  {
    ContainsPrefix(Lower(item.Category()), []);
    assert Lower(item.Category()) + [] == Lower(item.Category());
  }

  /**
   * The price test of the static search as written: the bounds are converted one after the other
   * inside one `try`, so a minimum that does not parse skips the maximum as well.
   */
  predicate PricePasses(price: int, minPrice: PriceBound, maxPrice: PriceBound) {
    if minPrice.Unparseable? then true
    else if minPrice.Bound? && price < minPrice.cents then false
    else if maxPrice.Unparseable? then true
    else !(maxPrice.Bound? && price > maxPrice.cents)
  }

  /** With bounds that parse, the price test is `min <= price <= max` over the bounds given. */
  lemma PriceFilterIsRange(price: int, minPrice: PriceBound, maxPrice: PriceBound)
    requires !minPrice.Unparseable? && !maxPrice.Unparseable?
    ensures PricePasses(price, minPrice, maxPrice) <==>
              (minPrice.Bound? ==> minPrice.cents <= price) && (maxPrice.Bound? ==> price <= maxPrice.cents)
  {
  }

  /** An unparseable minimum lets every price through, whatever the maximum. */
  lemma UnparseableMinimumSkipsMaximum(price: int, maxPrice: PriceBound)
    ensures PricePasses(price, Unparseable, maxPrice)
  {
  }

  /** The stock test; every catalog entry counts as in stock, so it never removes one. */
  predicate StockPasses(item: CatalogItem, inStockOnly: bool)
    ensures StockPasses(item, inStockOnly)
  {
    !inStockOnly || item.InStock()
  }

  /** All four tests of the loop body of `_search_static_catalog`. */
  predicate Matches(item: CatalogItem, f: Filters) {
    TextMatches(item, f.words) && CategoryMatches(item, f.category) &&
    PricePasses(item.PriceCents(), f.minPrice, f.maxPrice) && StockPasses(item, f.inStockOnly)
  }

  /** With no words, no category, no price bounds and no stock filter, every item matches. */
  lemma EmptyFiltersMatchEverything(item: CatalogItem)
    ensures Matches(item, Filters([], [], NoBound, NoBound, false))
  {
  }

  /** The items that pass every test, in catalog order. */
  function MatchingItems(items: seq<CatalogItem>, f: Filters): (matching: seq<CatalogItem>)
    ensures |matching| <= |items|
    ensures forall it :: it in matching ==> it in items && Matches(it, f)
    ensures forall it :: it in items && Matches(it, f) ==> it in matching
  {
    if items == [] then []
    else
      var last := items[|items| - 1];
      assert items == items[..|items| - 1] + [last];
      MatchingItems(items[..|items| - 1], f) + (if Matches(last, f) then [last] else [])
  }

  /** The matches among a prefix of the items are a prefix of all the matches. */
  lemma {:induction false} MatchingItemsOfPrefix(items: seq<CatalogItem>, f: Filters, n: nat)
    requires n <= |items|
    ensures var prefix := MatchingItems(items[..n], f);
            |prefix| <= |MatchingItems(items, f)| && prefix == MatchingItems(items, f)[..|prefix|]
    decreases |items|
  {
    if n < |items| {
      var init := items[..|items| - 1];
      assert init[..n] == items[..n];
      MatchingItemsOfPrefix(init, f, n);
    } else {
      assert items[..n] == items;
    }
  }

  /** One more catalog item adds it to the matches exactly when it passes every test. */
  lemma MatchingItemsStep(items: seq<CatalogItem>, i: nat, f: Filters)
    requires i < |items|
    ensures Matches(items[i], f) ==> MatchingItems(items[..i + 1], f) == MatchingItems(items[..i], f) + [items[i]]
    ensures !Matches(items[i], f) ==> MatchingItems(items[..i + 1], f) == MatchingItems(items[..i], f)
  {
    assert items[..i + 1][..i] == items[..i];
    assert MatchingItems(items[..i], f) + [] == MatchingItems(items[..i], f);
  }

  // ---------------------------------------------------------------------------
  // Results

  /** The stock quantity reported for catalog items, which count as unlimited. */
  const CatalogStockQuantity: int := 999

  /**
   * One product of a search response, from the database or from the catalog; the member functions
   * are the fields of the response entry that carry data (URLs, images, variants and formatting
   * are left out).
   */
  datatype Hit = DbHit(product: DbProduct) | CatalogHit(item: CatalogItem)
  {
    /** The database id, or the SKU for a catalog entry. */
    function Id(): HitId {
      match this
      case DbHit(p) => ProductId(p.id)
      case CatalogHit(it) => CatalogSku(it.Sku())
    }

    /** The internal reference, empty when a database product has none. */
    function Sku(): string {
      match this
      case DbHit(p) => p.defaultCode
      case CatalogHit(it) => it.Sku()
    }

    /** The sale description of a database product, failing that its internal one. */
    function Description(): string {
      match this
      case DbHit(p) => if p.descriptionSale != [] then p.descriptionSale else p.description
      case CatalogHit(it) => it.Description()
    }

    function ShortDescriptionField(): string {
      ShortDescription(Description())
    }

    /** A database product is in stock exactly when its quantity is positive. */
    function InStock(): bool {
      match this
      case DbHit(p) => p.qtyAvailable > 0.0
      case CatalogHit(it) => it.InStock()
    }

    /** `int(qty_available)` for a database product, the nominal quantity for a catalog entry. */
    function StockQuantity(): int {
      match this
      case DbHit(p) => TruncateToInt(p.qtyAvailable)
      case CatalogHit(_) => CatalogStockQuantity
    }
  }

  datatype HitId = ProductId(id: int) | CatalogSku(sku: string)

  function CatalogHits(items: seq<CatalogItem>): (hits: seq<Hit>)
    ensures |hits| == |items| && forall i :: 0 <= i < |items| ==> hits[i] == CatalogHit(items[i])
  {
    if items == [] then []
    else
      var hits := CatalogHits(items[..|items| - 1]) + [CatalogHit(items[|items| - 1])];
      assert forall i :: 0 <= i < |items| - 1 ==> items[i] == items[..|items| - 1][i];
      hits
  }

  /** Hits of one more item: the hits so far, then that item's. */
  lemma CatalogHitsAppend(items: seq<CatalogItem>, item: CatalogItem)
    ensures CatalogHits(items + [item]) == CatalogHits(items) + [CatalogHit(item)]
  {
    assert (items + [item])[..|items|] == items;
  }

  /**
   * How many hits the loop collects before it stops: it checks the count only after adding a hit,
   * so a limit below 1 still lets the first hit through.
   */
  function Cap(limit: int): (cap: nat)
    ensures cap >= 1 && (limit >= 1 ==> cap == limit)
  {
    if limit >= 1 then limit else 1
  }

  /** The hits of the first `Cap(limit)` items of `catalog` that pass every test, in order. */
  function FirstMatchHits(catalog: seq<CatalogItem>, f: Filters, limit: int): (hits: seq<Hit>) {
    var matching := MatchingItems(catalog, f);
    CatalogHits(matching[..if |matching| < Cap(limit) then |matching| else Cap(limit)])
  }

  /** The result of the static search: the first `Cap(limit)` matches, in catalog order. */
  function StaticSearch(f: Filters, limit: int): (hits: seq<Hit>) {
    FirstMatchHits(StaticCatalog(), f, limit)
  }

  /**
   * What the static search promises: no more hits than the limit (one when the limit is below 1),
   * every hit from a catalog item that passes every test, and all of them when fewer than the cap.
   */
  lemma StaticSearchSoundAndComplete(f: Filters, limit: int)
    ensures |StaticSearch(f, limit)| <= Cap(limit)
    ensures forall h :: h in StaticSearch(f, limit) ==>
              exists it :: it in StaticCatalog() && Matches(it, f) && h == CatalogHit(it)
    ensures |StaticSearch(f, limit)| < Cap(limit) ==>
              forall it :: it in StaticCatalog() && Matches(it, f) ==> CatalogHit(it) in StaticSearch(f, limit)
  {
    var matching := MatchingItems(StaticCatalog(), f);
    var taken := matching[..if |matching| < Cap(limit) then |matching| else Cap(limit)];
    var hits := StaticSearch(f, limit);
    forall h | h in hits
      ensures exists it :: it in StaticCatalog() && Matches(it, f) && h == CatalogHit(it)
    {
      var k :| 0 <= k < |hits| && hits[k] == h;
      assert taken[k] in matching;
    }
    if |hits| < Cap(limit) {
      assert taken == matching;
      forall it | it in StaticCatalog() && Matches(it, f)
        ensures CatalogHit(it) in hits
      {
        var k :| 0 <= k < |matching| && matching[k] == it;
        assert hits[k] == CatalogHit(it);
      }
    }
  }

  /**
   * `_search_static_catalog`: walk the catalog in order, skip items failing a test, append a hit
   * for the others and stop as soon as the hit count reaches the limit.
   */
  method SearchStaticCatalog(query: string, category: string, minPrice: PriceBound, maxPrice: PriceBound,
                             inStockOnly: bool, limit: int) returns (result: seq<Hit>)
    ensures result == StaticSearch(Filters(QueryWords(query), category, minPrice, maxPrice, inStockOnly), limit)
  {
    result := SearchItems(StaticCatalog(), Filters(QueryWords(query), category, minPrice, maxPrice, inStockOnly), limit);
  }

  /**
   * The loop of `_search_static_catalog` over a list of items: skip items failing a test, append a
   * hit for the others and stop as soon as the hit count reaches the limit.
   */
  method SearchItems(catalog: seq<CatalogItem>, f: Filters, limit: int) returns (result: seq<Hit>)
    ensures result == FirstMatchHits(catalog, f, limit)
  {
    result := [];
    var i := 0;
    while i < |catalog|
      invariant 0 <= i <= |catalog|
      invariant result == CatalogHits(MatchingItems(catalog[..i], f))
      invariant |result| < Cap(limit)
    {
      var item := catalog[i];
      CatalogHitsStep(catalog, i, f);
      if Matches(item, f) {
        result := result + [CatalogHit(item)];
        if |result| >= limit {
          assert |result| == |MatchingItems(catalog[..i + 1], f)|;
          assert |result| == Cap(limit);
          FirstMatchHitsAtCap(catalog, f, limit, i + 1);
          return;
        }
      }
      i := i + 1;
    }
    FirstMatchHitsBelowCap(catalog, f, limit);
  }

  /** One more item adds its hit iff it passes every test. */
  lemma CatalogHitsStep(items: seq<CatalogItem>, i: nat, f: Filters)
    requires i < |items|
    ensures CatalogHits(MatchingItems(items[..i + 1], f)) ==
            CatalogHits(MatchingItems(items[..i], f)) + (if Matches(items[i], f) then [CatalogHit(items[i])] else [])
  {
    MatchingItemsStep(items, i, f);
    if Matches(items[i], f) {
      CatalogHitsAppend(MatchingItems(items[..i], f), items[i]);
    } else {
      assert CatalogHits(MatchingItems(items[..i], f)) + [] == CatalogHits(MatchingItems(items[..i], f));
    }
  }

  /** Once the matches of a prefix reach the cap, they are all the loop returns. */
  lemma FirstMatchHitsAtCap(catalog: seq<CatalogItem>, f: Filters, limit: int, n: nat)
    requires n <= |catalog| && |MatchingItems(catalog[..n], f)| == Cap(limit)
    ensures FirstMatchHits(catalog, f, limit) == CatalogHits(MatchingItems(catalog[..n], f))
  {
    MatchingItemsOfPrefix(catalog, f, n);
  }

  /** When the whole catalog has fewer matches than the cap, the loop returns all of them. */
  lemma FirstMatchHitsBelowCap(catalog: seq<CatalogItem>, f: Filters, limit: int)
    requires |MatchingItems(catalog[..|catalog|], f)| < Cap(limit)
    ensures FirstMatchHits(catalog, f, limit) == CatalogHits(MatchingItems(catalog[..|catalog|], f))
  {
    assert catalog[..|catalog|] == catalog;
    var matching := MatchingItems(catalog, f);
    assert matching[..|matching|] == matching;
  }

  // ---------------------------------------------------------------------------
  // The search endpoint

  /** A product record as the database search returns it: prices in cents, stock as Odoo's float quantity. */
  datatype DbProduct = DbProduct(
    id: int,
    defaultCode: string,
    name: string,
    listPriceCents: int,
    descriptionSale: string,
    description: string,
    categoryName: Option<string>,
    qtyAvailable: real)

  /** Python's `int()` on a float: the integer part, rounding toward zero. */
  function TruncateToInt(q: real): (n: int)
    ensures q >= 0.0 ==> n >= 0 && n as real <= q < n as real + 1.0
    ensures q < 0.0 ==> n <= 0 && n as real - 1.0 < q <= n as real
  {
    if q >= 0.0 then q.Floor else -((-q).Floor)
  }

  /**
   * `in_stock` and `stock_quantity` agree wherever the quantity is whole: a positive reported
   * quantity always means in stock, catalog entries are in stock with the nominal quantity, and a
   * database product with a whole quantity is in stock exactly when that quantity is positive.
   */
  lemma InStockAgreesWithQuantity(h: Hit)
    ensures h.StockQuantity() > 0 ==> h.InStock()
    ensures h.CatalogHit? ==> (h.InStock() <==> h.StockQuantity() > 0)
    ensures h.DbHit? && h.product.qtyAvailable == h.product.qtyAvailable.Floor as real ==>
              (h.InStock() <==> h.StockQuantity() > 0)
  {
  }

  /** A fractional quantity below one unit is reported in stock with a stock quantity of zero. */
  lemma FractionalStockReportsZero(p: DbProduct)
    requires 0.0 < p.qtyAvailable < 1.0
    ensures DbHit(p).InStock() && DbHit(p).StockQuantity() == 0
  {
  }

  const SearchQueryRequired := "search_query_required"

  datatype SearchResponse =
    | SearchRejected(error: string, products: seq<Hit>, totalCount: int)
    | SearchResults(products: seq<Hit>, totalCount: int, query: string)

  /**
   * `search_products`, given what the database search returned for the request: an empty query is
   * rejected; otherwise the database products become hits, and when there are none the static
   * catalog is searched with the clamped limit. The total count is the number of hits returned.
   */
  method SearchProducts(query: string, category: string, minPrice: PriceBound, maxPrice: PriceBound,
                        inStockOnly: bool, limit: Option<int>, dbProducts: seq<DbProduct>)
    returns (response: SearchResponse)
    ensures query == [] ==> response == SearchRejected(SearchQueryRequired, [], 0)
    ensures query != [] ==> response.SearchResults? && response.query == query &&
                            response.totalCount == |response.products|
    ensures query != [] && dbProducts != [] ==>
              |response.products| == |dbProducts| &&
              forall i :: 0 <= i < |dbProducts| ==> response.products[i] == DbHit(dbProducts[i])
    ensures query != [] && dbProducts == [] ==>
              response.products == StaticSearch(Filters(QueryWords(query), category, minPrice, maxPrice, inStockOnly), EffectiveLimit(limit)) &&
              |response.products| <= MaxLimit
  {
    var n := EffectiveLimit(limit);
    if query == [] {
      return SearchRejected(SearchQueryRequired, [], 0);
    }
    var result: seq<Hit> := [];
    var i := 0;
    while i < |dbProducts|
      invariant 0 <= i <= |dbProducts|
      invariant |result| == i && forall k :: 0 <= k < i ==> result[k] == DbHit(dbProducts[k])
    {
      result := result + [DbHit(dbProducts[i])];
      i := i + 1;
    }
    if result == [] {
      result := SearchStaticCatalog(query, category, minPrice, maxPrice, inStockOnly, n);
      StaticSearchSoundAndComplete(Filters(QueryWords(query), category, minPrice, maxPrice, inStockOnly), n);
    }
    response := SearchResults(result, |result|, query);
  }

  // ---------------------------------------------------------------------------
  // SKU lookup

  /** The catalog entry with exactly this SKU, if any. */
  function FindBySku(items: seq<CatalogItem>, key: string): (found: Option<CatalogItem>)
    ensures found.Some? ==> found.value in items && found.value.Sku() == key
    ensures found.None? ==> forall it :: it in items ==> it.Sku() != key
  {
    if items == [] then None
    else if items[0].Sku() == key then Some(items[0])
    else FindBySku(items[1..], key)
  }

  datatype SkuProduct =
    | DatabaseProduct(product: DbProduct)
    | CatalogProduct(item: CatalogItem)
    | Placeholder(name: string, price: string, description: string)

  datatype SkuResponse = SkuResponse(success: bool, error: Option<string>, product: SkuProduct)

  const ProductNotFound := "Product not found"

  /**
   * `get_product_by_sku`, given the database match: the database product when there is one,
   * otherwise the catalog entry keyed by the upper-cased SKU, otherwise a failure carrying a
   * placeholder named after the SKU.
   */
  function GetProductBySku(sku: string, dbMatch: Option<DbProduct>): (r: SkuResponse)
    ensures r.success <==> !r.product.Placeholder?
    ensures r.success <==> r.error.None?
    ensures dbMatch.Some? ==> r.product == DatabaseProduct(dbMatch.value)
    ensures r.product.DatabaseProduct? ==> dbMatch == Some(r.product.product)
    ensures r.product.CatalogProduct? ==> r.product.item in StaticCatalog() && r.product.item.Sku() == Upper(sku)
    ensures r.product.Placeholder? ==>
              dbMatch.None? && r.product.name == sku && r.error == Some(ProductNotFound) &&
              forall it :: it in StaticCatalog() ==> it.Sku() != Upper(sku)
  {
    if dbMatch.Some? then SkuResponse(true, None, DatabaseProduct(dbMatch.value))
    else
      match FindBySku(StaticCatalog(), Upper(sku))
      case Some(item) => SkuResponse(true, None, CatalogProduct(item))
      case None => SkuResponse(false, Some(ProductNotFound), Placeholder(sku, "0.00", ProductNotFound))
  }

  /** No two catalog entries share a SKU, and no SKU holds a lower-case letter. */
  lemma CatalogSkusAreUpperAndDistinct()
    ensures forall a: CatalogItem, b: CatalogItem :: a.Sku() == b.Sku() ==> a == b
    ensures forall it: CatalogItem :: HasNoLowerCase(it.Sku())
  {
  }

  /** The catalog fallback ignores case: every entry is found by its SKU written in lower case. */
  lemma SkuLookupIgnoresCase(item: CatalogItem)
    ensures GetProductBySku(Lower(item.Sku()), None) == SkuResponse(true, None, CatalogProduct(item))
  {
    CatalogSkusAreUpperAndDistinct();
    UpperOfLower(item.Sku());
    assert item in StaticCatalog();
  }
}
