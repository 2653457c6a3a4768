/**
 * The legacy Odoo public-widget variant of the agent: its own page classifier (ordered substring
 * tests) and show/hide rule, the size and position tables, the order of the checks in `start`, the
 * localStorage-backed customer-segment test, and its cart mapping. Lemmas set it side by side with
 * the storefront widget.
 */
module AgentWidget {
  import opened Wrappers
  import opened Text
  import opened JsValues
  import WidgetGate
  import opened WidgetTools

  // ---------------------------------------------------------------------------
  // Page classification and visibility

  /**
   * `_getCurrentPageType`: `homepage` for the root path, then the first of these substring tests
   * that holds: `/shop` or `/product` (product), `/cart`, `/checkout`, `/contactus` or `/contact`
   * (contact), `/aboutus` or `/about` (about); `other` when none does. Every path containing
   * `/contactus` contains `/contact` (and likewise for `/about`), so the contract states each tag
   * through the shorter test alone.
   */
  function PageType(pathname: string): (tag: string)
    ensures tag in {"homepage", "product", "cart", "checkout", "contact", "about", "other"}
    ensures tag == "homepage" <==> pathname == "/"
    ensures tag == "product" <==> pathname != "/" && (Contains(pathname, "/shop") || Contains(pathname, "/product"))
    ensures tag == "cart" <==>
              pathname != "/" && !Contains(pathname, "/shop") && !Contains(pathname, "/product") &&
              Contains(pathname, "/cart")
    ensures tag == "checkout" <==>
              pathname != "/" && !Contains(pathname, "/shop") && !Contains(pathname, "/product") &&
              !Contains(pathname, "/cart") && Contains(pathname, "/checkout")
    ensures tag == "contact" <==>
              pathname != "/" && !Contains(pathname, "/shop") && !Contains(pathname, "/product") &&
              !Contains(pathname, "/cart") && !Contains(pathname, "/checkout") && Contains(pathname, "/contact")
    ensures tag == "about" <==>
              pathname != "/" && !Contains(pathname, "/shop") && !Contains(pathname, "/product") &&
              !Contains(pathname, "/cart") && !Contains(pathname, "/checkout") && !Contains(pathname, "/contact") &&
              Contains(pathname, "/about")
    ensures tag == "other" <==>
              pathname != "/" && !Contains(pathname, "/shop") && !Contains(pathname, "/product") &&
              !Contains(pathname, "/cart") && !Contains(pathname, "/checkout") && !Contains(pathname, "/contact") &&
              !Contains(pathname, "/about")
  {
    ContainsOfExtension(pathname, "/contact", "us");
    ContainsOfExtension(pathname, "/about", "us");
    assert "/contact" + "us" == "/contactus";
    assert "/about" + "us" == "/aboutus";
    if pathname == "/" then "homepage"
    else if Contains(pathname, "/shop") || Contains(pathname, "/product") then "product"
    else if Contains(pathname, "/cart") then "cart"
    else if Contains(pathname, "/checkout") then "checkout"
    else if Contains(pathname, "/contactus") || Contains(pathname, "/contact") then "contact"
    else if Contains(pathname, "/aboutus") || Contains(pathname, "/about") then "about"
    else "other"
  }

  /**
   * Shop pages are classified differently by the two variants: the storefront widget names them
   * `shop`, this one `product`.
   */
  lemma ShopPagesDiffer(rest: string)
    requires rest == [] || rest[0] == '/'
    ensures WidgetGate.PageType("/shop" + rest) == "shop"
    ensures PageType("/shop" + rest) == "product"
  {
    assert "/" + "shop" + rest == "/shop" + rest;
    WidgetGate.FirstSegmentIsPageType("/", "shop", rest);
    ContainsPrefix("/shop", rest);
  }

  /** Product paths win over every later test: a cart page under `/product` is still `product`. */
  lemma ProductPathsComeFirst(rest: string)
    ensures PageType("/product" + rest) == "product"
  {
    ContainsPrefix("/product", rest);
  }

  /**
   * `_shouldShowOnCurrentPage` for a page tag, with an unset list given as the empty string: the
   * entries are trimmed but empty entries are kept; a set show list must name the page and a set
   * hide list must not.
   */
  function PageAllowed(pagesToShow: string, pagesToHide: string, page: string): (show: bool)
    ensures show <==> (pagesToShow == [] || page in TrimEach(Split(pagesToShow, ','))) &&
                      (pagesToHide == [] || page !in TrimEach(Split(pagesToHide, ',')))
  {
    if pagesToShow != [] && (var allowed := TrimEach(Split(pagesToShow, ',')); |allowed| > 0 && page !in allowed) then false
    else if pagesToHide != [] && page in TrimEach(Split(pagesToHide, ',')) then false
    else true
  }

  /** `_shouldShowOnCurrentPage`: the rule applied to the tag of the current path. */
  function ShouldShowOnCurrentPage(pagesToShow: string, pagesToHide: string, pathname: string): (show: bool)
    ensures show <==> (pagesToShow == [] || PageType(pathname) in TrimEach(Split(pagesToShow, ','))) &&
                      (pagesToHide == [] || PageType(pathname) !in TrimEach(Split(pagesToHide, ',')))
    ensures pathname == "/" ==> (show <==> (pagesToShow == [] || "homepage" in TrimEach(Split(pagesToShow, ','))) &&
                                           (pagesToHide == [] || "homepage" !in TrimEach(Split(pagesToHide, ','))))
  {
    PageAllowed(pagesToShow, pagesToHide, PageType(pathname))
  }

  /**
   * For any page tag the two variants' list rules agree, except on a show list that is blank but
   * not empty.
   */
  lemma VisibilityRulesAgree(pagesToShow: string, pagesToHide: string, page: string)
    requires page != []
    requires pagesToShow == [] || !IsBlank(pagesToShow)
    ensures PageAllowed(pagesToShow, pagesToHide, page) == WidgetGate.PageAllowed(pagesToShow, pagesToHide, page)
  {
    var inShow := page in TrimEach(Split(pagesToShow, ','));
    var inHide := page in TrimEach(Split(pagesToHide, ','));
    assert WidgetGate.PageAllowed(pagesToShow, pagesToHide, page) <==>
           !(pagesToHide != [] && inHide) && (IsBlank(pagesToShow) || (pagesToShow != [] && inShow)) by {
      ListMembershipAgrees(pagesToHide, page);
      ListMembershipAgrees(pagesToShow, page);
    }
    if pagesToShow == [] {
      assert IsBlank(pagesToShow);
    }
  }

  /** A non-empty tag is in the storefront's cleaned list exactly when it is among this variant's entries. */
  lemma ListMembershipAgrees(csv: string, page: string)
    requires page != []
    ensures page in WidgetGate.PageList(csv) <==> csv != [] && page in TrimEach(Split(csv, ','))
  {
    if csv == [] {
      assert WidgetGate.PageList(csv) == [];
    }
  }

  /**
   * A show list of blanks only (say `" "`) shows the storefront widget on every page not hidden,
   * but this variant on none.
   */
  lemma BlankShowListDiffers(pagesToShow: string, pagesToHide: string, page: string)
    requires page != []
    requires pagesToShow != [] && IsBlank(pagesToShow)
    requires page !in WidgetGate.PageList(pagesToHide)
    ensures WidgetGate.PageAllowed(pagesToShow, pagesToHide, page)
    ensures !PageAllowed(pagesToShow, pagesToHide, page)
  {
    SplitOfBlank(pagesToShow, ',');
  }

  // ---------------------------------------------------------------------------
  // Appearance tables

  datatype Size = Size(widthPx: nat, heightPx: nat)

  /**
   * `_applyWidgetSize`: small 300x400, large 450x600, and 380x500 for `medium` and anything else.
   * Each of the three sizes comes from exactly one of these cases.
   */
  function WidgetSize(widgetSize: string): (s: Size)
    ensures s in {Size(300, 400), Size(380, 500), Size(450, 600)}
    ensures s == Size(300, 400) <==> widgetSize == "small"
    ensures s == Size(450, 600) <==> widgetSize == "large"
    ensures s == Size(380, 500) <==> widgetSize != "small" && widgetSize != "large"
  {
    match widgetSize
    case "small" => Size(300, 400)
    case "large" => Size(450, 600)
    case _ => Size(380, 500)
  }

  /** The three sizes are strictly ordered in both dimensions. */
  lemma SizesAreOrdered()
    ensures WidgetSize("small").widthPx < WidgetSize("medium").widthPx < WidgetSize("large").widthPx
    ensures WidgetSize("small").heightPx < WidgetSize("medium").heightPx < WidgetSize("large").heightPx
  {
  }

  datatype Vertical = Top | Bottom
  datatype Horizontal = Left | Right

  /** The corner the widget is pinned to, at `EdgeOffsetPx` from both sides. */
  datatype Corner = Corner(vertical: Vertical, horizontal: Horizontal)

  const EdgeOffsetPx: nat := 20

  /** The position switch of `_initializeWidget`: three named corners, bottom-right otherwise. */
  function Position(widgetPosition: string): (c: Corner)
    ensures widgetPosition !in {"bottom-left", "top-right", "top-left"} ==> c == Corner(Bottom, Right)
  {
    match widgetPosition
    case "bottom-left" => Corner(Bottom, Left)
    case "top-right" => Corner(Top, Right)
    case "top-left" => Corner(Top, Left)
    case _ => Corner(Bottom, Right)
  }

  /** The setting value that names a corner. */
  function PositionName(c: Corner): string {
    (if c.vertical == Top then "top-" else "bottom-") + (if c.horizontal == Left then "left" else "right")
  }

  /** Every corner is reachable, under its own name, and the four names are read back faithfully. */
  lemma PositionRoundTrip(c: Corner, name: string)
    ensures Position(PositionName(c)) == c
    ensures name in {"bottom-left", "bottom-right", "top-right", "top-left"} ==> PositionName(Position(name)) == name
  {
    match c
    case Corner(Top, Left) => assert PositionName(c) == "top-left";
    case Corner(Top, Right) => assert PositionName(c) == "top-right";
    case Corner(Bottom, Left) => assert PositionName(c) == "bottom-left";
    case Corner(Bottom, Right) => assert PositionName(c) == "bottom-right";
  }

  // ---------------------------------------------------------------------------
  // The start sequence

  /** The widget settings read in `start`, already parsed; an unset text is empty. */
  datatype AgentConfig = AgentConfig(
    agentId: string,
    enabled: bool,
    triggerDelay: int,
    pagesToShow: string,
    pagesToHide: string,
    geographicRestrictions: string,
    deviceFiltering: string,
    excludeLoggedInUsers: bool,
    showFirstTimeVisitorsOnly: bool,
    customerSegmentTargeting: string)

  /** What the browser tells the widget; `isLoggedIn` is the outcome of `_isLoggedIn`. */
  datatype AgentVisitor = AgentVisitor(pathname: string, isMobile: bool, isLoggedIn: bool)

  datatype StartDecision =
    | HiddenOnPage
    | GeoRestricted
    | DeviceRestricted
    | ExcludedLoggedIn
    | Disabled
    | MissingAgentId
    | InitializeNow
    | InitializeAfter(delayMs: int)

  /** Every check of `start` passes. */
  predicate StartChecksPass(cfg: AgentConfig, v: AgentVisitor) {
    ShouldShowOnCurrentPage(cfg.pagesToShow, cfg.pagesToHide, v.pathname) &&
    WidgetGate.PassesDeviceFiltering(cfg.deviceFiltering, v.isMobile) &&
    !(cfg.excludeLoggedInUsers && v.isLoggedIn) && cfg.enabled && cfg.agentId != []
  }

  /**
   * The checks of `start` in their order (visibility, geography, device, logged-in exclusion,
   * enabled, agent id) and what follows them: initialise now, or after the delay in milliseconds
   * when it is positive. Each refusal means every earlier check passed and that one failed.
   */
  function StartGate(cfg: AgentConfig, v: AgentVisitor): (d: StartDecision)
    ensures d.InitializeNow? || d.InitializeAfter? <==> StartChecksPass(cfg, v)
    ensures d.InitializeAfter? <==> StartChecksPass(cfg, v) && cfg.triggerDelay > 0
    ensures d.InitializeAfter? ==> d.delayMs == cfg.triggerDelay * 1000 && d.delayMs > 0
    ensures d == HiddenOnPage <==> !ShouldShowOnCurrentPage(cfg.pagesToShow, cfg.pagesToHide, v.pathname)
    ensures d != GeoRestricted
    ensures d == DeviceRestricted <==>
              ShouldShowOnCurrentPage(cfg.pagesToShow, cfg.pagesToHide, v.pathname) &&
              !WidgetGate.PassesDeviceFiltering(cfg.deviceFiltering, v.isMobile)
    ensures d == ExcludedLoggedIn <==>
              ShouldShowOnCurrentPage(cfg.pagesToShow, cfg.pagesToHide, v.pathname) &&
              WidgetGate.PassesDeviceFiltering(cfg.deviceFiltering, v.isMobile) &&
              cfg.excludeLoggedInUsers && v.isLoggedIn
    ensures d == Disabled <==>
              ShouldShowOnCurrentPage(cfg.pagesToShow, cfg.pagesToHide, v.pathname) &&
              WidgetGate.PassesDeviceFiltering(cfg.deviceFiltering, v.isMobile) &&
              !(cfg.excludeLoggedInUsers && v.isLoggedIn) && !cfg.enabled
    ensures d == MissingAgentId <==>
              ShouldShowOnCurrentPage(cfg.pagesToShow, cfg.pagesToHide, v.pathname) &&
              WidgetGate.PassesDeviceFiltering(cfg.deviceFiltering, v.isMobile) &&
              !(cfg.excludeLoggedInUsers && v.isLoggedIn) && cfg.enabled && cfg.agentId == []
  {
    if !ShouldShowOnCurrentPage(cfg.pagesToShow, cfg.pagesToHide, v.pathname) then HiddenOnPage
    else if !WidgetGate.PassesGeographicRestrictions(cfg.geographicRestrictions) then GeoRestricted
    else if !WidgetGate.PassesDeviceFiltering(cfg.deviceFiltering, v.isMobile) then DeviceRestricted
    else if cfg.excludeLoggedInUsers && v.isLoggedIn then ExcludedLoggedIn
    else if !cfg.enabled then Disabled
    else if cfg.agentId == [] then MissingAgentId
    else if cfg.triggerDelay > 0 then InitializeAfter(cfg.triggerDelay * 1000)
    else InitializeNow
  }

  /** The customer-segment settings play no part in `start`: that check is commented out there. */
  lemma StartIgnoresSegmentSettings(cfg: AgentConfig, v: AgentVisitor, firstTimeOnly: bool, segment: string)
    ensures StartGate(cfg.(showFirstTimeVisitorsOnly := firstTimeOnly, customerSegmentTargeting := segment), v) == StartGate(cfg, v)
  {
  }

  /** The key `_passesCustomerSegmentTargeting` writes on a first visit. */
  const HasVisitedKey := "elevenlabs_has_visited"
  /** The key that marks a returning customer. */
  const ReturningCustomerKey := "elevenlabs_returning_customer"

  /** `localStorage.getItem(key)` is truthy: present and non-empty. */
  predicate StoredTruthy(storage: map<string, string>, key: string) {
    key in storage && storage[key] != []
  }

  /** The segment switch: first-time visitors only without the returning mark, returning ones only with it. */
  predicate SegmentAllows(segment: string, storage: map<string, string>)
    ensures segment != "first_time" && segment != "returning" ==> SegmentAllows(segment, storage)
  {
    match segment
    case "first_time" => !StoredTruthy(storage, ReturningCustomerKey)
    case "returning" => StoredTruthy(storage, ReturningCustomerKey)
    case _ => true
  }

  /** The `first_time` and `returning` segments split every visitor between them. */
  lemma SegmentsAreComplementary(storage: map<string, string>)
    ensures SegmentAllows("first_time", storage) != SegmentAllows("returning", storage)
    ensures SegmentAllows("returning", storage) <==> ReturningCustomerKey in storage && storage[ReturningCustomerKey] != []
  {
  }

  /** The widget instance: its browser storage and how `_initializeWidget` has been reached. */
  class LegacyAgentWidget {
    var storage: map<string, string>
    var initializeCount: nat
    var pendingInitMs: Option<int>
    var warningShown: bool

    constructor (storage: map<string, string>)
      ensures this.storage == storage && initializeCount == 0 && pendingInitMs == None && !warningShown
    {
      this.storage := storage;
      initializeCount := 0;
      pendingInitMs := None;
      warningShown := false;
    }

    /**
     * `start`: run the checks; initialise at once, or schedule it after the delay; show the
     * agent-id warning when only the id is missing. The storage is not touched.
     */
    method Start(cfg: AgentConfig, v: AgentVisitor) returns (d: StartDecision)
      modifies this
      ensures d == StartGate(cfg, v)
      ensures storage == old(storage)
      ensures initializeCount == old(initializeCount) + (if d.InitializeNow? then 1 else 0)
      ensures pendingInitMs == if d.InitializeAfter? then Some(d.delayMs) else old(pendingInitMs)
      ensures warningShown <==> old(warningShown) || d == MissingAgentId
    {
      d := StartGate(cfg, v);
      match d {
        case InitializeNow =>
          initializeCount := initializeCount + 1;
        case InitializeAfter(ms) =>
          pendingInitMs := Some(ms);
        case MissingAgentId =>
          warningShown := true;
        case _ =>
      }
    }

    /** The scheduled `setTimeout` fires and initialises the widget. */
    method DelayElapsed()
      modifies this
      ensures pendingInitMs == None
      ensures initializeCount == old(initializeCount) + (if old(pendingInitMs).Some? then 1 else 0)
      ensures storage == old(storage) && warningShown == old(warningShown)
    {
      if pendingInitMs.Some? {
        pendingInitMs := None;
        initializeCount := initializeCount + 1;
      }
    }

    /**
     * `_passesCustomerSegmentTargeting`: with the first-time-visitors-only setting a stored visit
     * mark refuses, and its absence is recorded; then the segment switch decides. After a call
     * with that setting the mark is always stored, so every later such call refuses.
     */
    method PassesCustomerSegmentTargeting(cfg: AgentConfig) returns (passes: bool)
      modifies this
      ensures storage == if cfg.showFirstTimeVisitorsOnly && !StoredTruthy(old(storage), HasVisitedKey)
                         then old(storage)[HasVisitedKey := "true"] else old(storage)
      ensures passes <==> !(cfg.showFirstTimeVisitorsOnly && StoredTruthy(old(storage), HasVisitedKey)) &&
                          SegmentAllows(cfg.customerSegmentTargeting, old(storage))
      ensures cfg.showFirstTimeVisitorsOnly ==> StoredTruthy(storage, HasVisitedKey)
      ensures initializeCount == old(initializeCount) && pendingInitMs == old(pendingInitMs)
      ensures warningShown == old(warningShown)
    {
      if cfg.showFirstTimeVisitorsOnly {
        if StoredTruthy(storage, HasVisitedKey) {
          return false;
        } else {
          storage := storage[HasVisitedKey := "true"];
        }
      }
      passes := SegmentAllows(cfg.customerSegmentTargeting, storage);
    }
  }

  /**
   * A page load: `start`, then the scheduled timeout if there is one. The widget is initialised
   * exactly once when every check passes, and never otherwise.
   */
  method LoadPage(cfg: AgentConfig, v: AgentVisitor, storage: map<string, string>) returns (initializations: nat)
    ensures initializations == if StartChecksPass(cfg, v) then 1 else 0
  {
    var w := new LegacyAgentWidget(storage);
    var d := w.Start(cfg, v);
    w.DelayElapsed();
    initializations := w.initializeCount;
  }

  /** With the first-time-visitors-only setting, the second segment test of a browser refuses. */
  method SecondVisitRefused(w: LegacyAgentWidget, cfg: AgentConfig) returns (first: bool, second: bool)
    requires cfg.showFirstTimeVisitorsOnly
    modifies w
    ensures !second
    ensures first <==> !StoredTruthy(old(w.storage), HasVisitedKey) && SegmentAllows(cfg.customerSegmentTargeting, old(w.storage))
  {
    first := w.PassesCustomerSegmentTargeting(cfg);
    second := w.PassesCustomerSegmentTargeting(cfg);
  }

  // ---------------------------------------------------------------------------
  // Cart mapping

  /** One entry of this variant's cart request. */
  datatype AgentCartLine = AgentCartLine(sku: JsValue, quantity: JsValue)

  /**
   * `_addItemsToOdooCart`'s mapping of one item: `product || Product || sku || SKU || 'DEFAULT'`
   * and `quantity || Quantity || 1`. Neither is ever falsy.
   */
  function CartLineOf(item: JsValue): (line: AgentCartLine)
    requires !Nullish(item)
    ensures line.sku == FirstTruthy([Prop(item, "product"), Prop(item, "Product"), Prop(item, "sku"), Prop(item, "SKU")], Str("DEFAULT"))
    ensures line.quantity == FirstTruthy([Prop(item, "quantity"), Prop(item, "Quantity")], Num(1.0))
    ensures Truthy(line.sku) && Truthy(line.quantity)
  {
    OrChainIsFirstTruthy(Prop(item, "product"), Prop(item, "Product"), Prop(item, "sku"), Prop(item, "SKU"), Str("DEFAULT"));
    OrChainIsFirstTruthy2(Prop(item, "quantity"), Prop(item, "Quantity"), Num(1.0));
    AgentCartLine(
      Or(Or(Or(Or(Prop(item, "product"), Prop(item, "Product")), Prop(item, "sku")), Prop(item, "SKU")), Str("DEFAULT")),
      Or(Or(Prop(item, "quantity"), Prop(item, "Quantity")), Num(1.0)))
  }

  /** `_handleAddToCart`: the same item reading as the storefront widget, then this mapping. */
  function AddToCart(params: JsValue): (r: Result<seq<AgentCartLine>, TypeError>)
    ensures r.Failure? <==> CartItems(params).Failure? || exists i :: 0 <= i < |CartItems(params).value| && Nullish(CartItems(params).value[i])
    ensures r.Success? ==> CartItems(params).Success? && |r.value| == |CartItems(params).value| &&
                           forall i :: 0 <= i < |r.value| ==>
                             !Nullish(CartItems(params).value[i]) && r.value[i] == CartLineOf(CartItems(params).value[i])
  {
    match CartItems(params)
    case Failure(e) => Failure(e)
    case Success(items) => MapItems(items, CartLineOf)
  }

  /**
   * An item naming both a SKU and a product goes to the cart under its SKU from the storefront
   * widget but under its product from this variant; the quantity is the same.
   */
  lemma SkuPreferenceDiffers(item: JsValue)
    requires !Nullish(item)
    requires Truthy(Prop(item, "sku")) && Truthy(Prop(item, "product"))
    ensures WidgetCartLine(item).sku == Prop(item, "sku")
    ensures CartLineOf(item).sku == Prop(item, "product")
    ensures WidgetCartLine(item).quantity == CartLineOf(item).quantity
  {
  }
}
