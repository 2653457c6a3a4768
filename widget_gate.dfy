/**
 * The storefront widget's mount gate: the page classifier, the show/hide page lists, the
 * geographic, device and logged-in filters, and the fixed order in which
 * `initializeElevenLabsWidget` applies them before arming the triggers.
 */
module WidgetGate {
  import opened Wrappers
  import opened Text
  import opened WidgetTriggers

  // ---------------------------------------------------------------------------
  // Page classification

  /** The non-empty `/`-separated segments of a path, in order. */
  function PathSegments(pathname: string): seq<string> {
    DropEmpty(Split(pathname, '/'))
  }

  /**
   * `_getCurrentPageType`: `homepage` for the root path, otherwise the first non-empty segment of
   * the path, or `other` when it has none. The tag is never empty and never holds a `/`.
   */
  function PageType(pathname: string): (tag: string)
    ensures tag != [] && '/' !in tag
    ensures pathname == "/" ==> tag == "homepage"
    ensures pathname != "/" && tag != "other" ==> tag in Split(pathname, '/')
  {
    if pathname == "/" then "homepage"
    else
      var segments := PathSegments(pathname);
      if |segments| > 0 then
        assert segments[0] in segments;
        segments[0]
      else "other"
  }

  /** A path made of slashes only, other than the root itself, is classified `other`. */
  lemma OnlySlashesIsOther(pathname: string)
    requires pathname != "/"
    requires forall i :: 0 <= i < |pathname| ==> pathname[i] == '/'
    ensures PageType(pathname) == "other"
  {
    SplitOfSeparators(pathname, '/');
    if |PathSegments(pathname)| > 0 {
      assert PathSegments(pathname)[0] in PathSegments(pathname);
    }
  }

  /**
   * The first segment names the page, however many slashes lead up to it and whatever follows it:
   * `/shop/cart` and `//shop` are both `shop` pages.
   */
  lemma FirstSegmentIsPageType(slashes: string, segment: string, rest: string)
    requires slashes != [] && forall i :: 0 <= i < |slashes| ==> slashes[i] == '/'
    requires segment != [] && '/' !in segment
    requires rest == [] || rest[0] == '/'
    ensures PageType(slashes + segment + rest) == segment
  {
    var path := slashes + segment + rest;
    assert path == slashes + (segment + rest);
    LeadingSlashesDropped(slashes, segment + rest);
    SplitAfterPlainPrefix(segment, rest, '/');
    var tail := Split(rest, '/');
    assert tail[0] == [] by {
      if rest != [] {
        assert Split(rest, '/') == [[]] + Split(rest[1..], '/');
      }
    }
    assert segment + tail[0] == segment;
    var parts := Split(segment + rest, '/');
    assert parts == [segment] + tail[1..];
    assert parts[0] == segment && parts[1..] == tail[1..];
    assert DropEmpty(parts) == [segment] + DropEmpty(tail[1..]);
    assert path != "/" by {
      assert |path| >= 2;
    }
  }

  /** Leading slashes only add empty segments, which the classifier drops. */
  lemma {:induction false} LeadingSlashesDropped(slashes: string, s: string)
    requires forall i :: 0 <= i < |slashes| ==> slashes[i] == '/'
    ensures PathSegments(slashes + s) == PathSegments(s)
    decreases |slashes|
  {
    if slashes != [] {
      var path := slashes + s;
      assert path[0] == '/' && path[1..] == slashes[1..] + s;
      var parts := Split(path, '/');
      assert parts == [[]] + Split(slashes[1..] + s, '/');
      assert parts[0] == [] && parts[1..] == Split(slashes[1..] + s, '/');
      assert PathSegments(path) == PathSegments(slashes[1..] + s);
      LeadingSlashesDropped(slashes[1..], s);
    } else {
      assert slashes + s == s;
    }
  }

  // ---------------------------------------------------------------------------
  // Page visibility

  /** A comma-separated page list: entries trimmed, empty entries dropped. */
  function PageList(csv: string): (pages: seq<string>)
    ensures forall p :: p in pages ==> p != [] && p == Trim(p)
    ensures csv == [] ==> pages == []
  {
    var trimmed := TrimEach(Split(csv, ','));
    assert forall p :: p in trimmed ==> p == Trim(p) by {
      forall p | p in trimmed ensures p == Trim(p) {
        var i :| 0 <= i < |trimmed| && trimmed[i] == p;
        TrimIdempotent(Split(csv, ',')[i]);
      }
    }
    DropEmpty(trimmed)
  }

  /**
   * The rule of `_shouldShowOnCurrentPage` for a page tag, with an unset list given as the empty
   * string: a page in the hide list is never shown; otherwise a blank show list allows every page,
   * and a non-blank one allows exactly the pages it names.
   */
  function PageAllowed(pagesToShow: string, pagesToHide: string, page: string): (show: bool)
    ensures page in PageList(pagesToHide) ==> !show
    ensures page !in PageList(pagesToHide) && IsBlank(pagesToShow) ==> show
    ensures page !in PageList(pagesToHide) && !IsBlank(pagesToShow) ==> (show <==> page in PageList(pagesToShow))
    ensures show <==> page !in PageList(pagesToHide) && (IsBlank(pagesToShow) || page in PageList(pagesToShow))
  {
    if pagesToHide != [] && (var hidden := PageList(pagesToHide); |hidden| > 0 && page in hidden) then false
    else if pagesToShow == [] || Trim(pagesToShow) == [] then true
    else
      var allowed := PageList(pagesToShow);
      |allowed| > 0 && page in allowed
  }

  /** `_shouldShowOnCurrentPage`: the rule applied to the tag of the current path. */
  function ShouldShowOnCurrentPage(pagesToShow: string, pagesToHide: string, pathname: string): (show: bool)
    ensures show <==> PageType(pathname) !in PageList(pagesToHide) &&
                      (IsBlank(pagesToShow) || PageType(pathname) in PageList(pagesToShow))
    ensures pathname == "/" ==> (show <==> "homepage" !in PageList(pagesToHide) &&
                                           (IsBlank(pagesToShow) || "homepage" in PageList(pagesToShow)))
  {
    PageAllowed(pagesToShow, pagesToHide, PageType(pathname))
  }

  // ---------------------------------------------------------------------------
  // Targeting filters

  /**
   * `_passesGeographicRestrictions`: with or without restrictions configured it lets every
   * visitor through; no geolocation is performed.
   */
  function PassesGeographicRestrictions(geographicRestrictions: string): bool {
    true
  }

  /**
   * `_passesDeviceFiltering`, with the user-agent test given as `isMobile`: the filter turns a
   * visitor away only when it names the other kind of device.
   */
  function PassesDeviceFiltering(deviceFiltering: string, isMobile: bool): (passes: bool)
    ensures !passes ==> (deviceFiltering == "desktop" && isMobile) || (deviceFiltering == "mobile" && !isMobile)
    ensures deviceFiltering != "desktop" && deviceFiltering != "mobile" ==> passes
  {
    match deviceFiltering
    case "desktop" => !isMobile
    case "mobile" => isMobile
    case _ => true
  }

  /** The `desktop` and `mobile` filters split every visitor between them. */
  lemma DeviceFiltersAreComplementary(isMobile: bool)
    ensures PassesDeviceFiltering("desktop", isMobile) != PassesDeviceFiltering("mobile", isMobile)
  {
  }

  /**
   * Whether the visitor counts as public: the explicit `userIsPublic` attribute when it is
   * non-empty (public iff it reads `True`), otherwise a user id that is absent, empty, `0` or
   * `public`.
   */
  function IsPublicUser(userIsPublicAttr: Option<string>, userId: Option<string>): (public: bool)
    ensures userIsPublicAttr.Some? && userIsPublicAttr.value != [] ==> (public <==> userIsPublicAttr.value == "True")
  {
    if userIsPublicAttr.Some? && userIsPublicAttr.value != [] then userIsPublicAttr.value == "True"
    else userId.None? || userId.value == "0" || userId.value == "public" || userId.value == []
  }

  /** A set user id: present, non-empty, and neither `0` nor the text `undefined`. */
  predicate HasUserId(userId: Option<string>) {
    userId.Some? && userId.value != [] && userId.value != "0" && userId.value != "undefined"
  }

  /** The logged-in exclusion applies: it is switched on and the visitor is a non-public, identified user. */
  predicate LoggedInExcluded(excludeLoggedInUsers: bool, userIsPublic: bool, userId: Option<string>) {
    excludeLoggedInUsers && !userIsPublic && HasUserId(userId)
  }

  /**
   * Without an explicit public flag, a visitor is excluded exactly when the exclusion is on and
   * the user id is set to something other than `0`, `public` and `undefined`.
   */
  lemma ExclusionWithoutPublicFlag(excludeLoggedInUsers: bool, userId: Option<string>)
    ensures LoggedInExcluded(excludeLoggedInUsers, IsPublicUser(None, userId), userId) <==>
              excludeLoggedInUsers && userId.Some? && userId.value !in {"", "0", "public", "undefined"}
  {
  }

  // ---------------------------------------------------------------------------
  // The gate

  /** The widget settings read from the container, already parsed; an unset text is empty. */
  datatype WidgetConfig = WidgetConfig(
    agentId: string,
    enabled: bool,
    pagesToShow: string,
    pagesToHide: string,
    geographicRestrictions: string,
    deviceFiltering: string,
    excludeLoggedInUsers: bool,
    triggers: TriggerConfig)

  /** What the visitor's browser tells the widget. */
  datatype Visitor = Visitor(pathname: string, isMobile: bool, userId: Option<string>, userIsPublic: bool)

  /** Where `initializeElevenLabsWidget` stops: at the first failing check, or arming the triggers. */
  datatype GateDecision =
    | HiddenOnPage
    | GeoRestricted
    | DeviceRestricted
    | ExcludedLoggedIn
    | Disabled
    | MissingAgentId
    | ArmTriggers

  /**
   * The checks of `initializeElevenLabsWidget` in their order: page visibility, geography,
   * device, logged-in exclusion, the enabled flag, the agent id. Each refusal means every earlier
   * check passed and that one failed; the triggers are armed exactly when all pass.
   */
  function MountGate(cfg: WidgetConfig, v: Visitor): (d: GateDecision)
    ensures d == ArmTriggers <==>
              ShouldShowOnCurrentPage(cfg.pagesToShow, cfg.pagesToHide, v.pathname) &&
              PassesDeviceFiltering(cfg.deviceFiltering, v.isMobile) &&
              !LoggedInExcluded(cfg.excludeLoggedInUsers, v.userIsPublic, v.userId) &&
              cfg.enabled && cfg.agentId != []
    ensures d == HiddenOnPage <==> !ShouldShowOnCurrentPage(cfg.pagesToShow, cfg.pagesToHide, v.pathname)
    ensures d != GeoRestricted
    ensures d == DeviceRestricted <==>
              ShouldShowOnCurrentPage(cfg.pagesToShow, cfg.pagesToHide, v.pathname) &&
              !PassesDeviceFiltering(cfg.deviceFiltering, v.isMobile)
    ensures d == ExcludedLoggedIn <==>
              ShouldShowOnCurrentPage(cfg.pagesToShow, cfg.pagesToHide, v.pathname) &&
              PassesDeviceFiltering(cfg.deviceFiltering, v.isMobile) &&
              LoggedInExcluded(cfg.excludeLoggedInUsers, v.userIsPublic, v.userId)
    ensures d == Disabled <==>
              ShouldShowOnCurrentPage(cfg.pagesToShow, cfg.pagesToHide, v.pathname) &&
              PassesDeviceFiltering(cfg.deviceFiltering, v.isMobile) &&
              !LoggedInExcluded(cfg.excludeLoggedInUsers, v.userIsPublic, v.userId) &&
              !cfg.enabled
    ensures d == MissingAgentId <==>
              ShouldShowOnCurrentPage(cfg.pagesToShow, cfg.pagesToHide, v.pathname) &&
              PassesDeviceFiltering(cfg.deviceFiltering, v.isMobile) &&
              !LoggedInExcluded(cfg.excludeLoggedInUsers, v.userIsPublic, v.userId) &&
              cfg.enabled && cfg.agentId == []
  {
    if !ShouldShowOnCurrentPage(cfg.pagesToShow, cfg.pagesToHide, v.pathname) then HiddenOnPage
    else if !PassesGeographicRestrictions(cfg.geographicRestrictions) then GeoRestricted
    else if !PassesDeviceFiltering(cfg.deviceFiltering, v.isMobile) then DeviceRestricted
    else if LoggedInExcluded(cfg.excludeLoggedInUsers, v.userIsPublic, v.userId) then ExcludedLoggedIn
    else if !cfg.enabled then Disabled
    else if cfg.agentId == [] then MissingAgentId
    else ArmTriggers
  }

  /**
   * `initializeElevenLabsWidget` from the configuration on: the gate, then a fresh trigger system
   * when every check passes and none otherwise. `warning` is the agent-id alert put in the container.
   */
  method InitializeElevenLabsWidget(cfg: WidgetConfig, v: Visitor) returns (d: GateDecision, triggers: TriggerSystem?, warning: bool)
    ensures d == MountGate(cfg, v)
    ensures warning <==> d == MissingAgentId
    ensures triggers != null <==> d == ArmTriggers
    ensures triggers != null ==> fresh(triggers) && triggers.Valid() && triggers.config == cfg.triggers &&
                                 (triggers.widgetCreated <==> MountsImmediately(cfg.triggers))
  {
    d := MountGate(cfg, v);
    warning := d == MissingAgentId;
    if d == ArmTriggers {
      triggers := new TriggerSystem(cfg.triggers);
    } else {
      triggers := null;
    }
  }
}
