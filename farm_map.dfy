/** The satellite map screen (pages/FarmMap.tsx): where the farm is, which
    map library draws it, and the cascade that loads that library into the
    page and creates the map once.

    `MapState` is the screen's state together with the parts of the page it
    reads and writes (whether each library is present, the stylesheet link,
    the scripts it added, and the maps it created). Each step of the source
    is a function on `MapState`; `FarmMapScreen` performs the same steps on
    its fields. */
module FarmMap {

  import opened Types

  /** Bhopal, used when no device position is available. */
  const FALLBACK_LOCATION: Coords := Coords(23.2599, 77.4126)

  datatype Provider = Google | Leaflet

  /** A created map: the library that drew it and its centre (also the
      marker's position). */
  datatype MapView = MapView(provider: Provider, center: Coords)

  /** What the page holds: whether `window.google` and `window.L` exist,
      whether the `leaflet-css` link exists, and how many script tags, style
      links and map instances this screen added. A pending script has been
      added and has neither loaded nor failed yet. */
  datatype Page = Page(
    googleLoaded: bool, leafletLoaded: bool, cssPresent: bool,
    googleScripts: nat, leafletScripts: nat, cssLinks: nat,
    googlePending: bool, leafletPending: bool,
    mapsCreated: nat)

  datatype MapState = MapState(
    userLocation: Option<Coords>,
    isUsingFallback: bool,
    provider: Provider,
    mapView: Option<MapView>,
    loading: bool,
    scriptLoaded: bool,
    page: Page)

  /** Where the map is centred: the user location, else the fallback. */
  function Target(s: MapState): (r: Coords)
    ensures s.userLocation.Some? ==> r == s.userLocation.value
    ensures s.userLocation.None? ==> r == FALLBACK_LOCATION
  {
    if s.userLocation.Some? then s.userLocation.value else FALLBACK_LOCATION
  }

  /** The first render, in a page that may already hold either library or
      the stylesheet from an earlier visit. */
  function Mounted(googleLoaded: bool, leafletLoaded: bool, cssPresent: bool): MapState
  {
    MapState(None, false, Google, None, true, false,
             Page(googleLoaded, leafletLoaded, cssPresent, 0, 0, 0, false, false, 0))
  }

  /** The invariant of the screen. The spinner shows exactly until a map
      exists; at most one map was ever created, and it is centred on the
      target and drawn by the current provider; the google script was added
      at most once, by the step that set `scriptLoaded`; the leaflet assets
      are added only after the switch to leaflet, each at most once; nothing
      happens before the location is resolved. */
  predicate Valid(s: MapState)
    ensures Valid(s) ==> s.page.googleScripts <= 1 && s.page.leafletScripts <= 1
                         && s.page.cssLinks <= 1 && s.page.mapsCreated <= 1
  {
    && (s.loading <==> s.mapView.None?)
    && s.page.mapsCreated == (if s.mapView.Some? then 1 else 0)
    && (s.mapView.Some? ==> s.mapView.value.center == Target(s) && s.mapView.value.provider == s.provider)
    && s.page.googleScripts == (if s.scriptLoaded then 1 else 0)
    && (s.page.googlePending ==>
          s.scriptLoaded && !s.page.googleLoaded && s.provider == Google && s.mapView.None?)
    && (s.provider == Google ==>
          s.page.leafletScripts == 0 && s.page.cssLinks == 0 && !s.page.leafletPending)
    && (s.provider == Leaflet ==>
          s.page.cssPresent && s.page.leafletScripts <= 1 && s.page.cssLinks <= 1 && !s.page.googlePending)
    && (s.page.leafletPending ==>
          s.page.leafletScripts == 1 && !s.page.leafletLoaded && s.mapView.None?)
    && (s.userLocation.None? ==> s.mapView.None? && !s.scriptLoaded && s.provider == Google)
  }

  /** `initLeafletMap`: a map is created only when none exists. */
  function InitLeaflet(s: MapState): (r: MapState)
    ensures s.mapView.Some? ==> r == s
    ensures s.mapView.None? ==> r.mapView == Some(MapView(Leaflet, Target(s))) && !r.loading
                                && r.page.mapsCreated == s.page.mapsCreated + 1
  {
    if s.mapView.Some? then s
    else s.(mapView := Some(MapView(Leaflet, Target(s))), loading := false,
            page := s.page.(mapsCreated := s.page.mapsCreated + 1))
  }

  /** `loadLeafletScript`: the stylesheet is added when absent; the map is
      created at once when `L` exists, else the script is added. */
  function LoadLeaflet(s: MapState): (r: MapState)
    ensures r.page.cssPresent
    ensures r.page.cssLinks == s.page.cssLinks + (if s.page.cssPresent then 0 else 1)
    ensures s.page.leafletLoaded ==> r.page.leafletScripts == s.page.leafletScripts
    ensures !s.page.leafletLoaded ==>
              r.page.leafletScripts == s.page.leafletScripts + 1 && r.page.leafletPending && r.mapView == s.mapView
    ensures r.provider == s.provider && r.page.googleScripts == s.page.googleScripts
  {
    var css := if s.page.cssPresent then s
               else s.(page := s.page.(cssPresent := true, cssLinks := s.page.cssLinks + 1));
    if css.page.leafletLoaded then InitLeaflet(css)
    else css.(page := css.page.(leafletScripts := css.page.leafletScripts + 1, leafletPending := true))
  }

  /** The fallback path: provider leaflet, then the leaflet loader. */
  function SwitchToLeaflet(s: MapState): (r: MapState)
    ensures r.provider == Leaflet
  {
    LoadLeaflet(s.(provider := Leaflet))
  }

  /** `initGoogleMap`; `throws` says whether creating the map threw. It
      does not look for an existing map. */
  function InitGoogle(s: MapState, throws: bool): (r: MapState)
    ensures !throws ==> r.mapView == Some(MapView(Google, Target(s))) && !r.loading
                        && r.page.mapsCreated == s.page.mapsCreated + 1 && r.provider == s.provider
    ensures throws ==> r == SwitchToLeaflet(s)
  {
    if throws then SwitchToLeaflet(s)
    else s.(mapView := Some(MapView(Google, Target(s))), loading := false,
            page := s.page.(mapsCreated := s.page.mapsCreated + 1))
  }

  /** `loadGoogleMapsScript`: init at once when the library exists; else
      add the script unless `scriptLoaded` says it was added already. */
  function LoadGoogle(s: MapState, throws: bool): (r: MapState)
    ensures s.page.googleLoaded ==> r == InitGoogle(s, throws)
    ensures !s.page.googleLoaded && s.scriptLoaded ==> r == s
    ensures !s.page.googleLoaded && !s.scriptLoaded ==>
              r.scriptLoaded && r.page.googlePending && r.page.googleScripts == s.page.googleScripts + 1
              && r.mapView == s.mapView && r.provider == s.provider
  {
    if s.page.googleLoaded then InitGoogle(s, throws)
    else if s.scriptLoaded then s
    else s.(scriptLoaded := true,
            page := s.page.(googleScripts := s.page.googleScripts + 1, googlePending := true))
  }

  /** The location step of `initializeLocationAndMap`: the device fix, or
      the fallback flagged as such. */
  function Located(s: MapState, fix: Option<Coords>): (r: MapState)
    ensures fix.Some? ==> r.userLocation == fix && !r.isUsingFallback
    ensures fix.None? ==> r.userLocation == Some(FALLBACK_LOCATION) && r.isUsingFallback
    ensures r == s.(loading := true, userLocation := r.userLocation, isUsingFallback := r.isUsingFallback)
  {
    var s1 := s.(loading := true);
    if fix.Some? then s1.(userLocation := fix, isUsingFallback := false)
    else s1.(userLocation := Some(FALLBACK_LOCATION), isUsingFallback := true)
  }

  /** `initializeLocationAndMap`: locate, then google when a key is
      configured and leaflet otherwise. */
  function Initialize(s: MapState, fix: Option<Coords>, hasKey: bool, throws: bool): (r: MapState)
    ensures r.userLocation == Some(if fix.Some? then fix.value else FALLBACK_LOCATION)
    ensures r.isUsingFallback <==> fix.None?
    ensures !hasKey ==> r.provider == Leaflet && r.page.cssPresent && r.page.googleScripts == s.page.googleScripts
    // With a key, leaflet takes over only when the library was present and
    // creating the map threw.
    ensures hasKey ==> (r.provider == Leaflet <==> s.page.googleLoaded && throws)
    ensures hasKey && !s.page.googleLoaded && !s.scriptLoaded ==>
              r.page.googlePending && r.page.googleScripts == s.page.googleScripts + 1
  {
    var s1 := Located(s, fix);
    if hasKey then LoadGoogle(s1.(provider := Google), throws) else SwitchToLeaflet(s1)
  }

  /** The google script loaded and called back `initFarmMap`. */
  function GoogleScriptLoaded(s: MapState, throws: bool): (r: MapState)
    requires s.page.googlePending
    ensures r.page.googleLoaded && !r.page.googlePending
    ensures !throws ==> r.mapView == Some(MapView(Google, Target(s))) && !r.loading && r.provider == s.provider
    ensures throws ==> r.provider == Leaflet && r.page.cssPresent
  {
    InitGoogle(s.(page := s.page.(googleLoaded := true, googlePending := false)), throws)
  }

  /** The google script failed to load. */
  function GoogleScriptFailed(s: MapState): (r: MapState)
    requires s.page.googlePending
    ensures r.provider == Leaflet && r.page.cssPresent && !r.page.googlePending
    ensures r.page.googleLoaded == s.page.googleLoaded && r.page.googleScripts == s.page.googleScripts
    ensures s.page.leafletLoaded && s.mapView.None? ==> r.mapView == Some(MapView(Leaflet, Target(s))) && !r.loading
    ensures !s.page.leafletLoaded ==> r.page.leafletPending && r.mapView == s.mapView
  {
    SwitchToLeaflet(s.(page := s.page.(googlePending := false)))
  }

  /** The leaflet script loaded. */
  function LeafletScriptLoaded(s: MapState): (r: MapState)
    requires s.page.leafletPending
    ensures r.page.leafletLoaded && !r.page.leafletPending
    ensures s.mapView.None? ==> r.mapView == Some(MapView(Leaflet, Target(s))) && !r.loading
    ensures s.mapView.Some? ==> r.mapView == s.mapView && r.page.mapsCreated == s.page.mapsCreated
  {
    InitLeaflet(s.(page := s.page.(leafletLoaded := true, leafletPending := false)))
  }

  /** The effect on a location change: init for the active provider when a
      location exists, no map does, and that provider's library is present. */
  function LocationChanged(s: MapState, throws: bool): (r: MapState)
    ensures s.userLocation.None? || s.mapView.Some? ==> r == s
    ensures (s.provider == Google && !s.page.googleLoaded) || (s.provider == Leaflet && !s.page.leafletLoaded) ==> r == s
    ensures s.userLocation.Some? && s.mapView.None? && s.provider == Leaflet && s.page.leafletLoaded ==>
              r.mapView == Some(MapView(Leaflet, Target(s)))
    ensures s.userLocation.Some? && s.mapView.None? && s.provider == Google && s.page.googleLoaded ==>
              (!throws ==> r.mapView == Some(MapView(Google, Target(s)))) && (throws ==> r.provider == Leaflet)
  {
    if s.userLocation.Some? && s.mapView.None? then
      if s.provider == Google && s.page.googleLoaded then InitGoogle(s, throws)
      else if s.provider == Leaflet && s.page.leafletLoaded then InitLeaflet(s)
      else s
    else s
  }

  lemma MountedValid(googleLoaded: bool, leafletLoaded: bool, cssPresent: bool)
    ensures Valid(Mounted(googleLoaded, leafletLoaded, cssPresent))
  {
  }

  /** Creating the leaflet map keeps the invariant. */
  lemma InitLeafletValid(s: MapState)
    requires Valid(s) && s.provider == Leaflet && s.page.leafletLoaded && s.userLocation.Some?
    ensures Valid(InitLeaflet(s))
  {
  }

  /** Switching to leaflet from google, while no map exists and no google
      script is pending, keeps the invariant: the leaflet assets are added
      for the first time. */
  lemma SwitchToLeafletValid(s: MapState)
    requires Valid(s) && s.provider == Google && s.mapView.None? && !s.page.googlePending
    requires s.userLocation.Some?
    ensures Valid(SwitchToLeaflet(s))
  {
    var l := s.(provider := Leaflet);
    var css := if l.page.cssPresent then l
               else l.(page := l.page.(cssPresent := true, cssLinks := l.page.cssLinks + 1));
    if css.page.leafletLoaded {
      InitLeafletValid(css);
    }
  }

  lemma InitGoogleValid(s: MapState, throws: bool)
    requires Valid(s) && s.provider == Google && s.mapView.None? && !s.page.googlePending
    requires s.userLocation.Some?
    ensures Valid(InitGoogle(s, throws))
  {
    if throws {
      SwitchToLeafletValid(s);
    }
  }

  lemma LoadGoogleValid(s: MapState, throws: bool)
    requires Valid(s) && s.provider == Google && s.mapView.None? && !s.page.googlePending
    requires s.userLocation.Some?
    ensures Valid(LoadGoogle(s, throws))
  {
    if s.page.googleLoaded {
      InitGoogleValid(s, throws);
    }
  }

  /** The mount step keeps the invariant. */
  lemma InitializeValid(s: MapState, fix: Option<Coords>, hasKey: bool, throws: bool)
    requires Valid(s) && s.userLocation.None?
    ensures Valid(Initialize(s, fix, hasKey, throws))
  {
    var s1 := Located(s, fix);
    assert Valid(s1);
    if hasKey {
      LoadGoogleValid(s1.(provider := Google), throws);
    } else {
      SwitchToLeafletValid(s1);
    }
  }

  lemma GoogleScriptLoadedValid(s: MapState, throws: bool)
    requires Valid(s) && s.page.googlePending
    ensures Valid(GoogleScriptLoaded(s, throws))
  {
    InitGoogleValid(s.(page := s.page.(googleLoaded := true, googlePending := false)), throws);
  }

  lemma GoogleScriptFailedValid(s: MapState)
    requires Valid(s) && s.page.googlePending
    ensures Valid(GoogleScriptFailed(s))
  {
    SwitchToLeafletValid(s.(page := s.page.(googlePending := false)));
  }

  lemma LeafletScriptLoadedValid(s: MapState)
    requires Valid(s) && s.page.leafletPending
    ensures Valid(LeafletScriptLoaded(s))
  {
    InitLeafletValid(s.(page := s.page.(leafletLoaded := true, leafletPending := false)));
  }

  lemma LocationChangedValid(s: MapState, throws: bool)
    requires Valid(s)
    ensures Valid(LocationChanged(s, throws))
  {
    if s.userLocation.Some? && s.mapView.None? {
      if s.provider == Google && s.page.googleLoaded {
        InitGoogleValid(s, throws);
      } else if s.provider == Leaflet && s.page.leafletLoaded {
        InitLeafletValid(s);
      }
    }
  }

  /** Without a key the mount chooses leaflet and adds no google script. */
  lemma NoKeyNeverLoadsGoogle(s: MapState, fix: Option<Coords>, throws: bool)
    requires Valid(s) && s.userLocation.None?
    ensures var r := Initialize(s, fix, false, throws);
            r.provider == Leaflet && r.page.googleScripts == 0 && !r.scriptLoaded
  {
  }

  /** With a key and the library absent, the mount adds exactly one google
      script and waits for it; without the library nothing is drawn yet. */
  lemma KeyAddsGoogleScript(s: MapState, fix: Option<Coords>, throws: bool)
    requires Valid(s) && s.userLocation.None? && !s.page.googleLoaded
    ensures var r := Initialize(s, fix, true, throws);
            r.provider == Google && r.page.googleScripts == 1 && r.page.googlePending
            && r.mapView.None? && r.loading
  {
  }

  /** With a key, the library present and no init error, the google map is
      drawn at once, centred on the fix or on the fallback. */
  lemma KeyDrawsGoogleAtOnce(s: MapState, fix: Option<Coords>)
    requires Valid(s) && s.userLocation.None? && s.page.googleLoaded
    ensures var r := Initialize(s, fix, true, false);
            r.mapView == Some(MapView(Google, if fix.Some? then fix.value else FALLBACK_LOCATION))
            && !r.loading && r.page.googleScripts == 0
  {
  }

  /** Once a map exists the location effect changes nothing, and a second
      leaflet init returns without creating another map. */
  lemma ExistingMapIsKept(s: MapState, throws: bool)
    requires s.mapView.Some?
    ensures LocationChanged(s, throws) == s && InitLeaflet(s) == s
  {
  }

  /** Adding the google script a second time is refused by `scriptLoaded`. */
  lemma GoogleScriptAddedOnce(s: MapState, throws: bool)
    requires Valid(s) && s.scriptLoaded && !s.page.googleLoaded
    ensures LoadGoogle(s, throws) == s && s.page.googleScripts == 1
  {
  }

  /** A google script error or init error ends with leaflet in charge and its
      assets requested, and the map, once drawn, stays on the target. */
  lemma GoogleFailureFallsBack(s: MapState)
    requires Valid(s) && s.page.googlePending
    ensures var r := GoogleScriptFailed(s);
            && r.provider == Leaflet && r.page.cssPresent
            && (s.page.leafletLoaded ==> r.mapView == Some(MapView(Leaflet, Target(s))) && !r.loading)
            && (!s.page.leafletLoaded ==> r.page.leafletPending && r.page.leafletScripts == 1)
  {
  }

  /** The screen, with the page state it reads and writes. */
  class FarmMapScreen {
    var userLocation: Option<Coords>
    var isUsingFallback: bool
    var provider: Provider
    var mapView: Option<MapView>
    var loading: bool
    var scriptLoaded: bool
    var page: Page

    function State(): MapState
      reads this
    {
      MapState(userLocation, isUsingFallback, provider, mapView, loading, scriptLoaded, page)
    }

    constructor (googleLoaded: bool, leafletLoaded: bool, cssPresent: bool)
      ensures State() == Mounted(googleLoaded, leafletLoaded, cssPresent)
      ensures Valid(State())
    {
      userLocation := None;
      isUsingFallback := false;
      provider := Google;
      mapView := None;
      loading := true;
      scriptLoaded := false;
      page := Page(googleLoaded, leafletLoaded, cssPresent, 0, 0, 0, false, false, 0);
    }

    method InitLeafletMap()
      modifies this
      ensures State() == InitLeaflet(old(State()))
    {
      if mapView.Some? {
        return;
      }
      var target := if userLocation.Some? then userLocation.value else FALLBACK_LOCATION;
      mapView := Some(MapView(Leaflet, target));
      page := page.(mapsCreated := page.mapsCreated + 1);
      loading := false;
    }

    method LoadLeafletScript()
      modifies this
      ensures State() == LoadLeaflet(old(State()))
    {
      if !page.cssPresent {
        page := page.(cssPresent := true, cssLinks := page.cssLinks + 1);
      }
      if page.leafletLoaded {
        InitLeafletMap();
        return;
      }
      page := page.(leafletScripts := page.leafletScripts + 1, leafletPending := true);
    }

    method InitGoogleMap(throws: bool)
      modifies this
      ensures State() == InitGoogle(old(State()), throws)
    {
      var target := if userLocation.Some? then userLocation.value else FALLBACK_LOCATION;
      if throws {
        provider := Leaflet;
        LoadLeafletScript();
      } else {
        mapView := Some(MapView(Google, target));
        page := page.(mapsCreated := page.mapsCreated + 1);
        loading := false;
      }
    }

    method LoadGoogleMapsScript(throws: bool)
      modifies this
      ensures State() == LoadGoogle(old(State()), throws)
    {
      if page.googleLoaded {
        InitGoogleMap(throws);
        return;
      }
      if scriptLoaded {
        return;
      }
      page := page.(googleScripts := page.googleScripts + 1, googlePending := true);
      scriptLoaded := true;
    }

    /** The mount effect. `fix` is the device position (`None` when it is
        unavailable or refused), `hasKey` whether a maps key is configured,
        `throws` whether creating a google map throws. */
    method InitializeLocationAndMap(fix: Option<Coords>, hasKey: bool, throws: bool)
      requires Valid(State()) && userLocation.None?
      modifies this
      ensures State() == Initialize(old(State()), fix, hasKey, throws)
      ensures Valid(State())
    {
      InitializeValid(State(), fix, hasKey, throws);
      loading := true;
      if fix.Some? {
        userLocation := fix;
        isUsingFallback := false;
      } else {
        userLocation := Some(FALLBACK_LOCATION);
        isUsingFallback := true;
      }
      if hasKey {
        provider := Google;
        LoadGoogleMapsScript(throws);
      } else {
        provider := Leaflet;
        LoadLeafletScript();
      }
    }

    method OnGoogleScriptLoad(throws: bool)
      requires Valid(State()) && page.googlePending
      modifies this
      ensures State() == GoogleScriptLoaded(old(State()), throws)
      ensures Valid(State())
    {
      GoogleScriptLoadedValid(State(), throws);
      page := page.(googleLoaded := true, googlePending := false);
      InitGoogleMap(throws);
    }

    method OnGoogleScriptError()
      requires Valid(State()) && page.googlePending
      modifies this
      ensures State() == GoogleScriptFailed(old(State()))
      ensures Valid(State())
    {
      GoogleScriptFailedValid(State());
      page := page.(googlePending := false);
      provider := Leaflet;
      LoadLeafletScript();
    }

    method OnLeafletScriptLoad()
      requires Valid(State()) && page.leafletPending
      modifies this
      ensures State() == LeafletScriptLoaded(old(State()))
      ensures Valid(State())
    {
      LeafletScriptLoadedValid(State());
      page := page.(leafletLoaded := true, leafletPending := false);
      InitLeafletMap();
    }

    /** The effect that re-runs init when the location changes. */
    method OnLocationChange(throws: bool)
      requires Valid(State())
      modifies this
      ensures State() == LocationChanged(old(State()), throws)
      ensures Valid(State())
    {
      LocationChangedValid(State(), throws);
      if userLocation.Some? && mapView.None? {
        var p := provider;
        if p == Google && page.googleLoaded {
          InitGoogleMap(throws);
        }
        if p == Leaflet && page.leafletLoaded {
          InitLeafletMap();
        }
      }
    }
  }
}
