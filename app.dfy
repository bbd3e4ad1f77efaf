/**
 * The top-level store: curated and generated locations merged (and measured from the home
 * base), generated trails, the selection state and the navigation tabs.
 */
module App {
  import opened Types
  import opened Text
  import opened Seqs
  import Sidebar
  import MapDisplay
  import Gemini

  const HomeBaseId := "home-base"
  const TrailIdStem := "gen-trail-"
  const PromotedTrailDescription := "Custom AI generated itinerary based on your request."

  // ---------------------------------------------------------------- merged locations

  /** The two records agree on every field except the distance label. */
  predicate SameExceptDistance(a: LocationData, b: LocationData) {
    a.(distanceFromBase := None) == b.(distanceFromBase := None)
  }

  /** Each location labelled with its distance from `base`; `distance` stands for the Haversine label. */
  function WithDistance(base: Coord, locs: seq<LocationData>, distance: (Coord, Coord) -> string): (r: seq<LocationData>)
    ensures |r| == |locs|
    ensures forall i :: 0 <= i < |locs| ==>
      SameExceptDistance(r[i], locs[i]) && r[i].distanceFromBase == Some(distance(base, locs[i].coordinates))
  {
    if locs == [] then []
    else [locs[0].(distanceFromBase := Some(distance(base, locs[0].coordinates)))] + WithDistance(base, locs[1..], distance)
  }

  /**
   * `allLocations`: the curated locations, then the generated ones. Without a home base they are
   * unchanged; with one, the order and length are kept and only the distance label is set.
   */
  function AllLocations(curated: seq<LocationData>, generated: seq<LocationData>, homeBase: Option<LocationData>,
                        distance: (Coord, Coord) -> string): (r: seq<LocationData>)
    ensures homeBase.None? ==> r == curated + generated
    ensures |r| == |curated| + |generated|
    ensures homeBase.Some? ==> forall i :: 0 <= i < |r| ==>
      && SameExceptDistance(r[i], (curated + generated)[i])
      && r[i].distanceFromBase == Some(distance(homeBase.value.coordinates, (curated + generated)[i].coordinates))
  {
    var combined := curated + generated;
    if homeBase.None? then combined else WithDistance(homeBase.value.coordinates, combined, distance)
  }

  // ---------------------------------------------------------------- de-duplication

  /** The lower-cased names already on the map. */
  function LowerNames(locs: seq<LocationData>): set<string> {
    set l | l in locs :: Lower(l.name)
  }

  /** Some location in `existing` has the same name, ignoring case. */
  predicate NameTaken(existing: seq<LocationData>, loc: LocationData) {
    Lower(loc.name) in LowerNames(existing)
  }

  /**
   * `uniqueNew`: the new locations whose name, ignoring case, no existing location has, each
   * kept as often as it came and in the order it came. Only `existing` is consulted, so two
   * equally named newcomers are both kept.
   */
  function UniqueNew(existing: seq<LocationData>, incoming: seq<LocationData>): (r: seq<LocationData>)
    ensures IsSubsequence(r, incoming)
    ensures forall x :: multiset(r)[x] == if NameTaken(existing, x) then 0 else multiset(incoming)[x]
    ensures forall x, e :: x in r && e in existing ==> Lower(e.name) != Lower(x.name)
  {
    Filter(l => !NameTaken(existing, l), incoming)
  }

  /** A batch in which no name is already taken is kept whole, duplicates within it included. */
  lemma FreshBatchKept(existing: seq<LocationData>, incoming: seq<LocationData>)
    requires forall l :: l in incoming ==> !NameTaken(existing, l)
    ensures UniqueNew(existing, incoming) == incoming
  {
    FilterKeepsAll(l => !NameTaken(existing, l), incoming);
  }

  /** A batch whose every name is already taken (ignoring case) yields nothing to add. */
  lemma StaleBatchDropped(existing: seq<LocationData>, incoming: seq<LocationData>)
    requires forall l :: l in incoming ==> exists e :: e in existing && Lower(e.name) == Lower(l.name)
    ensures UniqueNew(existing, incoming) == []
  {
    FilterKeepsNone(l => !NameTaken(existing, l), incoming);
  }

  // ---------------------------------------------------------------- promotion and home base

  /** The trail a generated route becomes; `stamp` stands for `Date.now()`. */
  function PromoteRoute(route: Route, stamp: string): (t: Trail)
    ensures t.name == route.title && t.steps == route.steps
    ensures StartsWith(t.id, TrailIdStem)
  {
    var t := Trail(TrailIdStem + stamp, route.title, PromotedTrailDescription, Urban, "Flexible", route.steps);
    assert t.id[..|TrailIdStem|] == TrailIdStem;
    t
  }

  /** Every promoted trail is recognised as an AI trail by the sidebar, whatever its time stamp. */
  lemma PromotedTrailIsAi(route: Route, stamp: string)
    ensures Sidebar.IsAiTrail(PromoteRoute(route, stamp))
  {
    var id := PromoteRoute(route, stamp).id;
    assert id[..|Sidebar.AiTrailPrefix|] == id[..|TrailIdStem|][..|Sidebar.AiTrailPrefix|];
  }

  /** The home base built from a resolved place. */
  function HomeBaseFrom(place: Gemini.Place): (b: LocationData)
    ensures b.id == HomeBaseId && b.name == place.name && b.coordinates == place.coordinates
    ensures !b.isGenerated && b.distanceFromBase.None?
  {
    LocationData(HomeBaseId, place.name, "My Home Base", PlacesOfInterests, place.coordinates, 0.0, "",
                 None, "", false, None, None)
  }

  // ---------------------------------------------------------------- persisted state

  /**
   * Restoring one stored key: no value, an empty value, or one that `parse` (standing for
   * `JSON.parse`) rejects gives the default; otherwise the parsed value.
   */
  function Restore<T>(stored: Option<string>, parse: string -> Option<T>, default: T): (r: T)
    ensures stored.None? || stored == Some("") ==> r == default
    ensures stored.Some? && stored.value != "" && parse(stored.value).None? ==> r == default
    ensures stored.Some? && stored.value != "" && parse(stored.value).Some? ==> r == parse(stored.value).value
  {
    if stored.None? || stored.value == "" then default
    else match parse(stored.value)
      case None => default
      case Some(v) => v
  }

  /** What was written is what is read back, whenever `parse` undoes `serialize`. */
  lemma RestoreRoundTrip<T>(x: T, serialize: T -> string, parse: string -> Option<T>, default: T)
    requires serialize(x) != "" && parse(serialize(x)) == Some(x)
    ensures Restore(Some(serialize(x)), parse, default) == x
  {
  }

  /** What awaiting `resolveLocation` gives: a place, no place, or a rejection. */
  type Resolution = Result<Option<Gemini.Place>>

  class AppState {
    const curated: seq<LocationData>
    const distance: (Coord, Coord) -> string

    var selectedLocation: Option<LocationData>
    var selectedCategory: CategoryFilter
    // Only `None` is ever assigned here, and the other handlers keep it, so no route is ever current.
    var currentRoute: Option<Route>
    var activeTrail: Option<Trail>
    var isSidebarOpen: bool
    var isChatOpen: bool
    var chatContext: Option<string>
    var mainTab: MainTab
    var listTab: ListTab
    var homeBase: Option<LocationData>
    var generatedLocations: seq<LocationData>
    var generatedTrails: seq<Trail>
    var isResolvingBase: bool

    /** The first render: fixed defaults, and the three persisted keys restored. */
    constructor(curated: seq<LocationData>, distance: (Coord, Coord) -> string,
                storedHomeBase: Option<string>, parseHomeBase: string -> Option<Option<LocationData>>,
                storedLocations: Option<string>, parseLocations: string -> Option<seq<LocationData>>,
                storedTrails: Option<string>, parseTrails: string -> Option<seq<Trail>>)
      ensures this.curated == curated && this.distance == distance
      ensures selectedLocation.None? && selectedCategory == All && currentRoute.None? && activeTrail.None?
      ensures isSidebarOpen && !isChatOpen && chatContext.None? && mainTab == Explore && listTab == Curated
      ensures !isResolvingBase
      ensures homeBase == Restore(storedHomeBase, parseHomeBase, None)
      ensures generatedLocations == Restore(storedLocations, parseLocations, [])
      ensures generatedTrails == Restore(storedTrails, parseTrails, [])
    {
      this.curated := curated;
      this.distance := distance;
      selectedLocation := None;
      selectedCategory := All;
      currentRoute := None;
      activeTrail := None;
      isSidebarOpen := true;
      isChatOpen := false;
      chatContext := None;
      mainTab := Explore;
      listTab := Curated;
      homeBase := Restore(storedHomeBase, parseHomeBase, None);
      generatedLocations := Restore(storedLocations, parseLocations, []);
      generatedTrails := Restore(storedTrails, parseTrails, []);
      isResolvingBase := false;
    }

    /** The merged list every view is given. */
    function Locations(): (r: seq<LocationData>)
      reads this
      ensures |r| == |curated| + |generatedLocations|
      ensures forall i :: 0 <= i < |r| ==> r[i].name == (curated + generatedLocations)[i].name
    {
      AllLocations(curated, generatedLocations, homeBase, distance)
    }

    /** `handleSelectLocation`: focus the location, drop the trail and the route, open the sidebar; the map then flies to it. */
    method SelectLocation(loc: LocationData)
      modifies this
      ensures selectedLocation == Some(loc) && activeTrail.None? && currentRoute.None? && isSidebarOpen
      ensures MapDisplay.Camera(selectedLocation, currentRoute, activeTrail) == MapDisplay.FlyTo(loc.coordinates, MapDisplay.SelectionZoom)
      ensures homeBase == old(homeBase) && generatedLocations == old(generatedLocations) && generatedTrails == old(generatedTrails)
      ensures mainTab == old(mainTab) && listTab == old(listTab) && selectedCategory == old(selectedCategory)
      ensures isChatOpen == old(isChatOpen) && chatContext == old(chatContext) && isResolvingBase == old(isResolvingBase)
    {
      selectedLocation := Some(loc);
      activeTrail := None;
      currentRoute := None;
      isSidebarOpen := true;
    }

    /** `onCloseSelection`: only the selected location is cleared. */
    method CloseSelection()
      modifies this
      ensures selectedLocation.None?
      ensures activeTrail == old(activeTrail) && currentRoute == old(currentRoute) && isSidebarOpen == old(isSidebarOpen)
      ensures homeBase == old(homeBase) && generatedLocations == old(generatedLocations) && generatedTrails == old(generatedTrails)
      ensures mainTab == old(mainTab) && listTab == old(listTab) && selectedCategory == old(selectedCategory)
      ensures isChatOpen == old(isChatOpen) && chatContext == old(chatContext) && isResolvingBase == old(isResolvingBase)
    {
      selectedLocation := None;
    }

    /** `handleAskAI`: open the chat with the location's name as its context. */
    method AskAI(loc: LocationData)
      modifies this
      ensures chatContext == Some(loc.name) && isChatOpen
      ensures selectedLocation == old(selectedLocation) && activeTrail == old(activeTrail) && currentRoute == old(currentRoute)
      ensures isSidebarOpen == old(isSidebarOpen) && homeBase == old(homeBase)
      ensures generatedLocations == old(generatedLocations) && generatedTrails == old(generatedTrails)
      ensures mainTab == old(mainTab) && listTab == old(listTab) && selectedCategory == old(selectedCategory)
      ensures isResolvingBase == old(isResolvingBase)
    {
      chatContext := Some(loc.name);
      isChatOpen := true;
    }

    /**
     * `handleRouteGenerated`: the route becomes an AI trail in front of the generated trails and
     * the active trail, the ephemeral route is cleared and the trails tab is shown.
     */
    method HandleRouteGenerated(route: Route, stamp: string)
      modifies this
      ensures generatedTrails == [PromoteRoute(route, stamp)] + old(generatedTrails)
      ensures activeTrail == Some(PromoteRoute(route, stamp)) && Sidebar.IsAiTrail(activeTrail.value)
      ensures activeTrail.value.name == route.title && activeTrail.value.steps == route.steps
      ensures currentRoute.None? && mainTab == Trails && isSidebarOpen
      ensures selectedLocation == old(selectedLocation) && homeBase == old(homeBase)
      ensures generatedLocations == old(generatedLocations) && listTab == old(listTab)
      ensures selectedCategory == old(selectedCategory) && isChatOpen == old(isChatOpen)
      ensures chatContext == old(chatContext) && isResolvingBase == old(isResolvingBase)
    {
      var newTrail := PromoteRoute(route, stamp);
      PromotedTrailIsAi(route, stamp);
      generatedTrails := [newTrail] + generatedTrails;
      currentRoute := None;
      activeTrail := Some(newTrail);
      mainTab := Trails;
      isSidebarOpen := true;
    }

    /**
     * `handleLocationsGenerated`: the newcomers whose names are not yet on the map are appended
     * in order; if there are any, the generated list of the explore tab is shown, and if there
     * are none nothing changes.
     */
    method HandleLocationsGenerated(newLocations: seq<LocationData>)
      modifies this
      ensures var added := UniqueNew(old(Locations()), newLocations);
        && generatedLocations == old(generatedLocations) + added
        && (added == [] ==> mainTab == old(mainTab) && listTab == old(listTab) && isSidebarOpen == old(isSidebarOpen))
        && (added != [] ==> mainTab == Explore && listTab == Generated && isSidebarOpen)
      ensures selectedLocation == old(selectedLocation) && activeTrail == old(activeTrail) && currentRoute == old(currentRoute)
      ensures homeBase == old(homeBase) && generatedTrails == old(generatedTrails) && selectedCategory == old(selectedCategory)
      ensures isChatOpen == old(isChatOpen) && chatContext == old(chatContext) && isResolvingBase == old(isResolvingBase)
    {
      var existing := Locations();
      var uniqueNew := UniqueNew(existing, newLocations);
      if |uniqueNew| > 0 {
        generatedLocations := generatedLocations + uniqueNew;
        mainTab := Explore;
        listTab := Generated;
        isSidebarOpen := true;
      }
    }

    /**
     * `handleSetCustomHomeBase`: `resolve` stands for awaiting `resolveLocation(query)`. A found
     * place replaces the home base and the spinner stops; no place leaves the home base and stops
     * the spinner; a rejection aborts the handler, leaving the spinner on.
     */
    method SetCustomHomeBase(query: string, resolve: string -> Resolution)
      modifies this
      ensures resolve(query).Ok? && resolve(query).value.Some? ==> homeBase == Some(HomeBaseFrom(resolve(query).value.value))
      ensures !(resolve(query).Ok? && resolve(query).value.Some?) ==> homeBase == old(homeBase)
      ensures isResolvingBase <==> resolve(query).Err?
      ensures selectedLocation == old(selectedLocation) && activeTrail == old(activeTrail) && currentRoute == old(currentRoute)
      ensures generatedLocations == old(generatedLocations) && generatedTrails == old(generatedTrails)
      ensures mainTab == old(mainTab) && listTab == old(listTab) && selectedCategory == old(selectedCategory)
      ensures isSidebarOpen == old(isSidebarOpen) && isChatOpen == old(isChatOpen) && chatContext == old(chatContext)
    {
      isResolvingBase := true;
      var result := resolve(query);
      if result.Err? {
        return;
      }
      if result.value.Some? {
        homeBase := Some(HomeBaseFrom(result.value.value));
      }
      isResolvingBase := false;
    }

    /** `handleSelectTrail`: the trail becomes active, the route and the selected location are cleared. */
    method SelectTrail(trail: Trail)
      modifies this
      ensures activeTrail == Some(trail) && currentRoute.None? && selectedLocation.None?
      ensures trail.steps != [] ==> MapDisplay.Camera(selectedLocation, currentRoute, activeTrail) == MapDisplay.FlyToBounds(MapDisplay.Coords(trail.steps))
      ensures homeBase == old(homeBase) && generatedLocations == old(generatedLocations) && generatedTrails == old(generatedTrails)
      ensures mainTab == old(mainTab) && listTab == old(listTab) && selectedCategory == old(selectedCategory)
      ensures isSidebarOpen == old(isSidebarOpen) && isChatOpen == old(isChatOpen) && chatContext == old(chatContext)
      ensures isResolvingBase == old(isResolvingBase)
    {
      activeTrail := Some(trail);
      currentRoute := None;
      selectedLocation := None;
    }
  }
}
