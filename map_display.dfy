/** What the map draws and where it moves, derived from the locations, the active route and the active trail. */
module MapDisplay {
  import opened Types
  import Sidebar

  /** The zoom `flyTo` uses for a single selected location. */
  const SelectionZoom := 15
  const RouteColor := "#2563eb"
  const TrailColor := "#ea580c"

  /** The steps' coordinates in step order: the polyline positions and the bounds. */
  function Coords(steps: seq<RouteStep>): (r: seq<Coord>)
    ensures |r| == |steps|
    ensures forall i :: 0 <= i < |steps| ==> r[i] == steps[i].coordinates
  {
    if steps == [] then [] else [steps[0].coordinates] + Coords(steps[1..])
  }

  /**
   * `routeBounds`: a route with at least one step wins; otherwise a trail with at least one
   * step; otherwise there are no bounds. Bounds are never empty.
   */
  function RouteBounds(route: Option<Route>, trail: Option<Trail>): (b: Option<seq<Coord>>)
    ensures b.Some? ==> |b.value| > 0
    ensures route.Some? && route.value.steps != [] ==> b == Some(Coords(route.value.steps))
    ensures !(route.Some? && route.value.steps != []) && trail.Some? && trail.value.steps != [] ==>
      b == Some(Coords(trail.value.steps))
    ensures b.None? <==> (route.None? || route.value.steps == []) && (trail.None? || trail.value.steps == [])
  {
    if route.Some? && |route.value.steps| > 0 then Some(Coords(route.value.steps))
    else if trail.Some? && |trail.value.steps| > 0 then Some(Coords(trail.value.steps))
    else None
  }

  datatype CameraMove = FlyToBounds(bounds: seq<Coord>) | FlyTo(center: Coord, zoom: nat) | StayPut

  /** `MapUpdater`: bounds win over the centre point; with neither the map stays where it is. */
  function MapUpdate(center: Option<Coord>, bounds: Option<seq<Coord>>): (m: CameraMove)
    ensures m.FlyToBounds? <==> bounds.Some?
    ensures m.FlyToBounds? ==> m.bounds == bounds.value
    ensures m.FlyTo? <==> bounds.None? && center.Some?
    ensures m.FlyTo? ==> m.center == center.value && m.zoom == SelectionZoom
  {
    if bounds.Some? then FlyToBounds(bounds.value)
    else if center.Some? then FlyTo(center.value, SelectionZoom)
    else StayPut
  }

  /** The camera move for a selection and the active route and trail. */
  function Camera(selected: Option<LocationData>, route: Option<Route>, trail: Option<Trail>): (m: CameraMove)
    ensures m.StayPut? <==> selected.None? && (route.None? || route.value.steps == []) && (trail.None? || trail.value.steps == [])
    ensures m.FlyTo? ==> selected.Some? && m.center == selected.value.coordinates && m.zoom == SelectionZoom
    ensures m.FlyToBounds? ==> |m.bounds| > 0
    ensures !(route.Some? && route.value.steps != []) && trail.Some? && trail.value.steps != [] ==>
      m == FlyToBounds(Coords(trail.value.steps))
  {
    MapUpdate(if selected.Some? then Some(selected.value.coordinates) else None, RouteBounds(route, trail))
  }

  /**
   * The selected location is flown to exactly when neither the route nor the trail has a step;
   * a route with steps always decides the view, whatever else is selected or active.
   */
  lemma CameraPrecedence(selected: Option<LocationData>, route: Option<Route>, trail: Option<Trail>)
    ensures Camera(selected, route, trail).FlyTo? <==>
      selected.Some? && (route.None? || route.value.steps == []) && (trail.None? || trail.value.steps == [])
    ensures route.Some? && route.value.steps != [] ==> Camera(selected, route, trail) == FlyToBounds(Coords(route.value.steps))
    ensures Camera(selected, route, trail).FlyTo? ==> Camera(selected, route, trail).center == selected.value.coordinates
  {
  }

  datatype Icon = DefaultIcon | AiIcon

  datatype LocationMarker = LocationMarker(key: string, position: Coord, icon: Icon, opacity: real)

  /** The marker drawn for one location. */
  function MarkerFor(loc: LocationData, trailActive: bool): LocationMarker {
    LocationMarker(loc.id, loc.coordinates, if loc.isGenerated then AiIcon else DefaultIcon, if trailActive then 0.4 else 1.0)
  }

  /**
   * `locationMarkers`: one slot per location, empty for the home base (matched by id); each
   * marker sits on its location, is violet for an AI discovery and is faded while a trail is active.
   */
  function LocationMarkers(locs: seq<LocationData>, homeBase: Option<LocationData>, activeTrail: Option<Trail>)
    : (r: seq<Option<LocationMarker>>)
    ensures |r| == |locs|
    ensures forall i :: 0 <= i < |locs| ==> (r[i].None? <==> Sidebar.IsHomeBase(homeBase, locs[i]))
    ensures forall i :: 0 <= i < |locs| && r[i].Some? ==>
      && r[i].value.key == locs[i].id
      && r[i].value.position == locs[i].coordinates
      && (r[i].value.icon == AiIcon <==> locs[i].isGenerated)
      && r[i].value.opacity == (if activeTrail.Some? then 0.4 else 1.0)
  {
    if locs == [] then []
    else
      var m := if Sidebar.IsHomeBase(homeBase, locs[0]) then None else Some(MarkerFor(locs[0], activeTrail.Some?));
      [m] + LocationMarkers(locs[1..], homeBase, activeTrail)
  }

  datatype StepMarker = StepMarker(number: nat, position: Coord, color: string)

  /** Numbered step markers, counting from `first`. */
  function NumberedFrom(steps: seq<RouteStep>, first: nat, color: string): (r: seq<StepMarker>)
    ensures |r| == |steps|
    ensures forall i :: 0 <= i < |steps| ==> r[i] == StepMarker(first + i, steps[i].coordinates, color)
    decreases |steps|
  {
    if steps == [] then [] else [StepMarker(first, steps[0].coordinates, color)] + NumberedFrom(steps[1..], first + 1, color)
  }

  /** A path drawn on the map: the polyline and its numbered stops. */
  datatype PathOverlay = PathOverlay(polyline: seq<Coord>, lineColor: string, markers: seq<StepMarker>)

  function Overlay(steps: seq<RouteStep>, color: string): (o: PathOverlay)
    ensures o.polyline == Coords(steps) && o.lineColor == color
    ensures |o.markers| == |steps|
    ensures forall i :: 0 <= i < |steps| ==>
      o.markers[i].number == i + 1 && o.markers[i].position == o.polyline[i] && o.markers[i].color == color
  {
    PathOverlay(Coords(steps), color, NumberedFrom(steps, 1, color))
  }

  /** `routeMarkers`: nothing without an active route; otherwise its steps numbered 1..n in blue. */
  function RouteOverlay(route: Option<Route>): (o: Option<PathOverlay>)
    ensures o.None? <==> route.None?
    ensures o.Some? ==> o.value == Overlay(route.value.steps, RouteColor)
  {
    if route.None? then None else Some(Overlay(route.value.steps, RouteColor))
  }

  /** `trailMarkers`: nothing without an active trail; otherwise its steps numbered 1..n in orange. */
  function TrailOverlay(trail: Option<Trail>): (o: Option<PathOverlay>)
    ensures o.None? <==> trail.None?
    ensures o.Some? ==> o.value == Overlay(trail.value.steps, TrailColor)
  {
    if trail.None? then None else Some(Overlay(trail.value.steps, TrailColor))
  }
}
