/** `MapaRutas`: the map on which a passenger picks an origin and a
    destination by clicking. Its React state is the class's fields; what it
    reports to its parent through `onSelect` and the route requests it sends
    to the directions service are output logs. The directions service's
    answer and the browser's position fix arrive as method calls. */
module RouteMap {
  import opened Common

  /** The centre used when no position is available. */
  const FallbackCenter := Point(21.3589, -99.6733)

  const MyLocationText := "Mi ubicación actual"

  /** The text of an input box: typed or fixed text, or the coordinates of a
      clicked point (printed with six decimals in the page). */
  datatype PlaceText = Typed(s: string) | CoordsOf(p: Point)

  /** What the component passes to `onSelect`. */
  datatype Selection =
    | SelectOrigen(origen: Point)
    | SelectDestino(destino: Point)
    | SelectNuevoOrigen(origen: Point)   // `{ origen, destino: null }`
    | SelectRuta(directions: Route, distancia: string, duracion: string)

  datatype RouteRequest = RouteRequest(from: Point, to: Point)

  /** The part of the component's state a click reads and writes. */
  datatype Pick = Pick(
    origin: Option<Point>, destination: Option<Point>, directions: Option<Route>,
    originText: PlaceText, destinationText: PlaceText)

  /** What one click does: the new state, the selection reported, and the
      route requested, if any. */
  datatype ClickEffect = ClickEffect(next: Pick, selection: Selection, request: Option<RouteRequest>)

  /** `handleClick` at point `p`. */
  function Click(s: Pick, p: Point): (e: ClickEffect)
    ensures e.next.origin.Some?
    ensures s.origin.None? ==>
              e.next.origin == Some(p) && e.next.destination.None? && e.next.directions.None? &&
              e.next.originText == CoordsOf(p) && e.next.destinationText == s.destinationText &&
              e.selection == SelectOrigen(p) && e.request.None?
    ensures s.origin.Some? && s.destination.None? ==>
              e.next == s.(destination := Some(p), destinationText := CoordsOf(p)) &&
              e.selection == SelectDestino(p) && e.request == Some(RouteRequest(s.origin.value, p))
    ensures s.origin.Some? && s.destination.Some? ==>
              e.next.origin == Some(p) && e.next.destination.None? && e.next.directions.None? &&
              e.next.originText == CoordsOf(p) && e.next.destinationText == Typed("") &&
              e.selection == SelectNuevoOrigen(p) && e.request.None?
  {
    if s.origin.None? then
      ClickEffect(s.(origin := Some(p), originText := CoordsOf(p), destination := None, directions := None),
                  SelectOrigen(p), None)
    else if s.destination.None? then
      ClickEffect(s.(destination := Some(p), destinationText := CoordsOf(p)),
                  SelectDestino(p), Some(RouteRequest(s.origin.value, p)))
    else
      ClickEffect(s.(origin := Some(p), originText := CoordsOf(p), destination := None,
                     destinationText := Typed(""), directions := None),
                  SelectNuevoOrigen(p), None)
  }

  predicate Consistent(s: Pick)
  {
    s.destination.Some? ==> s.origin.Some?
  }

  const Empty := Pick(None, None, None, Typed(""), Typed(""))

  /** A click keeps "a destination only with an origin". */
  lemma ClickConsistent(s: Pick, p: Point)
    ensures Consistent(Click(s, p).next)
  {
  }

  /** From the empty map, three clicks leave the third as origin, no
      destination and no route, after reporting origin, destination and a
      new origin, and requesting one route, from the first to the second. */
  lemma ThreeClicks(a: Point, b: Point, c: Point)
    ensures var e1 := Click(Empty, a);
            var e2 := Click(e1.next, b);
            var e3 := Click(e2.next, c);
            && e3.next.origin == Some(c) && e3.next.destination.None? && e3.next.directions.None?
            && [e1.selection, e2.selection, e3.selection] == [SelectOrigen(a), SelectDestino(b), SelectNuevoOrigen(c)]
            && e1.request.None? && e2.request == Some(RouteRequest(a, b)) && e3.request.None?
  {
  }

  /** Once both points are set the clicks alternate: two further clicks set
      a new pair, from the first to the second. */
  lemma TwoClicksMakeNewPair(s: Pick, a: Point, b: Point)
    requires s.origin.Some? && s.destination.Some?
    ensures var n := Click(Click(s, a).next, b);
            n.next.origin == Some(a) && n.next.destination == Some(b) && n.request == Some(RouteRequest(a, b))
  {
  }

  /** How the browser answers a position request. */
  datatype GeoOutcome = Unsupported | Failed | Fix(p: Point)

  class MapaRutas {
    var center: Point
    var origin: Option<Point>
    var destination: Option<Point>
    var directions: Option<Route>
    var originText: PlaceText
    var destinationText: PlaceText
    /** Every `onSelect` call, in order. */
    var selections: seq<Selection>
    /** Every request to the directions service, in order. */
    var requests: seq<RouteRequest>

    function State(): Pick
      reads this
    {
      Pick(origin, destination, directions, originText, destinationText)
    }

    ghost predicate Valid()
      reads this
    {
      Consistent(State())
    }

    constructor ()
      ensures Valid() && State() == Empty && center == FallbackCenter
      ensures selections == [] && requests == []
    {
      center := FallbackCenter;
      origin, destination, directions := None, None, None;
      originText, destinationText := Typed(""), Typed("");
      selections, requests := [], [];
    }

    method HandleClick(p: Point)
      requires Valid()
      modifies this
      ensures Valid()
      ensures State() == Click(old(State()), p).next
      ensures selections == old(selections) + [Click(old(State()), p).selection]
      ensures requests == old(requests) +
                (if Click(old(State()), p).request.Some? then [Click(old(State()), p).request.value] else [])
      ensures center == old(center)
    {
      if origin.None? {
        origin := Some(p);
        originText := CoordsOf(p);
        destination := None;
        directions := None;
        selections := selections + [SelectOrigen(p)];
      } else if destination.None? {
        destination := Some(p);
        destinationText := CoordsOf(p);
        selections := selections + [SelectDestino(p)];
        requests := requests + [RouteRequest(origin.value, p)];
      } else {
        origin := Some(p);
        originText := CoordsOf(p);
        destination := None;
        destinationText := Typed("");
        directions := None;
        selections := selections + [SelectNuevoOrigen(p)];
      }
    }

    /** The directions service's callback for an earlier request: on `"OK"`
        show the route and report it with the first leg's distance and
        duration texts; otherwise change nothing. The callback may arrive
        after later clicks. */
    method OnRouteResult(ok: bool, route: Route, distancia: string, duracion: string)
      requires Valid()
      modifies this`directions, this`selections
      ensures Valid()
      ensures ok ==> directions == Some(route) &&
                     selections == old(selections) + [SelectRuta(route, distancia, duracion)]
      ensures !ok ==> directions == old(directions) && selections == old(selections)
    {
      if ok {
        directions := Some(route);
        selections := selections + [SelectRuta(route, distancia, duracion)];
      }
    }

    /** The position request made when the component mounts, and again
        whenever `onSelect` changes. The passenger page passes a new
        `handleSelect` on every render, so that is after every render of
        the page. A fix becomes centre and origin with
        the text "Mi ubicación actual"; a failure recentres on the fallback.
        The destination, its text and the route are left as they are. */
    method OnMountPosition(g: GeoOutcome)
      requires Valid()
      modifies this
      ensures Valid()
      ensures g.Fix? ==>
                center == g.p && origin == Some(g.p) && originText == Typed(MyLocationText) &&
                selections == old(selections) + [SelectOrigen(g.p)]
      ensures g.Failed? ==> center == FallbackCenter && origin == old(origin) &&
                            originText == old(originText) && selections == old(selections)
      ensures g.Unsupported? ==> center == old(center) && origin == old(origin) &&
                                 originText == old(originText) && selections == old(selections)
      ensures destination == old(destination) && destinationText == old(destinationText)
      ensures directions == old(directions) && requests == old(requests)
    {
      match g
      case Unsupported =>
      case Failed => center := FallbackCenter;
      case Fix(p) => TakeFix(p);
    }

    /** The "📍" button: the same on a fix, nothing on failure. */
    method UsarMiUbicacion(g: GeoOutcome)
      requires Valid()
      modifies this
      ensures Valid()
      ensures g.Fix? ==>
                center == g.p && origin == Some(g.p) && originText == Typed(MyLocationText) &&
                selections == old(selections) + [SelectOrigen(g.p)]
      ensures !g.Fix? ==> center == old(center) && origin == old(origin) &&
                          originText == old(originText) && selections == old(selections)
      ensures destination == old(destination) && destinationText == old(destinationText)
      ensures directions == old(directions) && requests == old(requests)
    {
      if g.Fix? {
        TakeFix(g.p);
      }
    }

    method TakeFix(p: Point)
      requires Valid()
      modifies this
      ensures Valid()
      ensures center == p && origin == Some(p) && originText == Typed(MyLocationText)
      ensures selections == old(selections) + [SelectOrigen(p)]
      ensures destination == old(destination) && destinationText == old(destinationText)
      ensures directions == old(directions) && requests == old(requests)
    {
      center := p;
      origin := Some(p);
      originText := Typed(MyLocationText);
      selections := selections + [SelectOrigen(p)];
    }

    /** Typing in the origin box. */
    method SetOriginText(s: string)
      modifies this`originText
      ensures originText == Typed(s)
    {
      originText := Typed(s);
    }

    /** Typing in the destination box. */
    method SetDestinationText(s: string)
      modifies this`destinationText
      ensures destinationText == Typed(s)
    {
      destinationText := Typed(s);
    }
  }
}
