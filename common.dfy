/** Values shared by the client and server models: optional values, map
    coordinates, routes, and the payloads of the trip socket events. */
module Common {

  datatype Option<+T> = None | Some(value: T)

  /** A map coordinate `{ lat, lng }`. */
  datatype Point = Point(lat: real, lng: real)

  /** A routing result; only its overview path is used by the clients. */
  datatype Route = Route(path: seq<Point>)

  /** JavaScript truthiness of an optional string: `null`, `undefined`
      and `""` are falsy. */
  predicate Truthy(s: Option<string>)
  {
    s.Some? && s.value != ""
  }

  /** `a || b` on optional strings. */
  function OrElse(s: Option<string>, fallback: string): (r: string)
    ensures Truthy(s) ==> r == s.value
    ensures !Truthy(s) ==> r == fallback
  {
    if Truthy(s) then s.value else fallback
  }

  /** The `conductor` object carried by `viaje_confirmado` and
      `iniciar_recogida`; its `id` is the driver's email. */
  datatype ConductorData = ConductorData(id: string, nombre: Option<string>, email: Option<string>)

  /** Payload of `viaje_confirmado` and `iniciar_recogida`, as both clients read it. */
  datatype TripEvent = TripEvent(
    pasajero: Option<string>,
    conductor: ConductorData,
    origen: Option<Point>,
    destino: Option<Point>)
}
