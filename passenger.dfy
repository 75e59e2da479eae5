/** The passenger's page `HomePasajero`: the trip record `viaje`, the offers
    list, the driver's marker, the proximity alert and the system message.
    Socket handlers and buttons are methods; what the page emits on the
    socket or posts to the history and review routes is appended to an output
    log. The user's email is fixed when the page is built. The random
    review mocks are a parameter, distances are not computed (a position
    report says whether it is within the page's 40 m threshold), and the
    fare is over exact reals from the kilometres the distance text gives. */
module Passenger {
  import opened Common
  import Presence
  import RouteMap
  import Historial
  import Reviews
  import Users

  datatype Estado =
    | Pendiente                        // "pendiente"
    | Buscando                         // "buscando"
    | EsperandoConductor               // "esperando_conductor"
    | EsperandoConfirmacionPasajero    // "esperando_confirmacion_pasajero"
    | ConductorEnCamino                // "conductor_en_camino"
    | ListoParaIniciar                 // "listo_para_iniciar"
    | ViajeEnProgreso                  // "viaje_en_progreso"
    | Finalizado                       // "finalizado"

  /** One element of the `ofertas` event: an available driver. */
  datatype Candidate = Candidate(id: Option<string>, nombre: Option<string>, email: Option<string>, modelo: Option<string>)

  /** The rating summary the page draws at random for each offer. */
  datatype ReviewSummary = ReviewSummary(promedio: real, ultimoComentario: string)

  /** One card of the offers list. */
  datatype Oferta = Oferta(
    id: Option<string>, nombre: Option<string>, email: Option<string>,
    rating: real, ultimoComentario: string, tiempo: string, modelo: string)

  /** The driver the trip names: an offer the passenger chose, or the
      `conductor` object of `viaje_confirmado` / `iniciar_recogida`. */
  datatype Conductor = Elegido(oferta: Oferta) | Anunciado(data: ConductorData)

  /** The page's `viaje` record. */
  datatype Viaje = Viaje(
    origen: Option<Point>, destino: Option<Point>,
    origenTexto: Option<string>, destinoTexto: Option<string>,
    distancia: string, duracion: string, directions: Option<Route>,
    estado: Estado, conductor: Option<Conductor>, progreso: int, idHistorial: Option<nat>)

  /** The record the page starts from and `resetViaje` restores. */
  const Inicial := Viaje(None, None, None, None, "", "", None, Pendiente, None, 0, None)

  /** Payload of `posicion_conductor`. */
  datatype Posicion = Posicion(pasajero: Option<string>, lat: real, lng: real, progreso: Option<int>)

  /** How the history POST ended: the request failed, or the route answered
      (with the saved row, or with an error body). */
  datatype PostResult = NetworkError | Answered(saved: Option<Historial.SaveReply>)

  /** What the page sends: socket events, and POSTs to the history and
      review routes. */
  datatype Output =
    | BuscarConductor(request: Presence.RideRequest)
    | BuscarTour(pasajero: string, origen: Option<Point>, destinos: seq<Point>,
                 preferenciaSexo: string, pasajeros: int)
    | ConductorAsignado(pasajero: string, origen: Option<Point>, destino: Option<Point>, conductor: Oferta)
    | ConductorAsignadoTour(pasajero: string, origen: Option<Point>, destinos: seq<Point>, conductor: Oferta)
    | CancelarConfirmacion(pasajero: string)
    | PasajeroEmergencia(pasajero: string, conductorEmail: Option<string>, ubicacion: Option<Point>)
    | GuardarHistorial(body: Historial.HistInput)
    | CrearReview(review: Reviews.ReviewInput)

  const EmergenciaEnviada := "⚠️ Emergencia enviada"
  const ConductorLlegoMensaje := "El conductor llegó 🚗"

  /** `viaje.conductor?.email`. */
  function ConductorEmail(c: Option<Conductor>): Option<string>
  {
    match c
    case None => None
    case Some(Elegido(o)) => o.email
    case Some(Anunciado(d)) => d.email
  }

  /** `calcularCosto`: no fare before a route is known; otherwise a base of
      25 plus 8.5 per kilometre. */
  function CalcularCosto(distancia: string, km: real): (c: real)
    ensures distancia == "" ==> c == 0.0
    ensures distancia != "" ==> 2.0 * (c - 25.0) == 17.0 * km
  {
    if distancia == "" then 0.0 else 25.0 + km * 8.5
  }

  /** A longer route never costs less, and any route costs at least the base. */
  lemma CostoMonotone(distancia: string, k1: real, k2: real)
    requires distancia != "" && 0.0 <= k1 <= k2
    ensures 25.0 <= CalcularCosto(distancia, k1) <= CalcularCosto(distancia, k2)
  {
  }

  /** One card for a candidate and the review drawn for it. */
  function Card(c: Candidate, rev: ReviewSummary): (o: Oferta)
    ensures o.id == c.id && o.nombre == c.nombre && o.email == c.email
    ensures o.rating == rev.promedio && o.ultimoComentario == rev.ultimoComentario && o.tiempo == "3 min"
    ensures Truthy(c.modelo) ==> o.modelo == c.modelo.value
    ensures !Truthy(c.modelo) ==> o.modelo == "Desconocido"
  {
    Oferta(c.id, c.nombre, c.email, rev.promedio, rev.ultimoComentario, "3 min", OrElse(c.modelo, "Desconocido"))
  }

  /** The offers list built from the `ofertas` event: `conductores.map`,
      where `draw(k)` is the review drawn for the `k`-th driver. */
  function Ofertas(cs: seq<Candidate>, draw: nat -> ReviewSummary): (r: seq<Oferta>)
    ensures |r| == |cs|
    ensures forall k :: 0 <= k < |cs| ==> r[k] == Card(cs[k], draw(k))
  {
    OfertasFrom(cs, draw, 0)
  }

  /** The cards for `cs`, the first of which is the driver numbered `start`. */
  function OfertasFrom(cs: seq<Candidate>, draw: nat -> ReviewSummary, start: nat): (r: seq<Oferta>)
    ensures |r| == |cs|
    ensures forall k :: 0 <= k < |cs| ==> r[k] == Card(cs[k], draw(start + k))
    decreases |cs|
  {
    if |cs| == 0 then []
    else [Card(cs[0], draw(start))] + OfertasFrom(cs[1..], draw, start + 1)
  }

  /** `handleSelect`: merge what the map reports into the trip record. The
      spread `{ ...prev, ...datos }` sets exactly the keys the report
      carries and keeps every other field. */
  function Select(v: Viaje, sel: RouteMap.Selection): (r: Viaje)
    ensures r.estado == v.estado && r.conductor == v.conductor && r.progreso == v.progreso
    ensures sel.SelectOrigen? ==> r == v.(origen := Some(sel.origen))
    ensures sel.SelectDestino? ==> r == v.(destino := Some(sel.destino))
    ensures sel.SelectNuevoOrigen? ==> r == v.(origen := Some(sel.origen), destino := None)
    ensures sel.SelectRuta? ==>
              r == v.(directions := Some(sel.directions), distancia := sel.distancia, duracion := sel.duracion)
  {
    match sel
    case SelectOrigen(p) => v.(origen := Some(p))
    case SelectDestino(p) => v.(destino := Some(p))
    case SelectNuevoOrigen(p) => v.(origen := Some(p), destino := None)
    case SelectRuta(d, dist, dur) => v.(directions := Some(d), distancia := dist, duracion := dur)
  }

  /** When the record's points mirror the map's, they still do after a click
      on the map and its report. */
  lemma ClickKeepsMirror(v: Viaje, s: RouteMap.Pick, p: Point)
    requires RouteMap.Consistent(s) && v.origen == s.origin && v.destino == s.destination
    ensures Select(v, RouteMap.Click(s, p).selection).origen == RouteMap.Click(s, p).next.origin
    ensures Select(v, RouteMap.Click(s, p).selection).destino == RouteMap.Click(s, p).next.destination
  {
  }

  /** The map's two other reports keep the record mirroring the map: a
      position fix (`TakeFix`) moves the origin of both and keeps both
      destinations; a route answer (`OnRouteResult`) leaves the points and
      gives both the same route. */
  lemma ReportsKeepMirror(v: Viaje, s: RouteMap.Pick, p: Point, d: Route, dist: string, dur: string)
    requires v.origen == s.origin && v.destino == s.destination
    ensures var f := Select(v, RouteMap.SelectOrigen(p));
            f.origen == Some(p) && f.destino == s.destination && f.directions == v.directions
    ensures var r := Select(v, RouteMap.SelectRuta(d, dist, dur));
            r.origen == s.origin && r.destino == s.destination && r.directions == Some(d) &&
            r.distancia == dist && r.duracion == dur
  {
  }

  /** The proximity check of `posicion_conductor`: a report within the
      threshold (`near`) of a known origin raises the alert when it is not
      already raised. */
  predicate RaisesAlert(origen: Option<Point>, near: bool, alerta: bool)
  {
    origen.Some? && near && !alerta
  }

  /** The handler sees the mount-time record, whose origin is null, so the
      check it makes never raises the alert; with the trip's origin known,
      a report within the threshold raises it. */
  lemma MountTimeNeverAlerts(origen: Option<Point>, near: bool)
    ensures !RaisesAlert(Inicial.origen, near, false)
    ensures origen.Some? && near ==> RaisesAlert(origen, near, false)
  {
  }

  /** The history body as `viaje_finalizado` builds it: the handler was
      registered when the page mounted, so it reads the mount-time record
      (no places, no driver, empty texts) and the mount-time fare (0). */
  function HistoryBodyAsWritten(pasajero: Option<string>): (b: Historial.HistInput)
    ensures b.pasajero == pasajero && b.estado == Some("finalizado")
    ensures b.conductor.None? && b.origen.None? && b.destino.None?
    ensures b.distancia == Some("") && b.duracion == Some("") && b.costo == Some(0.0)
  {
    HistoryBody(pasajero, Inicial, CalcularCosto(Inicial.distancia, 0.0))
  }

  /** The history body the handler evidently means to send: the finished
      trip's driver, distance, duration and fare. Its place texts are the
      trip's own, which the page never sets (the map reports points only). */
  function HistoryBody(pasajero: Option<string>, v: Viaje, costo: real): (b: Historial.HistInput)
    ensures b.pasajero == pasajero && b.estado == Some("finalizado")
    ensures b.conductor == ConductorEmail(v.conductor)
    ensures b.origen == v.origenTexto && b.destino == v.destinoTexto
    ensures b.distancia == Some(v.distancia) && b.duracion == Some(v.duracion) && b.costo == Some(costo)
  {
    Historial.HistInput(pasajero, ConductorEmail(v.conductor), v.origenTexto, v.destinoTexto,
                        Some(v.distancia), Some(v.duracion), Some(costo), Some("finalizado"), None, None)
  }

  /** The as-written body differs from the intended one for every trip
      with a known route: it records an empty distance and a fare of 0. */
  lemma StaleHistoryBody(pasajero: Option<string>, v: Viaje, km: real)
    requires v.distancia != "" && km >= 0.0
    ensures HistoryBodyAsWritten(pasajero) != HistoryBody(pasajero, v, CalcularCosto(v.distancia, km))
    ensures HistoryBodyAsWritten(pasajero).costo == Some(0.0)
    ensures HistoryBody(pasajero, v, CalcularCosto(v.distancia, km)).costo.value >= 25.0
  {
  }

  /** The history route stores the as-written body with empty place texts,
      no driver and a fare of 0, whatever the trip was. */
  lemma StoredAsWritten(pasajero: Option<string>, id: nat, now: int)
    ensures var r := Historial.NewRecord(id, HistoryBodyAsWritten(pasajero), now);
            r.origenTexto == "" && r.destinoTexto == "" && r.conductor.None? && r.costo == Some(0.0)
  {
  }

  /** `saved.id` as the handler reads it: the route replies
      `{ message, nuevo }`, so the top-level `id` is always absent. */
  function SavedIdAsWritten(saved: Option<Historial.SaveReply>): (id: Option<nat>)
    ensures id.None?
  {
    None
  }

  /** The id of the saved row, where the route actually puts it. */
  function SavedId(saved: Option<Historial.SaveReply>): (id: Option<nat>)
    ensures saved.Some? ==> id == Some(saved.value.nuevo.id)
    ensures saved.None? ==> id.None?
  {
    if saved.Some? then Some(saved.value.nuevo.id) else None
  }

  /** Reading `nuevo.id` recovers the id of the row `/guardar` stored; the
      as-written read never does. */
  lemma SavedIdRoundTrip(t: Historial.HistorialTable, body: Historial.HistInput, now: int)
    ensures SavedId(Some(Historial.Saved("Viaje guardado correctamente", Historial.NewRecord(t.nextId, body, now))))
         == Some(t.nextId)
    ensures SavedIdAsWritten(Some(Historial.Saved("Viaje guardado correctamente", Historial.NewRecord(t.nextId, body, now))))
         != Some(t.nextId)
  {
  }

  /** The review body `enviarReview` sends. */
  function ReviewBody(autor: string, v: Viaje, rating: Option<int>, comentario: string): (b: Reviews.ReviewInput)
    ensures b.autorId == Reviews.Text(autor) && b.viajeId == v.idHistorial
    ensures b.rating == rating && b.comentario == comentario
    ensures ConductorEmail(v.conductor).Some? ==> b.destinoId == Reviews.Text(ConductorEmail(v.conductor).value)
    ensures ConductorEmail(v.conductor).None? ==> b.destinoId == Reviews.Missing
  {
    Reviews.ReviewInput(
      Reviews.Text(autor),
      if ConductorEmail(v.conductor).Some? then Reviews.Text(ConductorEmail(v.conductor).value) else Reviews.Missing,
      v.idHistorial, rating, comentario)
  }

  /** The page sends emails where the review route expects numeric user
      ids, so the route refuses every review the page sends. */
  lemma PageReviewRefused(users: seq<Users.Usuario>, autor: string, v: Viaje, rating: Option<int>, comentario: string)
    ensures !Reviews.Accepted(users, ReviewBody(autor, v, rating, comentario))
  {
  }

  /** A decimal digit as a character. */
  function Digit(n: int): char
    requires 0 <= n <= 9
  {
    ('0' as int + n) as char
  }

  /** The value of a string of decimal digits. */
  function DecimalValue(s: string): nat
  {
    if |s| == 0 then 0
    else 10 * DecimalValue(s[..|s| - 1]) + (if '0' <= s[|s| - 1] <= '9' then s[|s| - 1] as int - '0' as int else 0)
  }

  /** `Number(s)` on the strings a `<select>` hands over: a string of
      decimal digits is its value (the empty string is 0), anything else is
      `NaN`, here `None`; `JSON.stringify` sends `NaN` as `null`. */
  function NumberOf(s: string): (r: Option<int>)
    ensures r.Some? <==> forall k :: 0 <= k < |s| ==> '0' <= s[k] <= '9'
    ensures r.Some? ==> r.value >= 0
  {
    if forall k :: 0 <= k < |s| ==> '0' <= s[k] <= '9' then Some(DecimalValue(s)) else None
  }

  /** The text of the rating option for `n`: `{n} estrellas`. The option has
      no `value`, so this text is what `e.target.value` yields. */
  function OptionText(n: int): string
    requires 1 <= n <= 5
  {
    [Digit(n)] + " estrellas"
  }

  /** Choosing any rating stores `NaN`: the option's text is not a number. */
  lemma RatingOptionIsNaN(n: int)
    requires 1 <= n <= 5
    ensures NumberOf(OptionText(n)).None?
  {
    assert OptionText(n)[1] == ' ';
  }

  /** With `value={n}` on each option, the chosen number comes back. */
  lemma RatingValueRoundTrip(n: int)
    requires 1 <= n <= 5
    ensures NumberOf([Digit(n)]) == Some(n)
  {
    var s := [Digit(n)];
    assert s[..|s| - 1] == [];
    assert s[|s| - 1] as int - '0' as int == n;
    assert DecimalValue(s) == n;
  }

  class HomePasajero {
    const userEmail: string
    var viaje: Viaje
    var ofertas: seq<Oferta>
    var posicionConductor: Option<Point>
    var alertaProximidad: bool
    var mensajeSistema: Option<string>
    var preferenciaSexo: string
    var pasajeros: int
    var mostrarReview: bool
    /** `None` is `NaN`. */
    var rating: Option<int>
    var comentario: string
    var modoTour: bool
    var destinosTour: seq<Point>
    /** Everything the page has sent, in order. */
    var out: seq<Output>

    /** What the page keeps true: `viaje_en_progreso` is rendered but never
        assigned; the map never reports place texts; the tour destination
        list is only ever set to empty. */
    ghost predicate Valid()
      reads this
    {
      && viaje.estado != ViajeEnProgreso
      && viaje.origenTexto.None? && viaje.destinoTexto.None?
      && destinosTour == []
    }

    constructor (userEmail: string)
      ensures Valid()
      ensures this.userEmail == userEmail && viaje == Inicial && ofertas == []
      ensures posicionConductor.None? && !alertaProximidad && mensajeSistema.None?
      ensures preferenciaSexo == "cualquiera" && pasajeros == 1
      ensures !mostrarReview && rating == Some(5) && comentario == ""
      ensures !modoTour && destinosTour == [] && out == []
    {
      this.userEmail := userEmail;
      viaje, ofertas := Inicial, [];
      posicionConductor, alertaProximidad, mensajeSistema := None, false, None;
      preferenciaSexo, pasajeros := "cualquiera", 1;
      mostrarReview, rating, comentario := false, Some(5), "";
      modoTour, destinosTour, out := false, [], [];
    }

    /** `resetViaje` (also the "Aceptar" button of a finished trip): the
        initial record, and no offers, marker, alert, message or tour. */
    method ResetViaje()
      requires Valid()
      modifies this`viaje, this`ofertas, this`posicionConductor, this`alertaProximidad,
               this`mensajeSistema, this`destinosTour, this`modoTour
      ensures Valid()
      ensures viaje == Inicial && ofertas == [] && posicionConductor.None?
      ensures !alertaProximidad && mensajeSistema.None? && destinosTour == [] && !modoTour
    {
      viaje := Inicial;
      ofertas := [];
      posicionConductor := None;
      alertaProximidad := false;
      mensajeSistema := None;
      destinosTour := [];
      modoTour := false;
    }

    /** `handleSelect`, the map's `onSelect`. */
    method HandleSelect(sel: RouteMap.Selection)
      requires Valid()
      modifies this`viaje
      ensures Valid()
      ensures viaje == Select(old(viaje), sel)
    {
      viaje := Select(viaje, sel);
    }

    /** `ofertas`: replace the offers list. */
    method OnOfertas(cs: seq<Candidate>, draw: nat -> ReviewSummary)
      modifies this`ofertas
      ensures ofertas == Ofertas(cs, draw)
    {
      ofertas := Ofertas(cs, draw);
    }

    /** `viaje_cancelado_emergencia`: the message it sets is cleared at once
        by the reset that follows. */
    method OnViajeCanceladoEmergencia()
      requires Valid()
      modifies this`viaje, this`ofertas, this`posicionConductor, this`alertaProximidad,
               this`mensajeSistema, this`destinosTour, this`modoTour
      ensures Valid()
      ensures viaje == Inicial && ofertas == [] && posicionConductor.None?
      ensures !alertaProximidad && mensajeSistema.None? && destinosTour == [] && !modoTour
    {
      mensajeSistema := Some("⚠️ Viaje cancelado por emergencia.");
      ResetViaje();
    }

    /** `alerta_emergencia`: show the message it carries. */
    method OnAlertaEmergencia(mensaje: Option<string>)
      modifies this`mensajeSistema
      ensures mensajeSistema == mensaje
    {
      mensajeSistema := mensaje;
    }

    /** `viaje_confirmado`: ignored unless addressed to this passenger; then
        the driver has accepted and the page asks for confirmation, taking
        driver, origin and destination from the event. */
    method OnViajeConfirmado(data: TripEvent)
      requires Valid()
      modifies this`viaje
      ensures Valid()
      ensures data.pasajero != Some(userEmail) ==> viaje == old(viaje)
      ensures data.pasajero == Some(userEmail) ==>
                viaje == old(viaje).(estado := EsperandoConfirmacionPasajero, conductor := Some(Anunciado(data.conductor)),
                                     origen := data.origen, destino := data.destino)
    {
      if data.pasajero != Some(userEmail) {
        return;
      }
      viaje := viaje.(estado := EsperandoConfirmacionPasajero, conductor := Some(Anunciado(data.conductor)),
                      origen := data.origen, destino := data.destino);
    }

    /** `iniciar_recogida`: ignored unless addressed to this passenger; then
        the driver is on the way. */
    method OnIniciarRecogida(data: TripEvent)
      requires Valid()
      modifies this`viaje
      ensures Valid()
      ensures data.pasajero != Some(userEmail) ==> viaje == old(viaje)
      ensures data.pasajero == Some(userEmail) ==>
                viaje == old(viaje).(estado := ConductorEnCamino, conductor := Some(Anunciado(data.conductor)))
    {
      if data.pasajero != Some(userEmail) {
        return;
      }
      viaje := viaje.(estado := ConductorEnCamino, conductor := Some(Anunciado(data.conductor)));
    }

    /** `conductor_llego`: ignored unless addressed to this passenger; then
        the passenger is told to board. */
    method OnConductorLlego(pasajero: Option<string>)
      requires Valid()
      modifies this`viaje, this`mensajeSistema
      ensures Valid()
      ensures pasajero != Some(userEmail) ==> viaje == old(viaje) && mensajeSistema == old(mensajeSistema)
      ensures pasajero == Some(userEmail) ==>
                viaje == old(viaje).(estado := ListoParaIniciar) && mensajeSistema == Some(ConductorLlegoMensaje)
    {
      if pasajero != Some(userEmail) {
        return;
      }
      viaje := viaje.(estado := ListoParaIniciar);
      mensajeSistema := Some(ConductorLlegoMensaje);
    }

    /** `viaje_finalizado` as the page has it: ignored unless addressed to
        this passenger; then post the mount-time history body and, once the
        route answers, mark the trip finished with no history id and open
        the review form. A failed request changes nothing. */
    method OnViajeFinalizadoAsWritten(pasajero: Option<string>, result: PostResult)
      requires Valid()
      modifies this`viaje, this`mostrarReview, this`out
      ensures Valid()
      ensures pasajero != Some(userEmail) ==>
                viaje == old(viaje) && mostrarReview == old(mostrarReview) && out == old(out)
      ensures pasajero == Some(userEmail) ==>
                out == old(out) + [GuardarHistorial(HistoryBodyAsWritten(pasajero))]
      ensures pasajero == Some(userEmail) && result.Answered? ==>
                viaje == old(viaje).(idHistorial := None, estado := Finalizado) && mostrarReview
      ensures result.NetworkError? ==> viaje == old(viaje) && mostrarReview == old(mostrarReview)
    {
      if pasajero != Some(userEmail) {
        return;
      }
      out := out + [GuardarHistorial(HistoryBodyAsWritten(pasajero))];
      if result.Answered? {
        viaje := viaje.(idHistorial := SavedIdAsWritten(result.saved), estado := Finalizado);
        mostrarReview := true;
      }
    }

    /** `viaje_finalizado` as intended: post the finished trip's own body
        (`km` is the distance text's kilometres) and keep the id of the
        saved row. */
    method OnViajeFinalizado(pasajero: Option<string>, km: real, result: PostResult)
      requires Valid()
      modifies this`viaje, this`mostrarReview, this`out
      ensures Valid()
      ensures pasajero != Some(userEmail) ==>
                viaje == old(viaje) && mostrarReview == old(mostrarReview) && out == old(out)
      ensures pasajero == Some(userEmail) ==>
                out == old(out) + [GuardarHistorial(HistoryBody(pasajero, old(viaje), CalcularCosto(old(viaje).distancia, km)))]
      ensures pasajero == Some(userEmail) && result.Answered? ==>
                viaje == old(viaje).(idHistorial := SavedId(result.saved), estado := Finalizado) && mostrarReview
      ensures result.NetworkError? ==> viaje == old(viaje) && mostrarReview == old(mostrarReview)
    {
      if pasajero != Some(userEmail) {
        return;
      }
      out := out + [GuardarHistorial(HistoryBody(pasajero, viaje, CalcularCosto(viaje.distancia, km)))];
      if result.Answered? {
        viaje := viaje.(idHistorial := SavedId(result.saved), estado := Finalizado);
        mostrarReview := true;
      }
    }

    /** `posicion_conductor` as the page has it: every report, whoever it is
        for, moves the driver's marker, and a report with a percentage
        replaces the progress. The proximity check reads the mount-time
        record, whose origin is null, so the alert never changes. */
    method OnPosicionConductorAsWritten(data: Posicion, near: bool)
      requires Valid()
      modifies this`posicionConductor, this`viaje, this`alertaProximidad
      ensures Valid()
      ensures posicionConductor == Some(Point(data.lat, data.lng))
      ensures data.progreso.Some? ==> viaje == old(viaje).(progreso := data.progreso.value)
      ensures data.progreso.None? ==> viaje == old(viaje)
      ensures alertaProximidad == old(alertaProximidad)
    {
      posicionConductor := Some(Point(data.lat, data.lng));
      if data.progreso.Some? {
        viaje := viaje.(progreso := data.progreso.value);
      }
      alertaProximidad := alertaProximidad || RaisesAlert(Inicial.origen, near, alertaProximidad);
    }

    /** `posicion_conductor` as intended: the same, and a report within the
        threshold of the trip's current origin raises the alert, which then
        stays raised until a reset. */
    method OnPosicionConductor(data: Posicion, near: bool)
      requires Valid()
      modifies this`posicionConductor, this`viaje, this`alertaProximidad
      ensures Valid()
      ensures posicionConductor == Some(Point(data.lat, data.lng))
      ensures data.progreso.Some? ==> viaje == old(viaje).(progreso := data.progreso.value)
      ensures data.progreso.None? ==> viaje == old(viaje)
      ensures alertaProximidad == (old(alertaProximidad) || (old(viaje).origen.Some? && near))
    {
      var origen := viaje.origen;
      posicionConductor := Some(Point(data.lat, data.lng));
      if data.progreso.Some? {
        viaje := viaje.(progreso := data.progreso.value);
      }
      alertaProximidad := alertaProximidad || RaisesAlert(origen, near, alertaProximidad);
    }

    /** "Solicitar viaje" / "Solicitar tour": nothing without an origin;
        otherwise search, clear the offers and send one request (`km` is
        the distance text's kilometres). */
    method SolicitarViaje(km: real)
      requires Valid()
      modifies this`viaje, this`ofertas, this`out
      ensures Valid()
      ensures old(viaje).origen.None? ==> viaje == old(viaje) && ofertas == old(ofertas) && out == old(out)
      ensures old(viaje).origen.Some? ==> viaje == old(viaje).(estado := Buscando) && ofertas == []
      ensures old(viaje).origen.Some? && modoTour ==>
                out == old(out) + [BuscarTour(userEmail, old(viaje).origen, destinosTour, preferenciaSexo, pasajeros)]
      ensures old(viaje).origen.Some? && !modoTour ==>
                var v := old(viaje);
                out == old(out) + [BuscarConductor(Presence.RideRequest(
                         userEmail, v.origen, v.destino, v.distancia, v.duracion, v.origenTexto, v.destinoTexto,
                         CalcularCosto(v.distancia, km), preferenciaSexo, pasajeros))]
    {
      if viaje.origen.None? {
        return;
      }
      var v := viaje;
      viaje := viaje.(estado := Buscando);
      ofertas := [];
      if modoTour {
        out := out + [BuscarTour(userEmail, v.origen, destinosTour, preferenciaSexo, pasajeros)];
        return;
      }
      out := out + [BuscarConductor(Presence.RideRequest(
               userEmail, v.origen, v.destino, v.distancia, v.duracion, v.origenTexto, v.destinoTexto,
               CalcularCosto(v.distancia, km), preferenciaSexo, pasajeros))];
    }

    /** "Cancelar búsqueda": back to `pendiente` with no offers; the chosen
        places stay. */
    method CancelarBusqueda()
      requires Valid()
      modifies this`viaje, this`ofertas
      ensures Valid()
      ensures viaje == old(viaje).(estado := Pendiente) && ofertas == []
    {
      viaje := viaje.(estado := Pendiente);
      ofertas := [];
    }

    /** "Aceptar" on an offer: wait for that driver, clear the offers and
        send exactly one assignment. */
    method AceptarOferta(c: Oferta)
      requires Valid()
      modifies this`viaje, this`ofertas, this`out
      ensures Valid()
      ensures viaje == old(viaje).(estado := EsperandoConductor, conductor := Some(Elegido(c))) && ofertas == []
      ensures modoTour ==>
                out == old(out) + [ConductorAsignadoTour(userEmail, old(viaje).origen, destinosTour, c)]
      ensures !modoTour ==>
                out == old(out) + [ConductorAsignado(userEmail, old(viaje).origen, old(viaje).destino, c)]
    {
      var v := viaje;
      viaje := viaje.(estado := EsperandoConductor, conductor := Some(Elegido(c)));
      ofertas := [];
      if modoTour {
        out := out + [ConductorAsignadoTour(userEmail, v.origen, destinosTour, c)];
      } else {
        out := out + [ConductorAsignado(userEmail, v.origen, v.destino, c)];
      }
    }

    /** "Cancelar" while waiting: tell the server, then reset. */
    method CancelarConfirmacionAction()
      requires Valid()
      modifies this`viaje, this`ofertas, this`posicionConductor, this`alertaProximidad,
               this`mensajeSistema, this`destinosTour, this`modoTour, this`out
      ensures Valid()
      ensures out == old(out) + [CancelarConfirmacion(userEmail)]
      ensures viaje == Inicial && ofertas == [] && posicionConductor.None?
      ensures !alertaProximidad && mensajeSistema.None? && destinosTour == [] && !modoTour
    {
      out := out + [CancelarConfirmacion(userEmail)];
      ResetViaje();
    }

    /** The emergency button: report the driver and the origin, reset, and
        say that the alert was sent. */
    method Emergencia()
      requires Valid()
      modifies this`viaje, this`ofertas, this`posicionConductor, this`alertaProximidad,
               this`mensajeSistema, this`destinosTour, this`modoTour, this`out
      ensures Valid()
      ensures out == old(out) + [PasajeroEmergencia(userEmail, ConductorEmail(old(viaje).conductor), old(viaje).origen)]
      ensures viaje == Inicial && ofertas == [] && posicionConductor.None?
      ensures !alertaProximidad && mensajeSistema == Some(EmergenciaEnviada) && destinosTour == [] && !modoTour
    {
      out := out + [PasajeroEmergencia(userEmail, ConductorEmail(viaje.conductor), viaje.origen)];
      ResetViaje();
      mensajeSistema := Some(EmergenciaEnviada);
    }

    /** "Enviar Reseña": post the review; once the request completes (`sent`),
        whatever the route answered, close the form. */
    method EnviarReview(sent: bool)
      modifies this`mostrarReview, this`out
      ensures out == old(out) + [CrearReview(ReviewBody(userEmail, viaje, rating, comentario))]
      ensures sent ==> !mostrarReview
      ensures !sent ==> mostrarReview == old(mostrarReview)
    {
      out := out + [CrearReview(ReviewBody(userEmail, viaje, rating, comentario))];
      if sent {
        mostrarReview := false;
      }
    }

    /** The tour checkbox: switching it also empties the tour's destinations. */
    method SetModoTour(b: bool)
      requires Valid()
      modifies this`modoTour, this`destinosTour
      ensures Valid() && modoTour == b && destinosTour == []
    {
      modoTour := b;
      destinosTour := [];
    }

    method SetPreferenciaSexo(s: string)
      modifies this`preferenciaSexo
      ensures preferenciaSexo == s
    {
      preferenciaSexo := s;
    }

    method SetPasajeros(n: int)
      modifies this`pasajeros
      ensures pasajeros == n
    {
      pasajeros := n;
    }

    /** The rating selector as written: `Number(e.target.value)` of the
        chosen option's text, which is `NaN` for every choice. */
    method SetRatingAsWritten(n: int)
      requires 1 <= n <= 5
      modifies this`rating
      ensures rating == NumberOf(OptionText(n)) && rating.None?
    {
      RatingOptionIsNaN(n);
      rating := NumberOf(OptionText(n));
    }

    /** The rating selector with each option's `value` set to its number:
        the chosen number is stored. */
    method SetRating(n: int)
      requires 1 <= n <= 5
      modifies this`rating
      ensures rating == NumberOf([Digit(n)]) && rating == Some(n)
    {
      RatingValueRoundTrip(n);
      rating := NumberOf([Digit(n)]);
    }

    method SetComentario(c: string)
      modifies this`comentario
      ensures comentario == c
    {
      comentario := c;
    }
  }
}
