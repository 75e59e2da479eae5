/** The driver's page `HomeConductor`: the trip record `viaje`, the pending
    request `solicitud`, the commission `wallet`, and the two timers the page
    keeps in refs (the simulation interval and the GPS watch). Socket
    handlers, buttons, timer ticks and position fixes are methods; what the
    page emits on the socket or posts to the wallet route is appended to an
    output log. The user's email and the stored gender tag are fixed when the
    page is built. Distances are not computed: a position fix says whether it
    is within the page's 30 m threshold. The directions service's answer to
    a route request is passed to the method that makes the request. */
module Driver {
  import opened Common
  import Presence
  import Wallet

  datatype Estado =
    | Pendiente                        // "pendiente"
    | SolicitudPendiente               // "solicitud_pendiente"
    | TourEnProgreso                   // "tour_en_progreso"
    | EsperandoConfirmacion            // "esperando_confirmacion"
    | EsperandoConfirmacionConductor   // "esperando_confirmacion_conductor"
    | ConductorEnCaminoReal            // "conductor_en_camino_real"
    | ConductorEnCamino                // "conductor_en_camino"
    | ListoParaIniciar                 // "listo_para_iniciar"
    | ViajeEnProgresoReal              // "viaje_en_progreso_real"
    | ViajeEnProgreso                  // "viaje_en_progreso"
    | ViajeFinalizado                  // "viaje_finalizado"

  datatype Tipo = Normal | Tour

  /** The page's `viaje` record. */
  datatype Viaje = Viaje(
    directions: Option<Route>, estado: Estado, pasajero: Option<string>,
    origen: Option<Point>, destino: Option<Point>, progreso: int, tipo: Tipo)

  /** The record the page starts from and every reset restores. */
  const Inicial := Viaje(None, Pendiente, None, None, None, 0, Normal)

  /** The passenger rating the page draws at random for each request. */
  datatype ReviewSummary = ReviewSummary(promedio: real, ultimoComentario: string)

  /** The fixed tour quote of `simularResumenTour`. */
  const TourPrecio: real := 850.0
  const TourHoras: int := 5
  const TourNota := "Ruta turística por cascadas, miradores y zona centro."

  /** The event names the page subscribes to. */
  const Subscribed: set<string> :=
    {"nuevo_viaje_disponible", "viaje_confirmado", "iniciar_recogida", "viaje_cancelado_emergencia"}

  /** Payload of `nuevo_viaje_disponible`. */
  datatype Offer = Offer(
    tipoSolicitud: Option<string>, pasajero: Option<string>,
    origen: Option<Point>, destino: Option<Point>,
    origenTexto: Option<string>, destinoTexto: Option<string>, costo: Option<real>)

  /** The page's `solicitud`: the request's fields plus what the page adds.
      `tipo` is `None` when the record was made by spreading a
      `viaje_confirmado` payload over no request. */
  datatype Solicitud = Solicitud(
    tipo: Option<Tipo>, pasajero: Option<string>,
    origen: Option<Point>, destino: Option<Point>,
    origenTexto: Option<string>, destinoTexto: Option<string>, costo: Option<real>,
    tourPrecio: Option<real>, tourHoras: Option<int>, tourNota: Option<string>,
    review: ReviewSummary)

  /** Which leg a timer drives: towards the passenger or to the destination. */
  datatype Leg = Recogida | Destino

  /** A running simulation interval: the route it walks, the closure's
      counter `i`, and the passenger it reports to. */
  datatype Sim = Sim(leg: Leg, path: seq<Point>, i: nat, pasajero: Option<string>)

  /** A running GPS watch and the passenger it reports to. */
  datatype Watch = Watch(leg: Leg, pasajero: Option<string>)

  /** What the page sends: socket events, and POSTs to `/wallet/sumar/:email`. */
  datatype Output =
    | ConductorActivo(info: Presence.DriverInfo)
    | AceptaTour(conductor: string, pasajero: Option<string>)
    | AceptaViaje(conductor: string, nombre: string, desde: Option<Point>,
                  pasajero: Option<string>, origen: Option<Point>, destino: Option<Point>)
    | CancelarConfirmacion(conductor: string, pasajero: Option<string>)
    | PosicionConductor(pasajero: Option<string>, posicion: Point, progreso: Option<int>)
    | ConductorLlego(pasajero: Option<string>)
    | ViajeFinalizadoEvent(pasajero: Option<string>, conductor: string)
    | WalletSumar(email: string, monto: real)

  /** `((i / n) * 100).toFixed(0)`: the percentage of the route walked
      before point `i`, rounded to the nearest integer, halves up. */
  function Percent(i: nat, n: nat): (p: int)
    requires i <= n && n > 0
    ensures 0 <= p <= 100
    ensures 2 * n * p - n <= 200 * i < 2 * n * p + n
  {
    var q := (200 * i + n) / (2 * n);
    DivBounds(200 * i + n, 2 * n);
    RoundedAtMostHundred(i, n, q);
    q
  }

  lemma DivBounds(a: nat, b: nat)
    requires b > 0
    ensures b * (a / b) <= a < b * (a / b) + b
  {
  }

  lemma RoundedAtMostHundred(i: nat, n: nat, q: int)
    requires i <= n && n > 0
    requires 2 * n * q <= 200 * i + n
    ensures q <= 100
  {
    if q > 100 {
      ScaleAtLeastOne(2 * n, q - 100);
    }
  }

  /** `k * d >= k` for a positive `d`. */
  lemma ScaleAtLeastOne(k: nat, d: int)
    requires d >= 1
    ensures k * d >= k
  {
    assert k * d == k + k * (d - 1);
  }

  /** The published progress never decreases as the counter advances. */
  lemma PercentMonotone(i: nat, j: nat, n: nat)
    requires i <= j <= n && n > 0
    ensures Percent(i, n) <= Percent(j, n)
  {
    var p, q := Percent(i, n), Percent(j, n);
    if p > q {
      ScaleAtLeastOne(2 * n, p - q);
    }
  }

  /** The first tick of a leg publishes 0. The last tick that publishes is
      the one at point `n - 1`: the tick after it only stops the timer, so
      100 is shown only when that value rounds up to it, which takes a
      route of at least 200 points. A two-point route ends at 50. */
  lemma PercentEnds(n: nat)
    requires n > 0
    ensures Percent(0, n) == 0
    ensures Percent(n - 1, n) == 100 <==> n >= 200
    ensures n == 2 ==> Percent(1, 2) == 50
  {
    var p := Percent(0, n);
    if p > 0 {
      ScaleAtLeastOne(2 * n, p);
    }
    LastPercent(n);
  }

  lemma LastPercent(n: nat)
    requires n > 0
    ensures Percent(n - 1, n) == 100 <==> n >= 200
  {
    var q := Percent(n - 1, n);
    if q < 100 {
      ScaleAtLeastOne(2 * n, 100 - q);
      assert 2 * n * q <= 200 * n - 2 * n;
    }
  }

  /** The fare a commission is taken from: `solicitud?.costo || 50`. */
  function Fare(s: Option<Solicitud>): (f: real)
    ensures s.Some? && s.value.costo.Some? && s.value.costo.value != 0.0 ==> f == s.value.costo.value
    ensures s.None? || s.value.costo.None? || s.value.costo == Some(0.0) ==> f == 50.0
  {
    if s.Some? && s.value.costo.Some? && s.value.costo.value != 0.0 then s.value.costo.value else 50.0
  }

  /** The platform's cut of a fare: 15 %. */
  function Commission(fare: real): (c: real)
    ensures 100.0 * c == 15.0 * fare
  {
    fare * 0.15
  }

  /** A fare of 100 earns 15; a request without a fare, or with a fare of
      0 (falsy in `||`), earns the commission on the default fare of 50. */
  lemma CommissionCases(s: Solicitud)
    ensures s.costo == Some(100.0) ==> Commission(Fare(Some(s))) == 15.0
    ensures s.costo.None? || s.costo == Some(0.0) ==> Commission(Fare(Some(s))) == 7.5
    ensures Commission(Fare(None)) == 7.5
  {
  }

  /** The request the page records for an offer (`setSolicitud`). */
  function OfferSolicitud(data: Offer, review: ReviewSummary): (s: Solicitud)
    ensures s.pasajero == data.pasajero && s.origen == data.origen && s.destino == data.destino
    ensures s.costo == data.costo && s.review == review
    ensures data.tipoSolicitud == Some("tour") ==>
              s.tipo == Some(Tour) && s.tourPrecio == Some(TourPrecio) &&
              s.tourHoras == Some(TourHoras) && s.tourNota == Some(TourNota)
    ensures data.tipoSolicitud != Some("tour") ==>
              s.tipo == Some(Normal) && s.tourPrecio.None? && s.tourHoras.None? && s.tourNota.None?
  {
    if data.tipoSolicitud == Some("tour") then
      Solicitud(Some(Tour), data.pasajero, data.origen, data.destino, data.origenTexto, data.destinoTexto,
                data.costo, Some(TourPrecio), Some(TourHoras), Some(TourNota), review)
    else
      Solicitud(Some(Normal), data.pasajero, data.origen, data.destino, data.origenTexto, data.destinoTexto,
                data.costo, None, None, None, review)
  }

  /** `setSolicitud(s => ({ ...s, ...data }))` for a `viaje_confirmado`
      payload: its passenger and places replace the request's; over no
      request the record holds only those. */
  function Merge(s: Option<Solicitud>, data: TripEvent, blank: ReviewSummary): (r: Solicitud)
    ensures r.pasajero == data.pasajero && r.origen == data.origen && r.destino == data.destino
    ensures s.Some? ==> r == s.value.(pasajero := data.pasajero, origen := data.origen, destino := data.destino)
    ensures s.None? ==> r.tipo.None? && r.costo.None? && r.tourPrecio.None?
  {
    match s
    case Some(x) => x.(pasajero := data.pasajero, origen := data.origen, destino := data.destino)
    case None => Solicitud(None, data.pasajero, data.origen, data.destino, None, None, None, None, None, None, blank)
  }

  /** The server fans requests out under a name this page does not listen to. */
  lemma ServerOfferNotSubscribed()
    ensures Presence.NuevoViajeEvent !in Subscribed
  {
  }

  class HomeConductor {
    const userEmail: string
    /** `localStorage.getItem("sexo") || "hombre"`. */
    const sexo: string
    var activo: bool
    var aceptaTours: bool
    var capacidad: int
    var modoDemo: bool
    var posicionConductor: Option<Point>
    var wallet: real
    var viaje: Viaje
    var solicitud: Option<Solicitud>
    /** `intervaloRef`. */
    var sim: Option<Sim>
    /** `watchIdRef`. */
    var watch: Option<Watch>
    /** Everything the page has sent, in order. */
    var out: seq<Output>

    ghost predicate Valid()
      reads this
    {
      && 0 <= viaje.progreso <= 100
      && (sim.Some? ==>
            && sim.value.i <= |sim.value.path|
            && (sim.value.i < |sim.value.path| ==> viaje.progreso <= Percent(sim.value.i, |sim.value.path|)))
      && (solicitud.Some? && solicitud.value.tipo == Some(Tour) ==>
            solicitud.value.tourPrecio == Some(TourPrecio) && viaje.tipo == Tour)
      && (viaje.estado == TourEnProgreso ==> solicitud.Some? && solicitud.value.tipo == Some(Tour))
    }

    constructor (userEmail: string, sexoGuardado: Option<string>)
      ensures Valid()
      ensures this.userEmail == userEmail && sexo == OrElse(sexoGuardado, "hombre")
      ensures !activo && !aceptaTours && capacidad == 4 && !modoDemo
      ensures posicionConductor.None? && wallet == 0.0
      ensures viaje == Inicial && solicitud.None? && sim.None? && watch.None? && out == []
    {
      this.userEmail := userEmail;
      sexo := OrElse(sexoGuardado, "hombre");
      activo, aceptaTours, capacidad, modoDemo := false, false, 4, false;
      posicionConductor, wallet := None, 0.0;
      viaje, solicitud, sim, watch, out := Inicial, None, None, None, [];
    }

    /** The presence payload for a position fix. */
    function PresenceOf(p: Point): (info: Presence.DriverInfo)
      reads this
      ensures info.email == Some(userEmail) && info.nombre == Some(userEmail)
      ensures info.lat == p.lat && info.lng == p.lng
      ensures info.capacidad == capacidad && info.sexo == sexo && info.aceptaTours == aceptaTours
    {
      Presence.DriverInfo(Some(userEmail), Some(userEmail), p.lat, p.lng, capacidad, sexo, aceptaTours)
    }

    /** The socket effect, run whenever `activo`, `capacidad`, `modoDemo` or
        `aceptaTours` changes: an active driver announces the position fix
        (if the browser gives one); an inactive one stops both timers. */
    method Announce(fix: Option<Point>)
      requires Valid()
      modifies this`posicionConductor, this`out, this`sim, this`watch
      ensures Valid()
      ensures activo && fix.Some? ==>
                out == old(out) + [ConductorActivo(PresenceOf(fix.value))] && posicionConductor == fix &&
                sim == old(sim) && watch == old(watch)
      ensures activo && fix.None? ==>
                out == old(out) && posicionConductor == old(posicionConductor) &&
                sim == old(sim) && watch == old(watch)
      ensures !activo ==>
                sim.None? && watch.None? && out == old(out) && posicionConductor == old(posicionConductor)
    {
      if activo {
        if fix.Some? {
          out := out + [ConductorActivo(PresenceOf(fix.value))];
          posicionConductor := fix;
        }
      } else {
        sim, watch := None, None;
      }
    }

    /** "Recibir Viajes". */
    method RecibirViajes(fix: Option<Point>)
      requires Valid()
      modifies this`activo, this`posicionConductor, this`out, this`sim, this`watch
      ensures Valid() && activo
      ensures !old(activo) && fix.Some? ==>
                out == old(out) + [ConductorActivo(PresenceOf(fix.value))] && posicionConductor == fix
      ensures old(activo) || fix.None? ==> out == old(out) && posicionConductor == old(posicionConductor)
      ensures sim == old(sim) && watch == old(watch)
    {
      if !activo {
        activo := true;
        Announce(fix);
      }
    }

    /** "Detener": stop both timers and go inactive. The server keeps the
        presence entry until the socket disconnects. */
    method Detener()
      requires Valid()
      modifies this`activo, this`sim, this`watch
      ensures Valid() && !activo && sim.None? && watch.None?
    {
      sim, watch := None, None;
      activo := false;
    }

    /** The "Modo demo" checkbox: stop both timers, then re-run the effect. */
    method SetModoDemo(b: bool, fix: Option<Point>)
      requires Valid()
      modifies this`modoDemo, this`posicionConductor, this`out, this`sim, this`watch
      ensures Valid() && modoDemo == b && sim.None? && watch.None?
      ensures activo && b != old(modoDemo) && fix.Some? ==>
                out == old(out) + [ConductorActivo(PresenceOf(fix.value))] && posicionConductor == fix
      ensures !activo || b == old(modoDemo) || fix.None? ==>
                out == old(out) && posicionConductor == old(posicionConductor)
    {
      sim, watch := None, None;
      if b != modoDemo {
        modoDemo := b;
        Announce(fix);
      }
    }

    /** The capacity selector. */
    method SetCapacidad(c: int, fix: Option<Point>)
      requires Valid()
      modifies this`capacidad, this`posicionConductor, this`out, this`sim, this`watch
      ensures Valid() && capacidad == c
      ensures activo && c != old(capacidad) && fix.Some? ==>
                out == old(out) + [ConductorActivo(PresenceOf(fix.value))] && posicionConductor == fix
      ensures !activo || c == old(capacidad) || fix.None? ==>
                out == old(out) && posicionConductor == old(posicionConductor)
      ensures activo || c == old(capacidad) ==> sim == old(sim) && watch == old(watch)
      ensures !activo && c != old(capacidad) ==> sim.None? && watch.None?
    {
      if c != capacidad {
        capacidad := c;
        Announce(fix);
      }
    }

    /** The "Aceptar tours" checkbox. */
    method SetAceptaTours(b: bool, fix: Option<Point>)
      requires Valid()
      modifies this`aceptaTours, this`posicionConductor, this`out, this`sim, this`watch
      ensures Valid() && aceptaTours == b
      ensures activo && b != old(aceptaTours) && fix.Some? ==>
                out == old(out) + [ConductorActivo(PresenceOf(fix.value))] && posicionConductor == fix
      ensures !activo || b == old(aceptaTours) || fix.None? ==>
                out == old(out) && posicionConductor == old(posicionConductor)
      ensures activo || b == old(aceptaTours) ==> sim == old(sim) && watch == old(watch)
      ensures !activo && b != old(aceptaTours) ==> sim.None? && watch.None?
    {
      if b != aceptaTours {
        aceptaTours := b;
        Announce(fix);
      }
    }

    /** The answer to the wallet GET made when the page mounts (`None` when
        the request itself fails): `d.balance || 0`. */
    method WalletCargado(reply: Option<Wallet.WalletReply>)
      modifies this`wallet
      ensures reply.Some? && reply.value.Balance? ==> wallet == reply.value.balance
      ensures reply.Some? && reply.value.Failure? ==> wallet == 0.0
      ensures reply.None? ==> wallet == old(wallet)
    {
      if reply.Some? {
        wallet := if reply.value.Balance? then reply.value.balance else 0.0;
      }
    }

    /** `nuevo_viaje_disponible`: record the request and show it. A tour
        request marks the trip as a tour and names the passenger; a normal
        one names the passenger and copies origin and destination. */
    method NuevoViajeDisponible(data: Offer, review: ReviewSummary)
      requires Valid()
      modifies this`solicitud, this`viaje
      ensures Valid()
      ensures solicitud == Some(OfferSolicitud(data, review))
      ensures data.tipoSolicitud == Some("tour") ==>
                viaje == old(viaje).(tipo := Tour, estado := SolicitudPendiente, pasajero := data.pasajero)
      ensures data.tipoSolicitud != Some("tour") ==>
                viaje == old(viaje).(estado := SolicitudPendiente, pasajero := data.pasajero,
                                     origen := data.origen, destino := data.destino)
    {
      solicitud := Some(OfferSolicitud(data, review));
      if data.tipoSolicitud == Some("tour") {
        viaje := viaje.(tipo := Tour, estado := SolicitudPendiente, pasajero := data.pasajero);
      } else {
        viaje := viaje.(estado := SolicitudPendiente, pasajero := data.pasajero,
                        origen := data.origen, destino := data.destino);
      }
    }

    /** `viaje_confirmado`: ignored unless addressed to this driver; then
        wait for this driver's own confirmation, copying passenger and
        places into the trip and into the request. `blank` is the review
        field of a request made from nothing (it is never shown). */
    method ViajeConfirmado(data: TripEvent, blank: ReviewSummary)
      requires Valid()
      modifies this`viaje, this`solicitud
      ensures Valid()
      ensures data.conductor.id != userEmail ==> viaje == old(viaje) && solicitud == old(solicitud)
      ensures data.conductor.id == userEmail ==>
                viaje == old(viaje).(estado := EsperandoConfirmacionConductor, pasajero := data.pasajero,
                                     origen := data.origen, destino := data.destino) &&
                solicitud == Some(Merge(old(solicitud), data, blank))
    {
      if data.conductor.id != userEmail {
        return;
      }
      viaje := viaje.(estado := EsperandoConfirmacionConductor, pasajero := data.pasajero,
                      origen := data.origen, destino := data.destino);
      solicitud := Some(Merge(solicitud, data, blank));
    }

    /** `iniciar_recogida`: ignored unless addressed to this driver; then
        copy passenger and places and start the pickup leg, simulated in
        demo mode (`routeOk`/`path` are the directions service's answer)
        and by GPS otherwise. */
    method IniciarRecogida(data: TripEvent, routeOk: bool, path: seq<Point>)
      requires Valid()
      modifies this`viaje, this`sim, this`watch
      ensures Valid()
      ensures data.conductor.id != userEmail ==>
                viaje == old(viaje) && sim == old(sim) && watch == old(watch)
      ensures data.conductor.id == userEmail ==>
                var v := old(viaje).(pasajero := data.pasajero, origen := data.origen, destino := data.destino);
                if !modoDemo then
                  viaje == v.(estado := ConductorEnCaminoReal, progreso := 0) &&
                  sim.None? && watch == Some(Watch(Recogida, data.pasajero))
                else if routeOk then
                  viaje == v.(directions := Some(Route(path)), estado := ConductorEnCamino, progreso := 0) &&
                  sim == Some(Sim(Recogida, path, 0, data.pasajero)) && watch.None?
                else
                  viaje == v && sim.None? && watch.None?
    {
      if data.conductor.id != userEmail {
        return;
      }
      viaje := viaje.(pasajero := data.pasajero, origen := data.origen, destino := data.destino);
      sim, watch := None, None;
      if !modoDemo {
        viaje := viaje.(estado := ConductorEnCaminoReal, progreso := 0);
        watch := Some(Watch(Recogida, data.pasajero));
      } else if routeOk {
        viaje := viaje.(directions := Some(Route(path)), estado := ConductorEnCamino, progreso := 0);
        sim := Some(Sim(Recogida, path, 0, data.pasajero));
      }
    }

    /** `viaje_cancelado_emergencia`: stop both timers, drop the request
        and restore the initial trip. */
    method ViajeCanceladoEmergencia()
      requires Valid()
      modifies this`viaje, this`solicitud, this`sim, this`watch
      ensures Valid()
      ensures viaje == Inicial && solicitud.None? && sim.None? && watch.None?
    {
      sim, watch := None, None;
      solicitud := None;
      viaje := Inicial;
    }

    /** One tick of the simulation interval. Before the end of the route it
        moves the marker to point `i`, publishes the rounded percentage and
        advances `i`; at the end it stops and marks arrival: at the
        passenger (and says so once with `conductor_llego`) or at the
        destination (and says so once with `viaje_finalizado`). */
    method Tick()
      requires Valid()
      modifies this`sim, this`viaje, this`posicionConductor, this`out
      ensures Valid()
      ensures old(sim).None? ==>
                sim == old(sim) && viaje == old(viaje) &&
                posicionConductor == old(posicionConductor) && out == old(out)
      ensures old(sim).Some? && old(sim).value.i < |old(sim).value.path| ==>
                var s := old(sim).value;
                var pct := Percent(s.i, |s.path|);
                sim == Some(s.(i := s.i + 1)) &&
                posicionConductor == Some(s.path[s.i]) &&
                viaje == old(viaje).(progreso := pct) &&
                out == old(out) + [PosicionConductor(s.pasajero, s.path[s.i], Some(pct))] &&
                old(viaje.progreso) <= viaje.progreso
      ensures old(sim).Some? && old(sim).value.i >= |old(sim).value.path| ==>
                var s := old(sim).value;
                sim.None? && posicionConductor == old(posicionConductor) &&
                (s.leg == Recogida ==>
                   viaje == old(viaje).(estado := ListoParaIniciar) &&
                   out == old(out) + [ConductorLlego(s.pasajero)]) &&
                (s.leg == Destino ==>
                   viaje == old(viaje).(estado := ViajeFinalizado) &&
                   out == old(out) + [ViajeFinalizadoEvent(s.pasajero, userEmail)])
    {
      if sim.None? {
        return;
      }
      var s := sim.value;
      if s.i >= |s.path| {
        sim := None;
        if s.leg == Recogida {
          viaje := viaje.(estado := ListoParaIniciar);
          out := out + [ConductorLlego(s.pasajero)];
        } else {
          viaje := viaje.(estado := ViajeFinalizado);
          out := out + [ViajeFinalizadoEvent(s.pasajero, userEmail)];
        }
        return;
      }
      var pct := Percent(s.i, |s.path|);
      if s.i + 1 < |s.path| {
        PercentMonotone(s.i, s.i + 1, |s.path|);
      }
      posicionConductor := Some(s.path[s.i]);
      viaje := viaje.(progreso := pct);
      out := out + [PosicionConductor(s.pasajero, s.path[s.i], Some(pct))];
      sim := Some(s.(i := s.i + 1));
    }

    /** One fix from the GPS watch. It moves the marker and forwards the
        position (without a percentage); a fix within the threshold of the
        target (`near`) stops the watch and marks arrival: at the passenger,
        announced with `conductor_llego`; at the destination, silently. */
    method GpsFix(p: Point, near: bool)
      requires Valid()
      modifies this`watch, this`viaje, this`posicionConductor, this`out
      ensures Valid()
      ensures old(watch).None? ==>
                watch == old(watch) && viaje == old(viaje) &&
                posicionConductor == old(posicionConductor) && out == old(out)
      ensures old(watch).Some? ==>
                var w := old(watch).value;
                posicionConductor == Some(p) &&
                (!near ==> watch == old(watch) && viaje == old(viaje) &&
                           out == old(out) + [PosicionConductor(w.pasajero, p, None)]) &&
                (near && w.leg == Recogida ==>
                   watch.None? && viaje == old(viaje).(estado := ListoParaIniciar) &&
                   out == old(out) + [PosicionConductor(w.pasajero, p, None), ConductorLlego(w.pasajero)]) &&
                (near && w.leg == Destino ==>
                   watch.None? && viaje == old(viaje).(estado := ViajeFinalizado) &&
                   out == old(out) + [PosicionConductor(w.pasajero, p, None)])
    {
      if watch.None? {
        return;
      }
      var w := watch.value;
      posicionConductor := Some(p);
      out := out + [PosicionConductor(w.pasajero, p, None)];
      if near {
        watch := None;
        if w.leg == Recogida {
          viaje := viaje.(estado := ListoParaIniciar);
          out := out + [ConductorLlego(w.pasajero)];
        } else {
          viaje := viaje.(estado := ViajeFinalizado);
        }
      }
    }

    /** "Iniciar viaje" in demo mode: without a destination nothing happens;
        otherwise both timers stop and, once the directions service answers
        with a route from the driver's position, the destination leg starts. */
    method IniciarSimDestino(routeOk: bool, path: seq<Point>)
      requires Valid()
      modifies this`viaje, this`sim, this`watch
      ensures Valid()
      ensures old(viaje).destino.None? ==> viaje == old(viaje) && sim == old(sim) && watch == old(watch)
      ensures old(viaje).destino.Some? ==>
                watch.None? &&
                (routeOk ==>
                   viaje == old(viaje).(directions := Some(Route(path)), estado := ViajeEnProgreso, progreso := 0) &&
                   sim == Some(Sim(Destino, path, 0, old(viaje).pasajero))) &&
                (!routeOk ==> viaje == old(viaje) && sim.None?)
    {
      if viaje.destino.None? {
        return;
      }
      sim, watch := None, None;
      if routeOk {
        sim := Some(Sim(Destino, path, 0, viaje.pasajero));
        viaje := viaje.(directions := Some(Route(path)), estado := ViajeEnProgreso, progreso := 0);
      }
    }

    /** "Iniciar viaje" with GPS: without a destination nothing happens;
        otherwise both timers stop and a watch towards the destination starts. */
    method IniciarGPSDestino()
      requires Valid()
      modifies this`viaje, this`sim, this`watch
      ensures Valid()
      ensures old(viaje).destino.None? ==> viaje == old(viaje) && sim == old(sim) && watch == old(watch)
      ensures old(viaje).destino.Some? ==>
                viaje == old(viaje).(estado := ViajeEnProgresoReal) && sim.None? &&
                watch == Some(Watch(Destino, old(viaje).pasajero))
    {
      if viaje.destino.None? {
        return;
      }
      sim := None;
      watch := Some(Watch(Destino, viaje.pasajero));
      viaje := viaje.(estado := ViajeEnProgresoReal);
    }

    /** "Aceptar" / "Confirmar": nothing without a request; a tour is accepted
        and starts at once; a normal request is accepted with the driver's
        position and waits for the passenger. Either way exactly one
        `conductor_acepta_viaje` is sent. */
    method AceptarViaje()
      requires Valid()
      modifies this`viaje, this`out
      ensures Valid()
      ensures old(solicitud).None? ==> viaje == old(viaje) && out == old(out)
      ensures old(solicitud).Some? && old(solicitud).value.tipo == Some(Tour) ==>
                viaje == old(viaje).(estado := TourEnProgreso) &&
                out == old(out) + [AceptaTour(userEmail, old(solicitud).value.pasajero)]
      ensures old(solicitud).Some? && old(solicitud).value.tipo != Some(Tour) ==>
                var s := old(solicitud).value;
                viaje == old(viaje).(estado := EsperandoConfirmacion) &&
                out == old(out) + [AceptaViaje(userEmail, userEmail, posicionConductor, s.pasajero, s.origen, s.destino)]
    {
      if solicitud.None? {
        return;
      }
      var s := solicitud.value;
      if s.tipo == Some(Tour) {
        out := out + [AceptaTour(userEmail, s.pasajero)];
        viaje := viaje.(estado := TourEnProgreso);
        return;
      }
      out := out + [AceptaViaje(userEmail, userEmail, posicionConductor, s.pasajero, s.origen, s.destino)];
      viaje := viaje.(estado := EsperandoConfirmacion);
    }

    /** "Rechazar" / "Cancelar": tell the server, stop both timers, drop the
        request and restore the initial trip. */
    method CancelarConfirmacionAction()
      requires Valid()
      modifies this`viaje, this`solicitud, this`sim, this`watch, this`out
      ensures Valid()
      ensures out == old(out) +
                [CancelarConfirmacion(userEmail, if old(solicitud).Some? then old(solicitud).value.pasajero else None)]
      ensures viaje == Inicial && solicitud.None? && sim.None? && watch.None?
    {
      out := out + [CancelarConfirmacion(userEmail, if solicitud.Some? then solicitud.value.pasajero else None)];
      sim, watch := None, None;
      solicitud := None;
      viaje := Inicial;
    }

    /** "Finalizar Tour", shown only for a tour in progress: credit the tour
        price, post it to the wallet route, drop the request and restore the
        initial trip. The timers are left as they are. */
    method FinalizarTour()
      requires Valid()
      requires viaje.tipo == Tour && viaje.estado == TourEnProgreso
      modifies this`wallet, this`out, this`solicitud, this`viaje
      ensures Valid()
      ensures wallet == old(wallet) + TourPrecio
      ensures out == old(out) + [WalletSumar(userEmail, TourPrecio)]
      ensures viaje == Inicial && solicitud.None?
    {
      var pago := solicitud.value.tourPrecio.value;
      wallet := wallet + pago;
      out := out + [WalletSumar(userEmail, pago)];
      solicitud := None;
      viaje := Inicial;
    }

    /** "Finalizar viaje": credit 15 % of the request's fare (of 50 when it
        has none), post it to the wallet route, stop both timers, drop the
        request and restore the initial trip. */
    method FinalizarViaje()
      requires Valid()
      modifies this`wallet, this`out, this`solicitud, this`viaje, this`sim, this`watch
      ensures Valid()
      ensures wallet == old(wallet) + Commission(Fare(old(solicitud)))
      ensures out == old(out) + [WalletSumar(userEmail, Commission(Fare(old(solicitud))))]
      ensures viaje == Inicial && solicitud.None? && sim.None? && watch.None?
    {
      var comision := Commission(Fare(solicitud));
      wallet := wallet + comision;
      out := out + [WalletSumar(userEmail, comision)];
      sim, watch := None, None;
      solicitud := None;
      viaje := Inicial;
    }
  }
}
