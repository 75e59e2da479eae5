# Colibri trip matching, modelled in Dafny

Colibri is a ride-hailing application. Its backend and browser pages do four
jobs:

- Drivers announce themselves over a socket. A passenger's ride request is
  forwarded to every announced driver.
- Each side's page runs its own trip state machine. Both pages walk the
  handshake: offer, accept, confirm, pickup, ride, finish. The driver's page
  animates a route, publishes the progress and credits a commission to its
  wallet. The passenger's page shows offers, the driver's approach and the
  final review form.
- A map component turns clicks into an origin, a destination and a route
  request.
- REST routes keep the user table, wallet balances, driver validation,
  trip history and reviews. They also handle registration, login with
  optional TOTP, a role-checking middleware, and the signed-URL helper for
  stored documents.

The model has one Dafny module per source file, plus three shared modules:

- `Common`: optional values, points, routes and the trip event payloads.
- `Strings`: JavaScript `split`/`join` on one character.
- `Users`: the shared `usuario` table.

How the source becomes Dafny:

- State the source updates in place becomes a class with `modifies` frames:
  - the socket server's registry;
  - the two pages and the map component;
  - the tables behind the routes.
- Decisions and queries become functions, with lemmas relating them.
- Everything a page or the server sends is appended to an output log.
- What comes from outside is a method parameter: the user's email, random
  mocks, clocks, the directions service's answer, position fixes, and "within
  the distance threshold".

The system is meant to offer a ride only to drivers near the passenger, with
room for the party, and to activate each trip exactly once through a
server-side coordinator. It is also meant to earn nothing on a trip without a
fare. Where the code does otherwise, the model follows the code:

- The server has no trip coordinator, no pending-trip table and no
  eligibility filter. It forwards every request to every registered socket.
- The handshake lives only in the two pages.
- The commission is taken from `solicitud?.costo || 50`. A fare of 0 is
  falsy, so it earns the commission on 50 (7.5), not 0.

Behaviour the code has and the model keeps as written:

- The server fans requests out as `nuevo_viaje`. The driver page listens for
  `nuevo_viaje_disponible` (`Driver.ServerOfferNotSubscribed`).
- The passenger's "Confirmar" button has no handler, so the model has no
  method for it.
- The passenger page renders `viaje_en_progreso` but never assigns it.
  `Passenger.HomePasajero.Valid` keeps this as an invariant.
- Login and TOTP tokens carry `{ id, email }` and no `rol`. Every route behind
  `auth(role)` therefore answers 403 (`Auth.SignedTokenDeniedByRole`).
- The passenger page sends the user's email as `autorId`, where the review
  route stores integer ids. Every review it sends is refused
  (`Passenger.PageReviewRefused`).
- The driver's "Finalizar Tour" does not stop the timers. The GPS leg to the
  destination ends without emitting `viaje_finalizado`.
- The passenger page's `viaje_cancelado_emergencia` handler sets a message
  that its own reset clears at once.
- The passenger page passes a new `handleSelect` to the map on every render.
  The map's position effect depends on it, so it asks for the position again
  after every render of the page. Each fix overwrites a clicked origin with
  "Mi ubicación actual" (`RouteMap.MapaRutas.OnMountPosition`).

## Model

| member | source | states |
|---|---|---|
| Common.OrElse | colibri-backend/src/routes/historial.js:24-25 | `a \|\| b` on optional strings: the value when truthy, the fallback when absent or empty |
| Strings.Split | colibri-backend/src/middleware/authRole.js:8 | `split` on one character never yields an empty list, and no part contains the separator |
| Strings.SplitNoSeparator | colibri-backend/src/utils/gcsSignedUrl.js:4 | a string without the separator splits into itself |
| Strings.SplitPrefix | colibri-backend/src/utils/gcsSignedUrl.js:4 | splitting `a + sep + b` yields `a` followed by the parts of `b` |
| Strings.JoinSplit | colibri-backend/src/utils/gcsSignedUrl.js:4-5 | joining what `split` produced gives the string back |
| Users.FindByEmail | colibri-backend/src/routes/wallet.routes.js:13-16 | a lookup by email finds a row with that email, and finds none exactly when no row has it |
| Users.FindById | colibri-backend/src/routes/validacion.routes.js:39-42 | a lookup by id finds a row with that id, and finds none exactly when no row has it |
| Presence.FanOut | colibri-backend/src/index.js:38-43 | one delivery per registered socket, in key order, each carrying the request unchanged plus the timestamp |
| Presence.Without | colibri-backend/src/index.js:50 | the key list after `delete` holds every other key and not the deleted one |
| Presence.FanOutExactlyOnce | colibri-backend/src/index.js:38-43 | every registered socket gets exactly one notification, any other socket none |
| Presence.WithoutIdempotent | colibri-backend/src/index.js:47-54 | deleting twice is deleting once |
| Presence.BroadcastReachesExactlyRegistered | colibri-backend/src/index.js:34-44 | one `buscar_conductor` adds exactly one `nuevo_viaje` per registered socket and none for others, whatever the payloads say about place, capacity or gender |
| Presence.Registry.constructor | colibri-backend/src/index.js:22 | the registry starts empty with nothing sent |
| Presence.Registry.ConductorActivo | colibri-backend/src/index.js:28-31 | stores the payload under the sender's id, overwriting an earlier entry; nothing is sent |
| Presence.Registry.BuscarConductor | colibri-backend/src/index.js:34-44 | the loop appends exactly the fan-out of the request; the registry is unchanged |
| Presence.Registry.Disconnect | colibri-backend/src/index.js:47-54 | removes only the sender's entry; a socket that never registered changes nothing |
| RouteMap.Click | colibri-frontend/src/components/MapaRuta.jsx:42-64 | the three branches: set origin and clear the rest; set destination and request a route from the origin; start a new pair |
| RouteMap.ClickConsistent | colibri-frontend/src/components/MapaRuta.jsx:42-64 | after any click a destination is only set together with an origin |
| RouteMap.ThreeClicks | colibri-frontend/src/components/MapaRuta.jsx:42-64 | three clicks from empty end with the third as origin and no destination, after reporting origin, destination, new origin and one route request |
| RouteMap.TwoClicksMakeNewPair | colibri-frontend/src/components/MapaRuta.jsx:51-63 | with both points set, two more clicks make a new pair and request its route |
| RouteMap.MapaRutas.constructor | colibri-frontend/src/components/MapaRuta.jsx:18-24 | the map starts on the fallback centre with no points and empty texts |
| RouteMap.MapaRutas.HandleClick | colibri-frontend/src/components/MapaRuta.jsx:42-64 | the component's state becomes the click's result; it reports the selection and logs the route request, if any |
| RouteMap.MapaRutas.OnRouteResult | colibri-frontend/src/components/MapaRuta.jsx:74-87 | an `OK` answer shows the route and reports it with distance and duration; any other answer changes nothing |
| RouteMap.MapaRutas.OnMountPosition | colibri-frontend/src/components/MapaRuta.jsx:26-40 | a fix becomes centre and origin with "Mi ubicación actual"; a failure recentres on the fallback; the destination is never touched |
| RouteMap.MapaRutas.UsarMiUbicacion | colibri-frontend/src/components/MapaRuta.jsx:91-105 | the same on a fix; nothing otherwise |
| RouteMap.MapaRutas.TakeFix | colibri-frontend/src/components/MapaRuta.jsx:29-34 | a position fix sets centre, origin and text and reports the origin, leaving destination and route |
| RouteMap.MapaRutas.SetOriginText | colibri-frontend/src/components/MapaRuta.jsx:116 | typing replaces the origin text |
| RouteMap.MapaRutas.SetDestinationText | colibri-frontend/src/components/MapaRuta.jsx:123 | typing replaces the destination text |
| Wallet.WithWallet | colibri-backend/src/routes/wallet.routes.js:41-49 | one row's balance replaced; every other row unchanged |
| Wallet.GetWallet | colibri-backend/src/routes/wallet.routes.js:9-27 | 404 exactly when no user has the email; otherwise that user's stored balance |
| Wallet.Sumar | colibri-backend/src/routes/wallet.routes.js:32-56 | an absent `monto` gives 400; an unknown email gives 500; in both cases nothing changes; otherwise only that user's balance grows by `monto` and is returned |
| Wallet.Reset | colibri-backend/src/routes/wallet.routes.js:61-76 | an unknown email gives 500 with no change; otherwise only that user's balance becomes 0, which is returned |
| Wallet.GetAfterUpdate | colibri-backend/src/routes/wallet.routes.js:41-51 | after an update the balance reads as the new value for that email and as before for every other email |
| Wallet.SameLookups | colibri-backend/src/routes/wallet.routes.js:41-47 | a balance update moves no row: lookups by email are unchanged |
| Validacion.Pendientes | colibri-backend/src/routes/validacion.routes.js:9-27 | exactly the users whose `rol` is `conductor` and whose status is `pendiente`, with the selected columns |
| Validacion.WithEstado | colibri-backend/src/routes/validacion.routes.js:39-42 | one row's status replaced; every other row unchanged |
| Validacion.SetEstado | colibri-backend/src/routes/validacion.routes.js:37-64 | an unknown id gives 500 with no change; otherwise only that row's status changes |
| Validacion.Aprobar | colibri-backend/src/routes/validacion.routes.js:37-48 | sets that user's status to `aprobado`, or 500 for an unknown id |
| Validacion.Rechazar | colibri-backend/src/routes/validacion.routes.js:53-64 | sets that user's status to `rechazado`, or 500 for an unknown id |
| Validacion.DecidedNotPending | colibri-backend/src/routes/validacion.routes.js:12 | after either decision that driver is no longer pending and every other pending driver still is |
| Historial.NewRecord | colibri-backend/src/routes/historial.js:13-27 | the row copies every body field; the place texts default to `""` when absent or empty |
| Historial.InsertDesc | colibri-backend/src/routes/historial.js:47 | inserting adds exactly that record |
| Historial.InsertDescSorted | colibri-backend/src/routes/historial.js:47 | inserting into an id-descending list keeps it descending |
| Historial.SortDesc | colibri-backend/src/routes/historial.js:47 | sorting is a permutation |
| Historial.SortDescSorted | colibri-backend/src/routes/historial.js:47 | the sort's result is id-descending |
| Historial.ByPasajero | colibri-backend/src/routes/historial.js:45-46 | keeps exactly the records of that passenger |
| Historial.ListingSpec | colibri-backend/src/routes/historial.js:43-50 | the listing holds exactly that passenger's records, ids strictly descending when the table's ids are distinct |
| Historial.FilterDistinct | colibri-backend/src/routes/historial.js:45-46 | filtering a table with distinct ids keeps them distinct |
| Historial.HistorialTable.Guardar | colibri-backend/src/routes/historial.js:9-34 | appends exactly one new row under a fresh id, earlier rows untouched, and replies with it under `nuevo` |
| Reviews.AuthorOf | colibri-backend/src/routes/reviews.routes.js:27-29 | the author's name and email, present exactly when some user has that id |
| Reviews.PorUsuario | colibri-backend/src/routes/reviews.routes.js:21-32 | exactly the reviews with that `destinoId`, each with its author |
| Reviews.ListedAuthorsPresent | colibri-backend/src/routes/reviews.routes.js:25-30 | with the author foreign key in place, every listed review carries its author's name and email |
| Reviews.ReviewTable.Crear | colibri-backend/src/routes/reviews.routes.js:6-19 | stores exactly the five body fields under a fresh id (a `null` rating as absent), or answers 500 and stores nothing |
| Reviews.CrearKeepsAuthors | colibri-backend/src/routes/reviews.routes.js:10-12 | an accepted review keeps every review's author a user |
| Auth.ParseRegister | colibri-backend/src/routes/auth.routes.js:12-18 | accepted exactly when the name, phone and password lengths, the email and the role hold; only an absent role defaults to `viajero`, and a `null` or non-string role is refused |
| Auth.Login | colibri-backend/src/routes/auth.routes.js:46-81 | 400 exactly on a schema failure; 401 exactly for an unknown email or a wrong password; with the right password, a user with a secret gets `require2FA` and no token, any other user a token for their id and email, plus the role |
| Auth.UnknownAndWrongPasswordAlike | colibri-backend/src/routes/auth.routes.js:49-53 | an unknown email and a wrong password get the same reply |
| Auth.Verify2FA | colibri-backend/src/routes/auth.routes.js:137-167 | 500 exactly when the body has no email (the lookup throws); 400 exactly when the user or the secret is missing; 401 exactly when the code fails; a stored secret and a passing code give a token for that user |
| Auth.SignedTokenDeniedByRole | colibri-backend/src/routes/auth.routes.js:65-69 | a token as the routes sign it is refused with 403 by any `auth(role)` |
| Auth.ClaimsWithRol | colibri-backend/src/routes/auth.routes.js:73 | claims carrying the user's id, email and role |
| Auth.RolClaimsAdmitted | colibri-backend/src/middleware/authRole.js:12-17 | with the role in the payload, `auth(rol)` admits the user with exactly those claims |
| Auth.Generate2FA | colibri-backend/src/routes/auth.routes.js:105-134 | an unknown user gives 404 with no change; otherwise only that user's secret is overwritten |
| Auth.LoginAfterSetupRequires2FA | colibri-backend/src/routes/auth.routes.js:56-62 | after the secret is stored, a correct password gets `require2FA` instead of a token |
| Auth.Register | colibri-backend/src/routes/auth.routes.js:21-37 | a schema failure or a taken email gives 400 and leaves the table; otherwise appends one user with the hashed password under the next id and answers 201 |
| Auth.NewUser | colibri-backend/src/routes/auth.routes.js:28-30 | the new row stores the hash, not the plaintext, and the parsed fields |
| Auth.RegisterThenLogin | colibri-backend/src/routes/auth.routes.js:46-76 | a newly registered user without a secret logs in with their password and gets a token for their own id |
| Auth.FindByEmailAppend | colibri-backend/src/routes/auth.routes.js:24-29 | a new email is found at the appended row |
| AuthRole.Authorize | colibri-backend/src/middleware/authRole.js:3-22 | 401 "Token faltante" exactly without a header; `next` only with a verified second field; with a role required, only for that role |
| AuthRole.UnverifiedIsInvalid | colibri-backend/src/middleware/authRole.js:8-20 | a header without a second field, or one that fails verification, gives 401 "Token inválido" |
| AuthRole.WrongRoleDenied | colibri-backend/src/middleware/authRole.js:12-14 | a verified token with another role gives 403 "Acceso denegado" |
| AuthRole.NoRoleAdmitsVerified | colibri-backend/src/middleware/authRole.js:12-17 | without a required role every verified token passes and `req.user` is the decoded payload |
| AuthRole.BearerHeaderToken | colibri-backend/src/middleware/authRole.js:8 | `"Bearer " + token` yields the token when it has no space |
| SignedUrl.SignedUrlRequest | colibri-backend/src/utils/gcsSignedUrl.js:3-15 | a read request on the configured bucket for the parsed path, expiring 900000 ms after now |
| SignedUrl.SplitJoin | colibri-backend/src/utils/gcsSignedUrl.js:4-5 | splitting a join of separator-free parts gives the parts back |
| SignedUrl.FilePathSegments | colibri-backend/src/utils/gcsSignedUrl.js:4-5 | the path is exactly the segments after the third, in order; empty when there are none |
| SignedUrl.ParseRoundTrip | colibri-backend/src/utils/gcsSignedUrl.js:4-5 | parsing `gs://bucket/blob` as the uploaders build it recovers the bucket and the blob name, for a bucket name without `/` |
| SignedUrl.BucketNameIgnored | colibri-backend/src/utils/gcsSignedUrl.js:4-7 | the bucket in the URL plays no part: the request names the configured bucket and the blob |
| Driver.Percent | colibri-frontend/src/pages/HomeConductor.jsx:313 | the progress is `i/n*100` rounded to the nearest integer, within 0..100 |
| Driver.PercentMonotone | colibri-frontend/src/pages/HomeConductor.jsx:303-327 | the published progress never decreases as the counter advances |
| Driver.PercentEnds | colibri-frontend/src/pages/HomeConductor.jsx:304-316 | the first point publishes 0; the last published value, at point `n - 1`, is 100 only for a route of at least 200 points, and 50 for two points |
| Driver.LastPercent | colibri-frontend/src/pages/HomeConductor.jsx:304-316 | the value published at the last point is 100 exactly when the route has at least 200 points |
| Driver.Fare | colibri-frontend/src/pages/HomeConductor.jsx:475 | the request's fare when truthy; 50 when it is missing or 0 |
| Driver.Commission | colibri-frontend/src/pages/HomeConductor.jsx:476 | the commission is 15 % of the fare |
| Driver.CommissionCases | colibri-frontend/src/pages/HomeConductor.jsx:474-478 | a fare of 100 earns 15; a missing or zero fare earns 7.5 |
| Driver.OfferSolicitud | colibri-frontend/src/pages/HomeConductor.jsx:122-151 | the request keeps the offer's passenger, places and fare; a tour gets the fixed quote (850, 5 hours, the note), a normal request none |
| Driver.Merge | colibri-frontend/src/pages/HomeConductor.jsx:174 | spreading `viaje_confirmado` over the request replaces its passenger and places and keeps the rest |
| Driver.ServerOfferNotSubscribed | colibri-frontend/src/pages/HomeConductor.jsx:122 | the server's `nuevo_viaje` is not among the events the page listens to |
| Driver.HomeConductor.constructor | colibri-frontend/src/pages/HomeConductor.jsx:33-53 | inactive, no tours, capacity 4, wallet 0, the initial trip, no request, no timers |
| Driver.HomeConductor.PresenceOf | colibri-frontend/src/pages/HomeConductor.jsx:103-111 | the presence payload names the user by email, with the fix, capacity, gender tag and tour flag |
| Driver.HomeConductor.Announce | colibri-frontend/src/pages/HomeConductor.jsx:97-119 | an active driver with a fix sends `conductor_activo` and moves the marker; an inactive one stops both timers |
| Driver.HomeConductor.RecibirViajes | colibri-frontend/src/pages/HomeConductor.jsx:678 | going active announces the driver once |
| Driver.HomeConductor.Detener | colibri-frontend/src/pages/HomeConductor.jsx:683-687 | stops both timers and goes inactive |
| Driver.HomeConductor.SetModoDemo | colibri-frontend/src/pages/HomeConductor.jsx:531-535 | stops both timers, sets the mode, and re-announces an active driver on a change |
| Driver.HomeConductor.SetCapacidad | colibri-frontend/src/pages/HomeConductor.jsx:544 | sets the capacity; on a change an active driver re-announces and an inactive one stops both timers |
| Driver.HomeConductor.SetAceptaTours | colibri-frontend/src/pages/HomeConductor.jsx:522 | sets the tour flag; on a change an active driver re-announces and an inactive one stops both timers |
| Driver.HomeConductor.WalletCargado | colibri-frontend/src/pages/HomeConductor.jsx:86-92 | the wallet shows the fetched balance, 0 on an error reply, and is untouched when the request fails |
| Driver.HomeConductor.NuevoViajeDisponible | colibri-frontend/src/pages/HomeConductor.jsx:122-160 | records the request and moves to `solicitud_pendiente`; a tour also sets `tipo` and the passenger, a normal request the passenger and places |
| Driver.HomeConductor.ViajeConfirmado | colibri-frontend/src/pages/HomeConductor.jsx:163-175 | nothing unless addressed to this driver; then `esperando_confirmacion_conductor`, copying passenger and places into trip and request |
| Driver.HomeConductor.IniciarRecogida | colibri-frontend/src/pages/HomeConductor.jsx:178-189 | nothing unless addressed to this driver; then the pickup leg starts: a GPS watch, or in demo mode a simulation over the returned route |
| Driver.HomeConductor.ViajeCanceladoEmergencia | colibri-frontend/src/pages/HomeConductor.jsx:192-205 | stops both timers, drops the request and restores the initial trip |
| Driver.HomeConductor.Tick | colibri-frontend/src/pages/HomeConductor.jsx:303-327 | before the end: moves to point `i`, publishes the rounded percentage without decreasing it, advances `i`; at the end: stops and emits `conductor_llego` or `viaje_finalizado` exactly once |
| Driver.HomeConductor.GpsFix | colibri-frontend/src/pages/HomeConductor.jsx:224-240 | forwards every fix; near the passenger it stops and emits `conductor_llego`; near the destination it stops silently |
| Driver.HomeConductor.IniciarSimDestino | colibri-frontend/src/pages/HomeConductor.jsx:334-393 | refuses without a destination; otherwise stops the timers and, on a route, starts the destination simulation |
| Driver.HomeConductor.IniciarGPSDestino | colibri-frontend/src/pages/HomeConductor.jsx:248-273 | refuses without a destination; otherwise starts a GPS watch towards it |
| Driver.HomeConductor.AceptarViaje | colibri-frontend/src/pages/HomeConductor.jsx:399-426 | nothing without a request; a tour goes to `tour_en_progreso`, a normal request to `esperando_confirmacion`, each with exactly one `conductor_acepta_viaje` |
| Driver.HomeConductor.CancelarConfirmacionAction | colibri-frontend/src/pages/HomeConductor.jsx:428-447 | sends one cancellation, stops both timers, drops the request and restores the initial trip |
| Driver.HomeConductor.FinalizarTour | colibri-frontend/src/pages/HomeConductor.jsx:449-472 | credits exactly the tour price, posts it, drops the request and restores the initial trip |
| Driver.HomeConductor.FinalizarViaje | colibri-frontend/src/pages/HomeConductor.jsx:474-502 | credits 15 % of the fare (of 50 without one), posts it, stops the timers and restores the initial trip |
| Passenger.CalcularCosto | colibri-frontend/src/pages/HomePasajero.jsx:64-68 | no fare before a route is known; otherwise 25 plus 8.5 per kilometre |
| Passenger.CostoMonotone | colibri-frontend/src/pages/HomePasajero.jsx:64-68 | every route costs at least 25, and a longer one never costs less |
| Passenger.Card | colibri-frontend/src/pages/HomePasajero.jsx:83-94 | an offer card copies id, name and email, takes the drawn rating, and falls back to "Desconocido" for the model |
| Passenger.Ofertas | colibri-frontend/src/pages/HomePasajero.jsx:82-97 | the offers list has one card per driver, in order, each built from that driver |
| Passenger.OfertasFrom | colibri-frontend/src/pages/HomePasajero.jsx:83-94 | the same, for drivers numbered from `start` |
| Passenger.Select | colibri-frontend/src/pages/HomePasajero.jsx:72-74 | each kind of map report sets exactly its own fields: an origin; a destination; a new origin with the destination cleared; a route with its distance and duration. Every other field is kept |
| Passenger.ReportsKeepMirror | colibri-frontend/src/pages/HomePasajero.jsx:72-74 | a position-fix report and a route report keep the trip's points mirroring the map's; the route report gives the trip the map's route, distance and duration |
| Passenger.ClickKeepsMirror | colibri-frontend/src/pages/HomePasajero.jsx:72-74 | when the trip's points mirror the map's, they still do after a click and its report |
| Passenger.MountTimeNeverAlerts | colibri-frontend/src/pages/HomePasajero.jsx:190-200 | the check made against the mount-time record never raises the alert; against a known origin a near report does |
| Passenger.HistoryBodyAsWritten | colibri-frontend/src/pages/HomePasajero.jsx:152-161 | the body the handler posts: no places, no driver, empty distance and duration, fare 0 |
| Passenger.HistoryBody | colibri-frontend/src/pages/HomePasajero.jsx:152-161 | the body built from the finished trip: its driver, distance, duration and fare, and its place texts (which the page never sets) |
| Passenger.StaleHistoryBody | colibri-frontend/src/pages/HomePasajero.jsx:152-161 | for any trip with a route the posted body differs from the trip's own: fare 0 instead of at least 25 |
| Passenger.StoredAsWritten | colibri-backend/src/routes/historial.js:13-27 | the history row stored from the posted body has empty place texts, no driver and fare 0 |
| Passenger.SavedIdAsWritten | colibri-frontend/src/pages/HomePasajero.jsx:164-168 | `saved.id` is always absent |
| Passenger.SavedId | colibri-frontend/src/pages/HomePasajero.jsx:164-168 | the id of the saved row, read from `nuevo` |
| Passenger.SavedIdRoundTrip | colibri-backend/src/routes/historial.js:29 | reading `nuevo.id` recovers the id `/guardar` assigned; the as-written read never does |
| Passenger.ReviewBody | colibri-frontend/src/pages/HomePasajero.jsx:292-307 | the review names the user's email as author, the driver's email as target, the trip's history id, the rating (`null` for `NaN`) and the comment |
| Passenger.PageReviewRefused | colibri-frontend/src/pages/HomePasajero.jsx:300-306 | the review route refuses every review the page sends |
| Passenger.HomePasajero.constructor | colibri-frontend/src/pages/HomePasajero.jsx:28-56 | the initial trip record, no offers, preference "cualquiera", one passenger, rating 5 |
| Passenger.HomePasajero.ResetViaje | colibri-frontend/src/pages/HomePasajero.jsx:319-340 | restores the initial record and clears offers, marker, alert, message and tour |
| Passenger.HomePasajero.HandleSelect | colibri-frontend/src/pages/HomePasajero.jsx:72-74 | the trip becomes the merge of the report, which sets exactly the report's fields |
| Passenger.HomePasajero.OnOfertas | colibri-frontend/src/pages/HomePasajero.jsx:82-97 | replaces the offers with the mapped list |
| Passenger.HomePasajero.OnViajeCanceladoEmergencia | colibri-frontend/src/pages/HomePasajero.jsx:100-103 | resets the trip; the message ends cleared |
| Passenger.HomePasajero.OnAlertaEmergencia | colibri-frontend/src/pages/HomePasajero.jsx:105-107 | shows the event's message |
| Passenger.HomePasajero.OnViajeConfirmado | colibri-frontend/src/pages/HomePasajero.jsx:110-120 | nothing unless addressed to this passenger; then `esperando_confirmacion_pasajero`, copying driver, origin and destination |
| Passenger.HomePasajero.OnIniciarRecogida | colibri-frontend/src/pages/HomePasajero.jsx:123-131 | nothing unless addressed to this passenger; then `conductor_en_camino`, copying the driver |
| Passenger.HomePasajero.OnConductorLlego | colibri-frontend/src/pages/HomePasajero.jsx:134-139 | nothing unless addressed to this passenger; then `listo_para_iniciar` and the arrival message |
| Passenger.HomePasajero.OnViajeFinalizadoAsWritten | colibri-frontend/src/pages/HomePasajero.jsx:142-177 | nothing unless addressed to this passenger; posts the mount-time body; on an answer the trip is `finalizado` with no history id and the review form opens |
| Passenger.HomePasajero.OnViajeFinalizado | colibri-frontend/src/pages/HomePasajero.jsx:142-177 | the same, posting the trip's own body and keeping the saved row's id |
| Passenger.HomePasajero.OnPosicionConductorAsWritten | colibri-frontend/src/pages/HomePasajero.jsx:180-201 | every report moves the marker; a report with progress replaces it; the alert never changes |
| Passenger.HomePasajero.OnPosicionConductor | colibri-frontend/src/pages/HomePasajero.jsx:180-201 | the same, and a near report with a known origin raises the alert, which stays raised |
| Passenger.HomePasajero.SolicitarViaje | colibri-frontend/src/pages/HomePasajero.jsx:218-247 | nothing without an origin; otherwise `buscando`, no offers, and exactly one request (tour or ride) carrying the trip's fields and fare |
| Passenger.HomePasajero.CancelarBusqueda | colibri-frontend/src/pages/HomePasajero.jsx:249-252 | back to `pendiente` with no offers, keeping the places |
| Passenger.HomePasajero.AceptarOferta | colibri-frontend/src/pages/HomePasajero.jsx:254-287 | `esperando_conductor` with the chosen driver, no offers, exactly one assignment event |
| Passenger.HomePasajero.CancelarConfirmacionAction | colibri-frontend/src/pages/HomePasajero.jsx:342-347 | sends one cancellation and resets |
| Passenger.HomePasajero.Emergencia | colibri-frontend/src/pages/HomePasajero.jsx:589-598 | reports driver and origin once, resets, and shows "Emergencia enviada" |
| Passenger.HomePasajero.EnviarReview | colibri-frontend/src/pages/HomePasajero.jsx:292-314 | posts the review once; a completed request closes the form |
| Passenger.HomePasajero.SetModoTour | colibri-frontend/src/pages/HomePasajero.jsx:376-379 | sets the tour mode and empties the tour destinations |
| Passenger.HomePasajero.SetPreferenciaSexo | colibri-frontend/src/pages/HomePasajero.jsx:388 | sets the gender preference |
| Passenger.HomePasajero.SetPasajeros | colibri-frontend/src/pages/HomePasajero.jsx:401 | sets the seat count |
| Passenger.NumberOf | colibri-frontend/src/pages/HomePasajero.jsx:554 | `Number` of a select's string is a number exactly when the string is all digits, and `NaN` otherwise |
| Passenger.RatingOptionIsNaN | colibri-frontend/src/pages/HomePasajero.jsx:554-556 | every rating option's text, `n estrellas`, is `NaN` as a number |
| Passenger.RatingValueRoundTrip | colibri-frontend/src/pages/HomePasajero.jsx:554-556 | an option whose value is the digit `n` gives back `n` |
| Passenger.HomePasajero.SetRatingAsWritten | colibri-frontend/src/pages/HomePasajero.jsx:552-557 | choosing any rating stores `NaN` |
| Passenger.HomePasajero.SetRating | colibri-frontend/src/pages/HomePasajero.jsx:552-557 | with option values, choosing `n` stores `n` |
| Passenger.HomePasajero.SetComentario | colibri-frontend/src/pages/HomePasajero.jsx:563 | sets the comment |

## Left out

- Haversine distances and the 30 m / 40 m thresholds: floating-point trigonometry. A fix or report says through a boolean whether it is near.
- Binary floating point and `toFixed`: fares, commissions and balances are exact reals. The kilometres are given instead of parsed from the distance text. The fare `toFixed(2)` yields a string in the page; the model keeps the number.
- Driver.Tick: the page stores and sends the percentage as the string `toFixed(0)` yields; the model uses the integer.
- Google Maps routing, `navigator.geolocation` and `setInterval` timing: a route is a given point sequence, and ticks, fixes and callbacks are method calls. Events that arrive between a route request and its answer are not modelled for the driver page; its answer is a parameter of the method that asks.
- socket.io, `fetch` and `localStorage`: emissions and posts are output logs. The user's email is a constructor parameter. A route's answer, or a failed request, is a parameter.
- Presence.Registry.BuscarConductor: `Date.now()` is read once per delivery in the server; the model uses one timestamp per request.
- Prisma, bcrypt, jsonwebtoken, speakeasy, QRCode and zod's email regex: tables, predicates and function parameters stand in for them. The columns the routes do not read are not modelled.
- Auth.ParseRegister: the length checks count Unicode scalar values, where zod's `min` counts UTF-16 code units. A name made of one character outside the Basic Multilingual Plane passes zod's `min(2)` but not the model's.
- Auth.Login: the password length is counted in the same way, so the same difference applies.
- Passenger.NumberOf: only digit strings and non-numbers are modelled; signs, decimals, exponents and surrounding whitespace are not, because no select on the page offers them.
- Historial.HistorialTable.Guardar: `origen` and `destino` are stored as sent, `null` included. Both page bodies send `null` there. Whether the database accepts a plain `null` in those JSON columns depends on the Prisma version and schema, which are not part of this model.
- Reviews.ReviewTable.Crear: a `null` rating is stored as absent. Whether the database refuses it depends on the Prisma schema, which is not part of this model.
- The GCS uploaders, the bucket configuration and the database probe: storage plumbing. Only the `gs://` format the uploaders build is used, by `SignedUrl.GsUrl`.
- Presentation pages and components (login, registration, history, validation and review pages, sidebar, splash screen): UI only.
- The random review and tour mocks: the drawn values are parameters.
- The passenger's "Confirmar" button: it has no handler, so it has no method.
- The props `permitirRutas`, `marcadorConductor` and `directions` that the pages pass to the map: the component ignores them.
- Other handlers of the real backend (`conductor_acepta_viaje`, `conductor_asignado`, `posicion_conductor` and so on) are not in `index.js`. The events the pages send are logged, and nothing is invented for a server to do with them.

## Findings

| source | as written | input that shows it | evidently intended | confidence | as-written member | corrected member |
|---|---|---|---|---|---|---|
| colibri-frontend/src/pages/HomePasajero.jsx:190-200 | the `posicion_conductor` handler is registered once at mount and reads the mount-time `viaje.origen`, which is null | pick an origin, then receive a driver position within 40 m of it: the alert stays off | raise the proximity alert when the driver is near the trip's current origin | not executed | Passenger.MountTimeNeverAlerts | Passenger.HomePasajero.OnPosicionConductor |
| colibri-frontend/src/pages/HomePasajero.jsx:152-161 | the `viaje_finalizado` handler posts the mount-time `viaje` and `costo` | a trip with distance "12 km" is saved with distance "", fare 0 and no driver | save the finished trip's driver, distance, duration and fare (the place texts are missing either way, because the map never reports them) | not executed | Passenger.StaleHistoryBody | Passenger.HistoryBody |
| colibri-frontend/src/pages/HomePasajero.jsx:164-168 | reads `saved.id`, but `/guardar` replies `{ message, nuevo }` | any successful save leaves `idHistorial` undefined, so the review names no trip | read the id of `saved.nuevo` | not executed | Passenger.SavedIdAsWritten | Passenger.SavedId |
| colibri-frontend/src/pages/HomePasajero.jsx:554-556 | the rating options have no `value`, so `e.target.value` is the option's text and `Number` of it is `NaN` | choose "3 estrellas": the rating becomes `NaN` and the review is sent with `rating: null` | store the chosen number | not executed | Passenger.RatingOptionIsNaN | Passenger.HomePasajero.SetRating |
