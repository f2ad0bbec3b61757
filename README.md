# Trip-sharing reservations: a Dafny model

This project models the core of a car-pooling web application. Drivers
publish trips. Travellers request seats, which the trip's driver confirms or
rejects. A confirmed seat is later paid, attended or cancelled, and every
change of a reservation is written to a history and announced by a
notification. Around that lifecycle sit:

- the validators for registering travellers, drivers, vehicles and ratings;
- the in-memory traveller and trip stores;
- the city lookup through Nominatim;
- the controllers' partitioning and sorting of a traveller's reservations and trips;
- the naming of uploaded profile photos;
- four browser scripts that keep an unread-notification badge up to date.

Each source file of the core is one Dafny module:

- Services that change state are written twice.
  - A pure transition function over the stores returns the new stores and the return value or exception. Its contract states the guard order, the error cases and the exact new state.
  - A class holds the same stores as fields. Its methods are proved to move to exactly the state that function names, and to keep the store's invariant.
- Browser scripts are classes whose methods are the scripts' callbacks, each called with its outcome (AJAX success, server count, user confirmation).
- Pure stream code is functions and lemmas.

Shared definitions:

- `Base` has `Option` and `Result`.
- `Dominio` has the enums, the entity records and one `Error` constructor per exception class.
- `Secuencias` has the `filter`, and a stable sort by key standing for `List.sort` with a comparator.
- `Texto` has Java's `trim`, `isBlank` and `equalsIgnoreCase`, and decimal formatting of ids.

Time is an integer: minutes for `LocalDateTime`, days for `LocalDate`. "Now" is always a parameter.

## Model

| member | source | states |
|---|---|---|
| Contador.Ajustar | src/main/webapp/resources/core/js/notificaciones.js:32-43 | the counter after an update is never negative; it is the sum, or 0 when the sum would be negative |
| Contador.AplicarNoNegativo | src/main/webapp/resources/core/js/notificaciones.js:32-146 | after any sequence of messages, mark-reads, resyncs and reconnects started from a non-negative value, the counter is non-negative |
| Contador.ReconexionNoCambia | src/main/webapp/resources/core/js/notificaciones.js:142-146 | a reconnect restarts with the current counter and leaves it unchanged |
| Contador.CotasSinResincronizar | src/main/webapp/resources/core/js/notificacionesConductor.js:32-130 | without resync, the counter lies between start + messages − successful clicks and start + messages |
| Contador.SoloMensajes | src/main/webapp/resources/core/js/notificaciones.js:133-140 | with only messages and reconnects, the counter is the start plus the number of messages: exactly +1 each |
| Contador.ClicsRepetidos | src/main/webapp/resources/core/js/notificaciones.js:49-57 | n confirmed mark-reads take the counter down by n, but never below 0 |
| Contador.ClicFallidoNoCambia | src/main/webapp/resources/core/js/notificaciones.js:54-57 | a failed mark-read leaves the counter as it was |
| Contador.ResincronizacionManda | src/main/webapp/resources/core/js/notificaciones.js:124-127 | after a resync the counter no longer depends on its earlier value; it is the server count, clamped at 0 |
| Notificaciones.PaginaNotificaciones.constructor | src/main/webapp/resources/core/js/notificaciones.js:5-8 | the script loads with counter 0, no badge written and no connection |
| Notificaciones.PaginaNotificaciones.ActualizarContador | src/main/webapp/resources/core/js/notificaciones.js:32-43 | the counter becomes the clamped sum; an existing badge shows it, visible iff > 0 |
| Notificaciones.PaginaNotificaciones.MarcarNotificacionComoLeida | src/main/webapp/resources/core/js/notificaciones.js:49-57 | the POST is sent; only on success the counter drops by one (clamped) and the badge is rewritten with it; on failure counter and badge stay |
| Notificaciones.PaginaNotificaciones.MostrarToastNotificacion | src/main/webapp/resources/core/js/notificaciones.js:64-96 | the toast is shown; it gets a click handler iff the DTO has a non-empty `urlDestino` |
| Notificaciones.PaginaNotificaciones.ClicEnToast | src/main/webapp/resources/core/js/notificaciones.js:71-82 | a click removes the toast from the clickable ones, sends mark-read only if the counter is > 0, then navigates to the context path + `urlDestino`; the badge is rewritten only when a mark-read succeeded |
| Notificaciones.PaginaNotificaciones.IniciarConexionNotificaciones | src/main/webapp/resources/core/js/notificaciones.js:104-119 | an absent or 0 id changes nothing; otherwise the counter becomes `contadorInicial \|\| 0` (clamped), the badge shows it and a connection opens |
| Notificaciones.PaginaNotificaciones.AlConectar | src/main/webapp/resources/core/js/notificaciones.js:120-141 | on connect the page subscribes |
| Notificaciones.PaginaNotificaciones.AlResincronizar | src/main/webapp/resources/core/js/notificaciones.js:124-127 | the server's count replaces the counter, clamped at 0, and the badge (when the page has one) shows it |
| Notificaciones.PaginaNotificaciones.AlRecibirMensaje | src/main/webapp/resources/core/js/notificaciones.js:133-140 | each pushed message adds exactly 1, rewrites the badge and shows one toast, which gets a click handler iff it has a link |
| Notificaciones.PaginaNotificaciones.AlFallarConexion | src/main/webapp/resources/core/js/notificaciones.js:142-146 | an error restarts for the same user with the current counter, which stays, and the badge is rewritten with it |
| NotificacionesConductor.PaginaNotificacionesConductor.constructor | src/main/webapp/resources/core/js/notificacionesConductor.js:8-11 | the script loads with counter 0 and no connection |
| NotificacionesConductor.PaginaNotificacionesConductor.ActualizarContador | src/main/webapp/resources/core/js/notificacionesConductor.js:32-45 | clamped update; the badge is visible iff the counter is > 0 |
| NotificacionesConductor.PaginaNotificacionesConductor.MarcarNotificacionComoLeida | src/main/webapp/resources/core/js/notificacionesConductor.js:51-61 | the counter drops by one (clamped) and the badge is rewritten only on AJAX success |
| NotificacionesConductor.PaginaNotificacionesConductor.MostrarToastNotificacion | src/main/webapp/resources/core/js/notificacionesConductor.js:68-87 | a click handler is attached iff `urlDestino` is present |
| NotificacionesConductor.PaginaNotificacionesConductor.ClicEnToast | src/main/webapp/resources/core/js/notificacionesConductor.js:75-85 | mark-read only if the counter is > 0; then navigation to the link; the badge is rewritten only when a mark-read succeeded |
| NotificacionesConductor.PaginaNotificacionesConductor.IniciarConexionNotificaciones | src/main/webapp/resources/core/js/notificacionesConductor.js:95-110 | an invalid id aborts with no change; otherwise the counter is `contadorInicial \|\| 0` and the badge shows it |
| NotificacionesConductor.PaginaNotificacionesConductor.AlConectar | src/main/webapp/resources/core/js/notificacionesConductor.js:111-125 | connecting subscribes and does not touch the counter (no resync) |
| NotificacionesConductor.PaginaNotificacionesConductor.AlRecibirMensaje | src/main/webapp/resources/core/js/notificacionesConductor.js:117-124 | each message adds exactly 1, rewrites the badge and shows one toast, which gets a click handler iff it has a link |
| NotificacionesConductor.PaginaNotificacionesConductor.AlFallarConexion | src/main/webapp/resources/core/js/notificacionesConductor.js:126-130 | reconnect restarts with the current counter, which stays, and the badge is rewritten with it |
| NotificacionesConductorSpec.PaginaConductorSpec.constructor | src/main/webapp/resources/core/js/spec/notificacionesConductor.js:6-9 | the counter starts at 0; invariant: the counter equals the number of messages received |
| NotificacionesConductorSpec.PaginaConductorSpec.ActualizarContador | src/main/webapp/resources/core/js/spec/notificacionesConductor.js:50-58 | no clamp: the new value is exactly old + increment; the badge is visible iff > 0 |
| NotificacionesConductorSpec.PaginaConductorSpec.MostrarToastNotificacion | src/main/webapp/resources/core/js/spec/notificacionesConductor.js:60-77 | one toast with the message |
| NotificacionesConductorSpec.PaginaConductorSpec.IniciarConexionNotificaciones | src/main/webapp/resources/core/js/spec/notificacionesConductor.js:15-25 | an absent or 0 id aborts; starting never resets the counter |
| NotificacionesConductorSpec.PaginaConductorSpec.AlConectar | src/main/webapp/resources/core/js/spec/notificacionesConductor.js:26-40 | connecting subscribes and leaves the counter |
| NotificacionesConductorSpec.PaginaConductorSpec.AlRecibirMensaje | src/main/webapp/resources/core/js/spec/notificacionesConductor.js:32-39 | each message adds exactly 1, so the counter never decreases, and the badge shows the new count |
| NotificacionesConductorSpec.PaginaConductorSpec.AlFallarConexion | src/main/webapp/resources/core/js/spec/notificacionesConductor.js:41-45 | reconnect re-starts with the same id and keeps the counter |
| NotificacionesPolling.InsigniaPolling | src/main/webapp/resources/core/js/notificacionesPolling.js:38-48 | the badge is visible iff the count is > 0; a positive count is shown as itself, any other as 0 |
| NotificacionesPolling.DestinoTras | src/main/webapp/resources/core/js/notificacionesPolling.js:20-36 | the destination is the earlier one or the link of a confirmed notification; with no confirmed non-empty link it stays; otherwise the last confirmed notification with a non-empty link decides it |
| NotificacionesPolling.PaginaPolling.constructor | src/main/webapp/resources/core/js/notificacionesPolling.js:7-14 | no badge written, nothing shown, no poll and no interval yet |
| NotificacionesPolling.PaginaPolling.ActualizarContador | src/main/webapp/resources/core/js/notificacionesPolling.js:38-48 | an existing badge is overwritten with the polled count |
| NotificacionesPolling.PaginaPolling.MostrarToastNotificacion | src/main/webapp/resources/core/js/notificacionesPolling.js:20-36 | the notification is shown; a confirmed one with a link sets the destination |
| NotificacionesPolling.PaginaPolling.CheckNotifications | src/main/webapp/resources/core/js/notificacionesPolling.js:53-87 | after a successful poll the badge shows the batch size and every item is shown once, in order; a 401, an HTTP error or a network error leaves the badge and everything else unchanged |
| NotificacionesPolling.PaginaPolling.IniciarPolling | src/main/webapp/resources/core/js/notificacionesPolling.js:93-102 | one poll runs at once, with the same effect on badge, dialogs and destination as `CheckNotifications`, and one interval of 10000 ms is registered |
| NotificacionesPolling.PaginaPolling.Tick | src/main/webapp/resources/core/js/notificacionesPolling.js:84-101 | every tick polls again, with the same effect as `CheckNotifications`; the interval is never cleared, whatever the reply |
| ServicioReserva.Entrada | src/main/java/com/tallerwebi/dominio/ServiceImpl/ServicioReservaImpl.java:325-335 | a history row names the reservation, its trip and traveller, the actor, the previous state and the reservation's current state |
| ServicioReserva.ValidarDatosObligatorios | src/main/java/com/tallerwebi/dominio/ServiceImpl/ServicioReservaImpl.java:152-159 | a missing trip, then a missing traveller, is DatoObligatorio; both present passes |
| ServicioReserva.ValidarReservaNoExistente | src/main/java/com/tallerwebi/dominio/ServiceImpl/ServicioReservaImpl.java:161-165 | fails with ReservaYaExiste iff any reservation of that traveller on that trip exists |
| ServicioReserva.ValidarAsientosDisponibles | src/main/java/com/tallerwebi/dominio/ServiceImpl/ServicioReservaImpl.java:167-171 | passes iff the seat count is present and > 0 |
| ServicioReserva.ValidarViajeNoIniciado | src/main/java/com/tallerwebi/dominio/ServiceImpl/ServicioReservaImpl.java:173-177 | fails with ViajeYaIniciado iff the departure is set and before now |
| ServicioReserva.Solicitar | src/main/java/com/tallerwebi/dominio/ServiceImpl/ServicioReservaImpl.java:65-113 | the guards run in order (DatoObligatorio, ReservaYaExiste, SinAsientos, ViajeYaIniciado, then ViajeNoEncontrado for a trip not in the store and UsuarioInexistente for an unknown traveller); an error changes nothing; success adds exactly one PENDIENTE reservation and one history row with no previous state; a failed notification does not undo it |
| ServicioReserva.SolicitarPreservaValido | src/main/java/com/tallerwebi/dominio/ServiceImpl/ServicioReservaImpl.java:65-113 | requesting keeps the store invariant: seats ≥ 0, reservations point to stored trips, and each reservation's latest history row names its state |
| ServicioReserva.SolicitarDosVecesFalla | src/main/java/com/tallerwebi/dominio/ServiceImpl/ServicioReservaImpl.java:161-165 | a second request for the same trip and traveller fails with ReservaYaExiste |
| ServicioReserva.Confirmar | src/main/java/com/tallerwebi/dominio/ServiceImpl/ServicioReservaImpl.java:180-220 | NotFound, UsuarioNoAutorizado, ReservaYaExiste (not pending), SinAsientos, in that order, with no change; once they pass, a failed notification rolls everything back; success takes exactly one seat (staying ≥ 0), sets CONFIRMADA, records PENDIENTE→CONFIRMADA and notifies the traveller |
| ServicioReserva.ConfirmarPreservaValido | src/main/java/com/tallerwebi/dominio/ServiceImpl/ServicioReservaImpl.java:180-220 | confirming keeps the store invariant |
| ServicioReserva.Rechazar | src/main/java/com/tallerwebi/dominio/ServiceImpl/ServicioReservaImpl.java:223-257 | a null or blank reason is refused before any lookup; then not found, not the driver, not pending; once they pass, a failed notification rolls everything back; otherwise the pending reservation becomes RECHAZADA with the reason stored, seats untouched, and the traveller is notified |
| ServicioReserva.RechazarPreservaValido | src/main/java/com/tallerwebi/dominio/ServiceImpl/ServicioReservaImpl.java:223-257 | rejecting keeps the store invariant |
| ServicioReserva.ValueOfAsistencia | src/main/java/com/tallerwebi/dominio/ServiceImpl/ServicioReservaImpl.java:283-289 | `valueOf` returns the constant with exactly that name, or none |
| ServicioReserva.ValueOfAsistenciaIdaYVuelta | src/main/java/com/tallerwebi/dominio/ServiceImpl/ServicioReservaImpl.java:283-289 | `valueOf(name(e)) == e`, and `valueOf` fails exactly on strings that name no constant |
| ServicioReserva.MarcarAsistencia | src/main/java/com/tallerwebi/dominio/ServiceImpl/ServicioReservaImpl.java:280-323 | only PRESENTE/AUSENTE pass, checked before the lookup; requires the driver, CONFIRMADA and now ≥ departure − 30 min; changes only the attendance, never the state |
| ServicioReserva.MarcarAsistenciaErrores | src/main/java/com/tallerwebi/dominio/ServiceImpl/ServicioReservaImpl.java:291-315 | after the value check the errors come in order: not found, not the driver, not confirmed, no departure (NullPointer), too early |
| ServicioReserva.MarcarAsistenciaPreservaValido | src/main/java/com/tallerwebi/dominio/ServiceImpl/ServicioReservaImpl.java:280-323 | marking attendance keeps the store invariant |
| ServicioReserva.ConfirmarPago | src/main/java/com/tallerwebi/dominio/ServiceImpl/ServicioReservaImpl.java:447-472 | NotFound, then not the owner, then not CONFIRMADA; once they pass, a failed notification rolls the payment back; success sets the payment state PAGADO, leaves the state and notifies the driver |
| ServicioReserva.ConfirmarPagoPreservaValido | src/main/java/com/tallerwebi/dominio/ServiceImpl/ServicioReservaImpl.java:447-472 | paying keeps the store invariant |
| ServicioReserva.PagoTrasCancelar | src/main/java/com/tallerwebi/dominio/ServiceImpl/ServicioReservaImpl.java:535-538 | PAGADO becomes REEMBOLSO_PENDIENTE; every other payment state is unchanged |
| ServicioReserva.Cancelar | src/main/java/com/tallerwebi/dominio/ServiceImpl/ServicioReservaImpl.java:504-576 | requires the role VIAJERO ignoring case, then the reservation, ownership and state PENDIENTE or CONFIRMADA; success sets CANCELADA_POR_VIAJERO with the refund rule and one history row |
| ServicioReserva.CancelarPreservaValido | src/main/java/com/tallerwebi/dominio/ServiceImpl/ServicioReservaImpl.java:504-576 | cancelling keeps the store invariant |
| ServicioReserva.ConfirmarYCancelarPierdeAsiento | src/main/java/com/tallerwebi/dominio/ServiceImpl/ServicioReservaImpl.java:504-576 | confirming then cancelling leaves the trip one seat short: cancelling never returns the seat |
| ServicioReserva.HistorialNombraEstadoActual | src/main/java/com/tallerwebi/dominio/ServiceImpl/ServicioReservaImpl.java:325-335 | in every valid store, a reservation's latest history row names its current state |
| ServicioReserva.ConsultaActivasContenido | src/main/java/com/tallerwebi/dominio/ServiceImpl/ServicioReservaImpl.java:344-347 | the repository query returns exactly the traveller's PENDIENTE, RECHAZADA and CONFIRMADA reservations, ascending by departure |
| ServicioReserva.ListarActivas | src/main/java/com/tallerwebi/dominio/ServiceImpl/ServicioReservaImpl.java:339-373 | fails with UsuarioInexistente iff the traveller is unknown; otherwise exactly the traveller's queried reservations that are still active (paid CONFIRMADA ones dropped), each as many times as in the store, ascending by departure |
| ServicioReserva.TieneReservaActiva | src/main/java/com/tallerwebi/dominio/ServiceImpl/ServicioReservaImpl.java:475-482 | true iff a PENDIENTE or CONFIRMADA reservation of that traveller on that trip exists |
| ServicioReserva.SolicitarActivaCancelarDesactiva | src/main/java/com/tallerwebi/dominio/ServiceImpl/ServicioReservaImpl.java:475-482 | a freshly requested reservation is active, and once its traveller cancels it the pair is no longer active |
| ServicioReserva.ServicioReservaImpl.constructor | src/main/java/com/tallerwebi/dominio/ServiceImpl/ServicioReservaImpl.java:54-62 | a service over the given trips and travellers, with no reservations, valid |
| ServicioReserva.ServicioReservaImpl.RegistrarHistorial | src/main/java/com/tallerwebi/dominio/ServiceImpl/ServicioReservaImpl.java:325-335 | appends exactly one history row and changes nothing else |
| ServicioReserva.ServicioReservaImpl.SolicitarReserva | src/main/java/com/tallerwebi/dominio/ServiceImpl/ServicioReservaImpl.java:65-113 | moves to exactly the state `Solicitar` names, returns its result, and keeps the invariant |
| ServicioReserva.ServicioReservaImpl.ConfirmarReserva | src/main/java/com/tallerwebi/dominio/ServiceImpl/ServicioReservaImpl.java:180-220 | moves to exactly the state `Confirmar` names, and keeps the invariant |
| ServicioReserva.ServicioReservaImpl.RechazarReserva | src/main/java/com/tallerwebi/dominio/ServiceImpl/ServicioReservaImpl.java:223-257 | moves to exactly the state `Rechazar` names, and keeps the invariant |
| ServicioReserva.ServicioReservaImpl.MarcarAsistenciaReserva | src/main/java/com/tallerwebi/dominio/ServiceImpl/ServicioReservaImpl.java:280-323 | moves to exactly the state `MarcarAsistencia` names, and keeps the invariant |
| ServicioReserva.ServicioReservaImpl.ConfirmarPagoReserva | src/main/java/com/tallerwebi/dominio/ServiceImpl/ServicioReservaImpl.java:447-472 | moves to exactly the state `ConfirmarPago` names, and keeps the invariant |
| ServicioReserva.ServicioReservaImpl.CancelarReservaPorViajero | src/main/java/com/tallerwebi/dominio/ServiceImpl/ServicioReservaImpl.java:504-576 | moves to exactly the state `Cancelar` names, and keeps the invariant |
| ServicioValoracion.Valorar | src/main/java/com/tallerwebi/dominio/ServiceImpl/ServicioValoracionImpl.java:48-73 | in order: self-rating, score null or outside 1..5, missing trip, missing receptor, trip not FINALIZADO, existing rating for the triple; an error changes nothing; success appends exactly one rating with the given fields |
| ServicioValoracion.ValorarPreservaValido | src/main/java/com/tallerwebi/dominio/ServiceImpl/ServicioValoracionImpl.java:48-73 | the stored ratings keep scores in 1..5, no self-ratings and no duplicate (emisor, receptor, viaje) |
| ServicioValoracion.ValorarDosVecesFalla | src/main/java/com/tallerwebi/dominio/ServiceImpl/ServicioValoracionImpl.java:68-72 | after a successful rating an identical second call fails and stores nothing |
| ServicioValoracion.ObtenerViajero | src/main/java/com/tallerwebi/dominio/ServiceImpl/ServicioValoracionImpl.java:77-80 | the traveller iff stored, else UsuarioInexistente |
| ServicioValoracion.ObtenerUsuario | src/main/java/com/tallerwebi/dominio/ServiceImpl/ServicioValoracionImpl.java:84-87 | the user iff stored, else UsuarioInexistente |
| ServicioValoracion.NoNulos | src/main/java/com/tallerwebi/dominio/ServiceImpl/ServicioValoracionImpl.java:139-143 | `filter(Objects::nonNull)`: exactly the present values, all kept iff none is null |
| ServicioValoracion.NoNulosConcat | src/main/java/com/tallerwebi/dominio/ServiceImpl/ServicioValoracionImpl.java:139-143 | the filter keeps input order |
| ServicioValoracion.ObtenerViajeros | src/main/java/com/tallerwebi/dominio/ServiceImpl/ServicioValoracionImpl.java:124-146 | a missing trip is ViajeNoEncontrado; otherwise the non-null travellers of the trip's reservations, in order |
| ServicioValoracion.ServicioValoracionImpl.constructor | src/main/java/com/tallerwebi/dominio/ServiceImpl/ServicioValoracionImpl.java:37-45 | a service with no ratings |
| ServicioValoracion.ServicioValoracionImpl.ValorarUsuario | src/main/java/com/tallerwebi/dominio/ServiceImpl/ServicioValoracionImpl.java:48-73 | moves to exactly the state `Valorar` names, and keeps the rating invariant |
| ServicioViajero.ValidarRegistro | src/main/java/com/tallerwebi/dominio/ServiceImpl/ServicioViajeroImpl.java:47-59 | passes iff the name is non-blank and 18 ≤ age ≤ 120; a null or blank name is DatoObligatorio; an absent or out-of-range age is EdadInvalida |
| ServicioViajero.NombreAntesQueEdad | src/main/java/com/tallerwebi/dominio/ServiceImpl/ServicioViajeroImpl.java:47-53 | a blank or null name is reported whatever the age |
| ServicioViajero.ServicioViajeroImpl.constructor | src/main/java/com/tallerwebi/dominio/ServiceImpl/ServicioViajeroImpl.java:37-41 | nothing registered yet |
| ServicioViajero.ServicioViajeroImpl.Registrar | src/main/java/com/tallerwebi/dominio/ServiceImpl/ServicioViajeroImpl.java:44-66 | on a failed check nothing is registered and the entity is untouched; otherwise rol "VIAJERO" and activo true, then a login-side failure is UsuarioExistente and stores nothing, else one registration and the same object returned |
| ServicioViajero.ServicioViajeroImpl.ObtenerViajero | src/main/java/com/tallerwebi/dominio/ServiceImpl/ServicioViajeroImpl.java:69-73 | the stored traveller iff the id is known, else UsuarioInexistente |
| ServicioConductor.Registrar | src/main/java/com/tallerwebi/dominio/ServiceImpl/ServicioConductorImpl.java:43-57 | a registered email is UsuarioExistente before the licence check; a missing expiry date throws NullPointerException; an expiry before today is refused, today accepted; success appends exactly the new driver |
| ServicioConductor.RegistrarPreservaEmailsDistintos | src/main/java/com/tallerwebi/dominio/ServiceImpl/ServicioConductorImpl.java:43-57 | registering keeps the drivers' emails distinct |
| ServicioConductor.RegistrarEmailRepetido | src/main/java/com/tallerwebi/dominio/ServiceImpl/ServicioConductorImpl.java:45-47 | after a registration, any driver with the same email is refused and nothing is saved |
| ServicioConductor.Login | src/main/java/com/tallerwebi/dominio/ServiceImpl/ServicioConductorImpl.java:35-40 | a driver with that email and password, or CredencialesInvalidas iff there is none |
| ServicioConductor.LoginUnico | src/main/java/com/tallerwebi/dominio/ServiceImpl/ServicioConductorImpl.java:35-40 | with distinct emails, a driver's own credentials log in as that driver |
| ServicioConductor.ObtenerConductor | src/main/java/com/tallerwebi/dominio/ServiceImpl/ServicioConductorImpl.java:61-65 | the driver with that id, or UsuarioInexistente iff there is none |
| ServicioConductor.ServicioConductorImpl.constructor | src/main/java/com/tallerwebi/dominio/ServiceImpl/ServicioConductorImpl.java:28-31 | no drivers yet |
| ServicioConductor.ServicioConductorImpl.RegistrarConductor | src/main/java/com/tallerwebi/dominio/ServiceImpl/ServicioConductorImpl.java:43-57 | moves to exactly the state `Registrar` names, and keeps emails distinct |
| ServicioVehiculo.AVehiculo | src/main/java/com/tallerwebi/dominio/ServiceImpl/ServicioVehiculoImpl.java:65-69 | the vehicle carries the input's plate and the conductor's id |
| ServicioVehiculo.ConPatente | src/main/java/com/tallerwebi/dominio/ServiceImpl/ServicioVehiculoImpl.java:48-49 | a stored vehicle with the plate, or none iff no vehicle has it |
| ServicioVehiculo.Guardar | src/main/java/com/tallerwebi/dominio/ServiceImpl/ServicioVehiculoImpl.java:58-72 | an existing plate is PatenteDuplicada before the conductor lookup; an unknown driver is NoSuchElementException from `Optional.get`; nothing is saved on error; success stores exactly one vehicle linked to the driver |
| ServicioVehiculo.GuardarPreservaPatentesDistintas | src/main/java/com/tallerwebi/dominio/ServiceImpl/ServicioVehiculoImpl.java:58-72 | plates stay distinct |
| ServicioVehiculo.GuardarYBuscar | src/main/java/com/tallerwebi/dominio/ServiceImpl/ServicioVehiculoImpl.java:47-72 | a saved vehicle is found by its plate afterwards |
| ServicioVehiculo.ObtenerConPatente | src/main/java/com/tallerwebi/dominio/ServiceImpl/ServicioVehiculoImpl.java:47-54 | the vehicle with the plate, or NotFound iff there is none |
| ServicioVehiculo.GetById | src/main/java/com/tallerwebi/dominio/ServiceImpl/ServicioVehiculoImpl.java:37-39 | always null |
| ServicioVehiculo.ObtenerVehiculosParaConductor | src/main/java/com/tallerwebi/dominio/ServiceImpl/ServicioVehiculoImpl.java:42-44 | always the empty list |
| ServicioVehiculo.ServicioVehiculoImpl.constructor | src/main/java/com/tallerwebi/dominio/ServiceImpl/ServicioVehiculoImpl.java:30-34 | no vehicles yet |
| ServicioVehiculo.ServicioVehiculoImpl.GuardarVehiculo | src/main/java/com/tallerwebi/dominio/ServiceImpl/ServicioVehiculoImpl.java:58-72 | moves to exactly the state `Guardar` names, and keeps plates distinct |
| ServicioNotificacion.Notificacion.constructor | src/main/java/com/tallerwebi/dominio/ServiceImpl/ServicioNotificacionImpl.java:38-46 | a new notification with the given recipient, message and link, not seen |
| ServicioNotificacion.NoVistas | src/main/java/com/tallerwebi/dominio/ServiceImpl/ServicioNotificacionImpl.java:27 | only the user's stored unseen notifications, and every one of them |
| ServicioNotificacion.ServicioNotificacionImpl.constructor | src/main/java/com/tallerwebi/dominio/ServiceImpl/ServicioNotificacionImpl.java:21-23 | an empty repository |
| ServicioNotificacion.ServicioNotificacionImpl.ObtenerNoVistasYMarcarComoVistas | src/main/java/com/tallerwebi/dominio/ServiceImpl/ServicioNotificacionImpl.java:25-35 | returns exactly the unseen list; each of them is seen afterwards; every other notification is unchanged; the user has nothing unseen left, so a second call returns [] |
| ServicioNotificacion.ServicioNotificacionImpl.GuardarNotificacion | src/main/java/com/tallerwebi/dominio/ServiceImpl/ServicioNotificacionImpl.java:38-46 | one new unseen notification with the given fields is appended, and it is the last of the recipient's unseen list |
| ServicioNotificacion.SinPendientes | src/main/java/com/tallerwebi/dominio/ServiceImpl/ServicioNotificacionImpl.java:25-35 | a store with nothing unseen for the user yields the empty list |
| ServicioNotificacion.NoVistasAlAgregar | src/main/java/com/tallerwebi/dominio/ServiceImpl/ServicioNotificacionImpl.java:38-46 | storing an unseen notification puts it at the end of its recipient's unseen list |
| ServicioHistorialReserva.ADto | src/main/java/com/tallerwebi/dominio/ServiceImpl/ServicioHistorialReservaImpl.java:49-52 | each DTO carries its row's trip, time, previous and new state unchanged |
| ServicioHistorialReserva.ADtos | src/main/java/com/tallerwebi/dominio/ServiceImpl/ServicioHistorialReservaImpl.java:49-52 | one DTO per row, in order |
| ServicioHistorialReserva.FindByViaje | src/main/java/com/tallerwebi/infraestructura/RepositorioHistorialReservaImpl.java:23-31 | exactly the trip's rows, ascending by event time |
| ServicioHistorialReserva.ObtenerHistorialPorViaje | src/main/java/com/tallerwebi/dominio/ServiceImpl/ServicioHistorialReservaImpl.java:39-53 | an unknown trip is ViajeNoEncontrado, then a non-driver is UsuarioNoAutorizado; otherwise one DTO per row of the trip, ascending by time |
| ServicioHistorialReserva.HistorialCompleto | src/main/java/com/tallerwebi/dominio/ServiceImpl/ServicioHistorialReservaImpl.java:49-52 | every history row of the trip appears in the driver's list |
| ServicioNominatim.NombresDeCiudades | src/main/java/com/tallerwebi/dominio/ServiceImpl/ServicioNominatimImpl.java:40-44 | exactly the names of the results whose type is "city" ignoring case; never longer than the input; empty in, empty out |
| ServicioNominatim.NombresConcat | src/main/java/com/tallerwebi/dominio/ServiceImpl/ServicioNominatimImpl.java:40-44 | the names keep input order |
| ServicioNominatim.FiltraSoloCiudades | src/main/java/com/tallerwebi/dominio/ServiceImpl/ServicioNominatimImpl.java:40-44 | "City" is kept; "administrative" and a null type are dropped |
| ServicioNominatim.BuscarCiudadPorInputCompleto | src/main/java/com/tallerwebi/dominio/ServiceImpl/ServicioNominatimImpl.java:27-35 | the client's exception propagates; an empty answer is NominatimResponseException; otherwise the answer unchanged |
| ServicioNominatim.DevolverNombresDeCiudades | src/main/java/com/tallerwebi/dominio/ServiceImpl/ServicioNominatimImpl.java:38-46 | the client's exception propagates; otherwise the city names of its answer |
| ControladorNominatim.BuscarCiudades | src/main/java/com/tallerwebi/presentacion/Controller/ControladorNominatim.java:27-39 | a null query or one shorter than 2 once trimmed gives [] without calling the service; otherwise the service is asked for the trimmed query and its city names are returned; a JSON error gives [], any other exception propagates; every answer has status 200 |
| ControladorNominatim.ConsultasCortasNoLlaman | src/main/java/com/tallerwebi/presentacion/Controller/ControladorNominatim.java:29-31 | "a", "  a  " and all spaces never reach the service |
| ControladorReserva.SepararReservasActivas | src/main/java/com/tallerwebi/presentacion/Controller/ControladorReserva.java:528-544 | the pending, rejected and confirmed lists hold exactly those states, in order, pairwise disjoint; the paid list holds exactly the confirmed trips whose payment is PAGADO |
| ControladorReserva.SepararCubreTodo | src/main/java/com/tallerwebi/presentacion/Controller/ControladorReserva.java:528-541 | when every active reservation is pending, rejected or confirmed, the three lists together hold all of them |
| ControladorReserva.OrdenarPorSalida | src/main/java/com/tallerwebi/presentacion/Controller/ControladorReserva.java:603-621 | the sort throws NullPointerException iff there are two or more trips and one has no departure; otherwise a permutation sorted by departure |
| ControladorReserva.Categorizar | src/main/java/com/tallerwebi/presentacion/Controller/ControladorReserva.java:603-621 | upcoming (DISPONIBLE or COMPLETO) and in-progress ascending, finished and cancelled descending, each a permutation of its filter |
| ControladorReserva.CategoriaUnica | src/main/java/com/tallerwebi/presentacion/Controller/ControladorReserva.java:603-617 | a confirmed reservation is in the category of its trip's state, so in at most one of upcoming, in progress and finished |
| ControladorReserva.SinSalidasNulasNoFalla | src/main/java/com/tallerwebi/presentacion/Controller/ControladorReserva.java:603-621 | when every departure is set, the page is always built |
| ControladorReserva.UnaSalidaNulaNoFalla | src/main/java/com/tallerwebi/presentacion/Controller/ControladorReserva.java:603-607 | a single trip without departure is listed (no comparison happens) |
| ControladorReserva.DosConSalidaNulaFalla | src/main/java/com/tallerwebi/presentacion/Controller/ControladorReserva.java:603-607 | two trips, one without departure, make the sort throw |
| ControladorReserva.ADtos | src/main/java/com/tallerwebi/presentacion/Controller/ControladorReserva.java:623-629 | one DTO per reservation, in order, without a pending rating |
| ControladorReserva.ADtosFinalizados | src/main/java/com/tallerwebi/presentacion/Controller/ControladorReserva.java:631-647 | one DTO per trip; a rating is pending iff the trip is finished and its driver was not yet rated |
| ControladorReserva.ListarMisViajes | src/main/java/com/tallerwebi/presentacion/Controller/ControladorReserva.java:597-650 | fails iff the categorisation throws; otherwise each list is the DTOs of its category's trips, in the category's order; each finished trip is flagged iff its driver was not yet rated; upcoming ones are never flagged; the upcoming, in-progress and finished DTOs carry their category's trip state |
| ControladorReserva.ProximosOrdenados | src/main/java/com/tallerwebi/presentacion/Controller/ControladorReserva.java:603-607 | the upcoming DTOs are ascending by departure |
| ControladorViajero.ViajesProximos | src/main/java/com/tallerwebi/presentacion/Controller/ControladorViajero.java:63-68 | at most 3 trips, all DISPONIBLE or COMPLETO, ascending, a prefix of the sorted upcoming list |
| ControladorViajero.LosSeleccionadosSonLosPrimeros | src/main/java/com/tallerwebi/presentacion/Controller/ControladorViajero.java:66-68 | an upcoming trip left out departs no sooner than any selected one |
| ControladorViajero.PocosViajesSeMuestranTodos | src/main/java/com/tallerwebi/presentacion/Controller/ControladorViajero.java:63-68 | with three or fewer upcoming trips, all of them are shown |
| ControladorViajero.IrAHome | src/main/java/com/tallerwebi/presentacion/Controller/ControladorViajero.java:47-86 | no session id or a role other than "VIAJERO" redirects; an unknown traveller invalidates the session; otherwise the home page with name, count and the selection, or the selection's NullPointer |
| ControladorViajero.SinSesionNoConsulta | src/main/java/com/tallerwebi/presentacion/Controller/ControladorViajero.java:53-55 | without a traveller's session the answer depends on no service |
| ControladorViajero.RolEnMinusculasRedirige | src/main/java/com/tallerwebi/presentacion/Controller/ControladorViajero.java:53-55 | the role is compared exactly: "viajero" is redirected |
| RepositorioViajero.Guardar | src/main/java/com/tallerwebi/infraestructura/RepositorioViajeroImpl.java:43-54 | a stored email returns false with map and counter unchanged; otherwise the id is the old counter, the counter grows by 1, and the map gains exactly that entry |
| RepositorioViajero.GuardarPreservaInvariante | src/main/java/com/tallerwebi/infraestructura/RepositorioViajeroImpl.java:43-54 | ids stay below the counter, and emails stay distinct; the new id was free |
| RepositorioViajero.GuardarDosVeces | src/main/java/com/tallerwebi/infraestructura/RepositorioViajeroImpl.java:45-48 | saving the same traveller again is refused |
| RepositorioViajero.RepositorioViajeroImpl.constructor | src/main/java/com/tallerwebi/infraestructura/RepositorioViajeroImpl.java:18-23 | the seed travellers get ids 1, 2, … in order; the counter is one past; the invariant holds when the seed's emails are distinct |
| RepositorioViajero.RepositorioViajeroImpl.GuardarViajero | src/main/java/com/tallerwebi/infraestructura/RepositorioViajeroImpl.java:43-54 | moves to exactly the state `Guardar` names, returns its flag and the new id, and keeps the invariant |
| ViajeRepository.PrimeraPosicion | src/main/java/com/tallerwebi/infraestructura/ViajeRepositoryImpl.java:39-46 | the first position with the id, or none iff no trip has it |
| ViajeRepository.Reemplazar | src/main/java/com/tallerwebi/infraestructura/ViajeRepositoryImpl.java:37-47 | only the first trip with the id is replaced; the length is unchanged; an absent id changes nothing |
| ViajeRepository.ReemplazarIdempotente | src/main/java/com/tallerwebi/infraestructura/ViajeRepositoryImpl.java:37-47 | replacing twice with the same trip is replacing once |
| ViajeRepository.ReemplazarYBuscar | src/main/java/com/tallerwebi/infraestructura/ViajeRepositoryImpl.java:24-47 | after replacing a stored id, looking it up finds the new trip |
| ViajeRepository.ViajeRepositoryImpl.constructor | src/main/java/com/tallerwebi/infraestructura/ViajeRepositoryImpl.java:19-21 | the list is the seed list |
| ViajeRepository.ViajeRepositoryImpl.FindById | src/main/java/com/tallerwebi/infraestructura/ViajeRepositoryImpl.java:24-27 | the first trip with the id; NoSuchElement iff no stored trip has it |
| ViajeRepository.ViajeRepositoryImpl.GuardarViaje | src/main/java/com/tallerwebi/infraestructura/ViajeRepositoryImpl.java:31-34 | appended at the end; the earlier trips are unchanged |
| ViajeRepository.ViajeRepositoryImpl.ModificarViajer | src/main/java/com/tallerwebi/infraestructura/ViajeRepositoryImpl.java:37-47 | the loop leaves exactly the list `Reemplazar` names |
| ViajeRepository.ViajeRepositoryImpl.FindByOrigenYDestinoYConductor | src/main/java/com/tallerwebi/infraestructura/ViajeRepositoryImpl.java:60-64 | exactly the trips matching all three keys, in list order |
| ViajeRepository.GuardarYSeleccionar | src/main/java/com/tallerwebi/infraestructura/ViajeRepositoryImpl.java:31-64 | a saved trip is the last of its route's selection |
| AlmacenamientoFoto.UltimoPunto | src/main/java/com/tallerwebi/dominio/ServiceImpl/ServicioAlmacenamientoFotoImpl.java:44-45 | `lastIndexOf(".")`: a dot with no dot after it, or none iff the name has no dot |
| AlmacenamientoFoto.Extension | src/main/java/com/tallerwebi/dominio/ServiceImpl/ServicioAlmacenamientoFotoImpl.java:42-46 | the suffix from the last dot (inclusive), or "" without a dot or name |
| AlmacenamientoFoto.GuardarArchivo | src/main/java/com/tallerwebi/dominio/ServiceImpl/ServicioAlmacenamientoFotoImpl.java:29-55 | a null or empty file gives null; a failed write is an IOException; otherwise "/img/profile_uploads/" + UUID + extension |
| AlmacenamientoFoto.UrlConPrefijoYExtension | src/main/java/com/tallerwebi/dominio/ServiceImpl/ServicioAlmacenamientoFotoImpl.java:47-54 | the URL starts with the public prefix and ends with the upload's extension |
| AlmacenamientoFoto.SinExtensionNoTerminaEnPuntoNiBarra | src/test/java/com/tallerwebi/dominio/ServicioAlmacenamientoFotoTest.java:87-101 | a name without a dot gives a URL ending in neither "." nor "/" |
| AlmacenamientoFoto.ExtensionDesdeElUltimoPunto | src/main/java/com/tallerwebi/dominio/ServiceImpl/ServicioAlmacenamientoFotoImpl.java:44-45 | "a.b.jpg" keeps ".jpg" |
| AlmacenamientoFoto.SinPuntoSinExtension | src/main/java/com/tallerwebi/dominio/ServiceImpl/ServicioAlmacenamientoFotoImpl.java:43-46 | "sin_extension" gives no extension |

## Where the code departs from its evident intent

The model follows the code in each case.

- A 401 from the polling endpoint does not stop polling. The interval is never cleared.
- The driver's script does not resynchronise its counter on connect. Only the traveller's script does.
- No script keeps a set of notification ids already counted. A repeated push is counted again.
- `ControladorReserva` sets `valoracionPendiente` on the finished trips' DTOs (ControladorReserva.java:642), but `ViajeConfirmadoViajeroDTO` declares no such field. The model gives its DTO the field the controller evidently means.
- `listarViajesCanceladosPorViajero` asks the repository for `CANCELADA_POR_CONDUCTOR` reservations, not the traveller's own cancellations. The model passes the cancelled list in as it comes.

## Left out

- WebSocket/STOMP connection, toastr, jQuery AJAX, `setTimeout` and `setInterval`. Callbacks are method calls carrying their outcome, and no interleaving is modelled.
- Floating-point code (distances, durations, rating averages) is not modelled.
- Hibernate, HQL and `Hibernate.initialize`. Repositories are maps and sequences; query order is stated where the query names it.
- Spring transactions. An exception's rollback is modelled by the transition functions leaving every store unchanged on error. The rollback-only marking of a swallowed notification exception is not modelled.
- Notifications sent by the reservation service are a list of `Aviso` records (recipient, type, link). Message texts are not modelled, except the ones that name an exception.
- The Mercado Pago preference, the refund methods and the other controllers.
- DTO mapping is not modelled beyond the fields the contracts mention.
- The Nominatim HTTP client and the JSON parsing. The client's answer for a query is a parameter.
- `ServicioLogin` is not part of this model. Its outcome in `ServicioViajeroImpl.registrar` is the parameter `loginFalla`.
- A traveller's age is the value `getEdad()` returns. The `Period` computed from a birth date is not modelled.
- `RepositorioConductorImpl` uses `getSingleResult`, which throws instead of returning an empty `Optional`. The drivers' store is abstract: an id or email is present or absent.
- `ServicioVehiculoImpl` compares the repository's result with `null`, while the repository returns an `Optional`. The model follows the service's evident meaning: absent means no vehicle.
- `yaExisteValoracionParaViaje` has no implementation. It is modelled as the existence of a rating with the same (emisor, receptor, viaje).
- `yaHaValorado` has no implementation in the rating service. It is the parameter `yaValorado` of `ControladorReserva.ListarMisViajes`.
- The notification entity names its flag `leida`, while the service reads and writes `vista`. The model has one flag, `vista`.
- `ServicioNominatim.NombresDeCiudades`: a result whose `name` is null is not modelled; names are strings.
- `ServicioValoracion.Valorar`: a null `receptorId` in the DTO is not modelled.
- `ServicioHistorialReserva.FindByViaje`: the database leaves the order of rows with the same event time unspecified. The model keeps their store order, one of the allowed orders.
- `Datos.obtenerViajeros` and `Datos.obtenerViajes` are not present. The seed lists are constructor parameters.
- `RepositorioViajero.RepositorioViajeroImpl.GuardarViajero` returns the new id instead of writing it into the traveller object with `setId`.
- The throwing stubs of `RepositorioViajeroImpl` have no meaning. `ViajeRepositoryImpl.borrarViaje` removes inside a for-each, which fails at run time in Java.
- `ViajeRepository.ViajeRepositoryImpl.FindByOrigenYDestinoYConductor` compares origin, destination and driver by id. The entity objects' `equals` is not modelled.
- `ControladorViajero.IrAHome` covers only the session check, the service answers and the selection. The view name, the model map and the error message are not modelled.
- `AlmacenamientoFoto.GuardarArchivo`: the UUID and the write's success are parameters. The directory creation and the bytes written are not modelled.
- `servicioViaje.obtenerViajePorId` returns null in `ServicioViajeImpl` (ServicioViajeImpl.java:31-33). The reservation service's model looks the trip up in its trip store instead.
- `ServicioVehiculo.GetById` and `ServicioVehiculo.ObtenerVehiculosParaConductor` are stubs in the source, so their contracts can only state the constant they return.
- `ServicioHistorialReserva.ADto`: the generated id of the history row, which the DTO copies, and the display names are not modelled.
- `Notificaciones.PaginaNotificaciones.AlResincronizar` takes the server's count as an integer. A body that `parseInt` turns into NaN, which leaves the badge showing NaN and hidden, is not modelled.
- `ControladorNominatim.BuscarCiudades` measures the trimmed query in characters. Java's `length()` counts UTF-16 code units, so a character outside the Basic Multilingual Plane counts twice there and once here.
- `ServicioReserva.ClaveSalida` sorts a reservation whose trip has no departure before every other one. The order of nulls in `ORDER BY v.fechaHoraDeSalida` is left to the database, and the model picks nulls first.
- `ServicioReserva.Cancelar` takes the session user as a `Usuario` with a role. The cast `(Viajero) usuarioEnSesion` (ServicioReservaImpl.java:546), which throws ClassCastException for a user of another class whose role still reads VIAJERO, is not modelled.
- The entities are values, except `Notificacion`, whose `vista` flag is updated in place, and the traveller entity in `ServicioViajeroImpl.registrar`. Aliasing between a Java entity and the same row seen through another repository is not modelled.
