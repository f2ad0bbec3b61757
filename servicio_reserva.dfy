/**
 * `ServicioReservaImpl`: the reservation lifecycle. A reservation starts
 * PENDIENTE; its trip's driver confirms or rejects it; the traveller pays for
 * a confirmed one or cancels a pending or confirmed one; the driver marks
 * attendance near departure. Every change of a reservation appends a history
 * row and most send a notification.
 *
 * The stores behind the service's collaborators (the trip service, the
 * traveller service, the reservation and history repositories and the
 * notification service) are the fields of `Almacen`; a reservation's id is
 * its position in `reservas`. `ahora` stands for `LocalDateTime.now()`.
 */
module ServicioReserva {
  import opened Base
  import opened Dominio
  import opened Texto
  import opened Secuencias

  datatype Almacen = Almacen(
    viajes: map<int, Viaje>,
    viajeros: set<int>,
    reservas: seq<Reserva>,
    historial: seq<HistorialReserva>,
    avisos: seq<Aviso>)

  /** What an operation leaves behind: the new stores and its return value or exception. */
  datatype Salida<T> = Salida(almacen: Almacen, resultado: Result<T, Error>)

  // ---------------------------------------------------------------- history

  /** The new state named by the last history row of reservation `id`, if it has one. */
  function UltimoEstado(h: seq<HistorialReserva>, id: int): Option<EstadoReserva>
    decreases |h|
  {
    if h == [] then None
    else if h[|h| - 1].reservaId == id then Some(h[|h| - 1].nuevo)
    else UltimoEstado(h[..|h| - 1], id)
  }

  lemma UltimoEstadoAlAgregar(h: seq<HistorialReserva>, e: HistorialReserva, id: int)
    ensures UltimoEstado(h + [e], id) == if e.reservaId == id then Some(e.nuevo) else UltimoEstado(h, id)
  {
    assert (h + [e])[..|h|] == h;
  }

  /**
   * `registrarHistorial`: the row written for `reserva` after its state was
   * set, by the user `actorId`, at `ahora`.
   */
  function Entrada(reserva: Reserva, anterior: Option<EstadoReserva>, actorId: int, ahora: nat): (h: HistorialReserva)
    ensures h.reservaId == reserva.id && h.viajeId == reserva.viajeId && h.viajeroId == reserva.viajeroId
    ensures h.nuevo == reserva.estado && h.anterior == anterior
  {
    HistorialReserva(reserva.id, reserva.viajeId, reserva.viajeroId, actorId, ahora, anterior, reserva.estado)
  }

  // ---------------------------------------------------------------- invariant

  predicate AsientosNoNegativos(v: Viaje) {
    v.asientos.None? || v.asientos.value >= 0
  }

  /**
   * What every reachable state satisfies: trips are stored under their id and
   * have no negative seat count; every reservation is stored at its id and
   * refers to a stored trip and traveller; and the latest history row of each
   * reservation names its current state.
   */
  predicate Valido(a: Almacen) {
    (forall k :: k in a.viajes ==> a.viajes[k].id == k && AsientosNoNegativos(a.viajes[k]))
    && (forall i :: 0 <= i < |a.reservas| ==>
          a.reservas[i].id == i && a.reservas[i].viajeId in a.viajes && a.reservas[i].viajeroId in a.viajeros)
    && (forall i :: 0 <= i < |a.reservas| ==> UltimoEstado(a.historial, i) == Some(a.reservas[i].estado))
  }

  predicate Existe(a: Almacen, id: int) {
    0 <= id < |a.reservas|
  }

  /** The trip of reservation `id`. */
  function ViajeDe(a: Almacen, id: int): Viaje
    requires Valido(a) && Existe(a, id)
  {
    a.viajes[a.reservas[id].viajeId]
  }

  /** Replacing reservation `id` by one with the same id, trip and traveller keeps the invariant once a row naming its new state is appended. */
  lemma ValidoTrasCambio(a: Almacen, id: int, r: Reserva, h: HistorialReserva, viajes: map<int, Viaje>)
    requires Valido(a) && Existe(a, id)
    requires r.id == id && r.viajeId == a.reservas[id].viajeId && r.viajeroId == a.reservas[id].viajeroId
    requires h.reservaId == id && h.nuevo == r.estado
    requires viajes.Keys == a.viajes.Keys
    requires forall k :: k in viajes ==> viajes[k].id == k && AsientosNoNegativos(viajes[k])
    ensures Valido(a.(viajes := viajes, reservas := a.reservas[id := r], historial := a.historial + [h]))
  {
    forall i | 0 <= i < |a.reservas|
      ensures UltimoEstado(a.historial + [h], i) == Some(a.reservas[id := r][i].estado)
    {
      UltimoEstadoAlAgregar(a.historial, h, i);
    }
  }

  // ---------------------------------------------------------------- solicitarReserva

  /** `validarDatosObligatorios`. */
  function ValidarDatosObligatorios(viaje: Option<Viaje>, viajeroId: Option<int>): (e: Option<Error>)
    ensures e.None? <==> viaje.Some? && viajeroId.Some?
    ensures viaje.None? ==> e == Some(DatoObligatorio("El viaje es obligatorio"))
    ensures viaje.Some? && viajeroId.None? ==> e == Some(DatoObligatorio("El viajero es obligatorio"))
  {
    if viaje.None? then Some(DatoObligatorio("El viaje es obligatorio"))
    else if viajeroId.None? then Some(DatoObligatorio("El viajero es obligatorio"))
    else None
  }

  /** There is a reservation, in any state, of `viajeroId` on trip `viajeId`. */
  predicate HayReserva(a: Almacen, viajeId: int, viajeroId: int) {
    exists i :: 0 <= i < |a.reservas| && a.reservas[i].viajeId == viajeId && a.reservas[i].viajeroId == viajeroId
  }

  /** `validarReservaNoExistente`: `findByViajeAndViajero(...).isPresent()` raises ReservaYaExiste. */
  function ValidarReservaNoExistente(a: Almacen, viajeId: int, viajeroId: int): (e: Option<Error>)
    ensures e.None? <==> !HayReserva(a, viajeId, viajeroId)
    ensures e.Some? ==> e.value == ReservaYaExiste
  {
    var encontradas := Filter(a.reservas, (r: Reserva) => r.viajeId == viajeId && r.viajeroId == viajeroId);
    if encontradas == [] then
      assert forall i :: 0 <= i < |a.reservas| ==> a.reservas[i] in a.reservas;
      None
    else
      assert encontradas[0] in a.reservas;
      Some(ReservaYaExiste)
  }

  predicate SinAsientos(v: Viaje) {
    v.asientos.None? || v.asientos.value <= 0
  }

  /** `validarAsientosDisponibles`. */
  function ValidarAsientosDisponibles(v: Viaje): (e: Option<Error>)
    ensures e.None? <==> v.asientos.Some? && v.asientos.value > 0
    ensures e.Some? ==> e.value == SinAsientosDisponibles
  {
    if SinAsientos(v) then Some(SinAsientosDisponibles) else None
  }

  /** `validarViajeNoIniciado`: a trip without departure time has not started. */
  function ValidarViajeNoIniciado(v: Viaje, ahora: nat): (e: Option<Error>)
    ensures e.None? <==> v.salida.None? || v.salida.value >= ahora
    ensures e.Some? ==> e.value == ViajeYaIniciado
  {
    if v.salida.Some? && v.salida.value < ahora then Some(ViajeYaIniciado) else None
  }

  function UrlListarReservas(viajeId: int): string {
    "/reserva/listar?viajeId=" + Decimal(viajeId)
  }

  /** All of `solicitarReserva`'s checks pass for these arguments. */
  predicate PuedeSolicitar(a: Almacen, viaje: Option<Viaje>, viajeroId: Option<int>, ahora: nat) {
    viaje.Some? && viajeroId.Some?
    && !HayReserva(a, viaje.value.id, viajeroId.value)
    && !SinAsientos(viaje.value)
    && (viaje.value.salida.None? || viaje.value.salida.value >= ahora)
    && viaje.value.id in a.viajes
    && viajeroId.value in a.viajeros
  }

  /**
   * `solicitarReserva(viaje, viajero)`. The guards read the trip object the
   * caller passed; the saved reservation refers to the stored trip. A failed
   * notification (`avisoOk` false) is swallowed.
   */
  function Solicitar(a: Almacen, viaje: Option<Viaje>, viajeroId: Option<int>, ahora: nat, avisoOk: bool): (s: Salida<Reserva>)
    requires Valido(a)
    ensures s.resultado.Failure? ==> s.almacen == a
    ensures (viaje.None? || viajeroId.None?) ==> s.resultado.Failure? && s.resultado.error.DatoObligatorio?
    ensures viaje.Some? && viajeroId.Some? && HayReserva(a, viaje.value.id, viajeroId.value) ==>
              s.resultado == Failure(ReservaYaExiste)
    ensures viaje.Some? && viajeroId.Some? && !HayReserva(a, viaje.value.id, viajeroId.value) && SinAsientos(viaje.value) ==>
              s.resultado == Failure(SinAsientosDisponibles)
    ensures viaje.Some? && viajeroId.Some? && !HayReserva(a, viaje.value.id, viajeroId.value) && !SinAsientos(viaje.value)
            && viaje.value.salida.Some? && viaje.value.salida.value < ahora ==>
              s.resultado == Failure(ViajeYaIniciado)
    ensures viaje.Some? && viajeroId.Some? && !HayReserva(a, viaje.value.id, viajeroId.value) && !SinAsientos(viaje.value)
            && !(viaje.value.salida.Some? && viaje.value.salida.value < ahora) && viaje.value.id !in a.viajes ==>
              s.resultado == Failure(ViajeNoEncontrado)
    ensures viaje.Some? && viajeroId.Some? && !HayReserva(a, viaje.value.id, viajeroId.value) && !SinAsientos(viaje.value)
            && !(viaje.value.salida.Some? && viaje.value.salida.value < ahora) && viaje.value.id in a.viajes
            && viajeroId.value !in a.viajeros ==>
              s.resultado == Failure(UsuarioInexistente)
    ensures s.resultado.Success? <==> PuedeSolicitar(a, viaje, viajeroId, ahora)
    ensures s.resultado.Success? ==>
              var v := a.viajes[viaje.value.id];
              var r := Reserva(|a.reservas|, v.id, viajeroId.value, PENDIENTE, None, None, None, ahora);
              s.resultado.value == r
              && s.almacen.viajes == a.viajes && s.almacen.viajeros == a.viajeros
              && s.almacen.reservas == a.reservas + [r]
              && s.almacen.historial == a.historial + [HistorialReserva(r.id, v.id, r.viajeroId, r.viajeroId, ahora, None, PENDIENTE)]
              && s.almacen.avisos == a.avisos + (if avisoOk then [Aviso(v.conductorId, RESERVA_SOLICITADA, UrlListarReservas(v.id))] else [])
  {
    var e := ValidarDatosObligatorios(viaje, viajeroId);
    if e.Some? then Salida(a, Failure(e.value))
    else
      var v0, u := viaje.value, viajeroId.value;
      var e := ValidarReservaNoExistente(a, v0.id, u);
      if e.Some? then Salida(a, Failure(e.value))
      else
        var e := ValidarAsientosDisponibles(v0);
        if e.Some? then Salida(a, Failure(e.value))
        else
          var e := ValidarViajeNoIniciado(v0, ahora);
          if e.Some? then Salida(a, Failure(e.value))
          else if v0.id !in a.viajes then Salida(a, Failure(ViajeNoEncontrado))
          else if u !in a.viajeros then Salida(a, Failure(UsuarioInexistente))
          else
            var v := a.viajes[v0.id];
            var r := Reserva(|a.reservas|, v.id, u, PENDIENTE, None, None, None, ahora);
            var avisos := if avisoOk then a.avisos + [Aviso(v.conductorId, RESERVA_SOLICITADA, UrlListarReservas(v.id))] else a.avisos;
            Salida(a.(reservas := a.reservas + [r], historial := a.historial + [Entrada(r, None, u, ahora)], avisos := avisos), Success(r))
  }

  lemma SolicitarPreservaValido(a: Almacen, viaje: Option<Viaje>, viajeroId: Option<int>, ahora: nat, avisoOk: bool)
    requires Valido(a)
    ensures Valido(Solicitar(a, viaje, viajeroId, ahora, avisoOk).almacen)
  {
    var s := Solicitar(a, viaje, viajeroId, ahora, avisoOk);
    if s.resultado.Success? {
      var r := s.resultado.value;
      var h := Entrada(r, None, r.viajeroId, ahora);
      forall i | 0 <= i < |s.almacen.reservas|
        ensures UltimoEstado(s.almacen.historial, i) == Some(s.almacen.reservas[i].estado)
      {
        UltimoEstadoAlAgregar(a.historial, h, i);
      }
    }
  }

  /** A traveller cannot hold two reservations on one trip: asking again fails, whatever became of the first. */
  lemma {:induction false} SolicitarDosVecesFalla(a: Almacen, viaje: Viaje, viajeroId: int, ahora: nat, avisoOk: bool, ahora2: nat, avisoOk2: bool)
    requires Valido(a)
    requires Solicitar(a, Some(viaje), Some(viajeroId), ahora, avisoOk).resultado.Success?
    ensures var b := Solicitar(a, Some(viaje), Some(viajeroId), ahora, avisoOk).almacen;
            Valido(b) && Solicitar(b, Some(viaje), Some(viajeroId), ahora2, avisoOk2).resultado == Failure(ReservaYaExiste)
  {
    SolicitarPreservaValido(a, Some(viaje), Some(viajeroId), ahora, avisoOk);
    var b := Solicitar(a, Some(viaje), Some(viajeroId), ahora, avisoOk).almacen;
    assert b.reservas[|a.reservas|].viajeId == viaje.id && b.reservas[|a.reservas|].viajeroId == viajeroId;
    assert HayReserva(b, viaje.id, viajeroId);
  }

  // ---------------------------------------------------------------- confirmarReserva

  /** All of `confirmarReserva`'s checks pass. */
  predicate PuedeConfirmar(a: Almacen, reservaId: int, conductorId: int)
    requires Valido(a)
  {
    Existe(a, reservaId) && ViajeDe(a, reservaId).conductorId == conductorId
    && a.reservas[reservaId].estado == PENDIENTE && !SinAsientos(ViajeDe(a, reservaId))
  }

  /**
   * `confirmarReserva(reservaId, conductorId)`: the trip's driver accepts a
   * pending reservation and one seat is taken. The notification is sent
   * last and outside any `try`, so when it fails (`avisoOk` false) the
   * exception rolls every change back.
   */
  function Confirmar(a: Almacen, reservaId: int, conductorId: int, ahora: nat, avisoOk: bool): (s: Salida<()>)
    requires Valido(a)
    ensures s.resultado.Failure? ==> s.almacen == a
    ensures !Existe(a, reservaId) ==> s.resultado == Failure(NotFound)
    ensures Existe(a, reservaId) && ViajeDe(a, reservaId).conductorId != conductorId ==>
              s.resultado == Failure(UsuarioNoAutorizado)
    ensures Existe(a, reservaId) && ViajeDe(a, reservaId).conductorId == conductorId && a.reservas[reservaId].estado != PENDIENTE ==>
              s.resultado == Failure(ReservaYaExiste)
    ensures Existe(a, reservaId) && ViajeDe(a, reservaId).conductorId == conductorId && a.reservas[reservaId].estado == PENDIENTE
            && SinAsientos(ViajeDe(a, reservaId)) ==>
              s.resultado == Failure(SinAsientosDisponibles)
    ensures PuedeConfirmar(a, reservaId, conductorId) && !avisoOk ==> s.resultado == Failure(NotificacionFallida)
    ensures s.resultado.Success? <==> PuedeConfirmar(a, reservaId, conductorId) && avisoOk
    ensures s.resultado.Success? ==>
              var r := a.reservas[reservaId];
              var v := ViajeDe(a, reservaId);
              s.almacen.viajes == a.viajes[v.id := v.(asientos := Some(v.asientos.value - 1))]
              && s.almacen.viajes[v.id].asientos.value >= 0
              && s.almacen.viajeros == a.viajeros
              && s.almacen.reservas == a.reservas[reservaId := r.(estado := CONFIRMADA)]
              && s.almacen.historial == a.historial + [HistorialReserva(reservaId, v.id, r.viajeroId, conductorId, ahora, Some(PENDIENTE), CONFIRMADA)]
              && s.almacen.avisos == a.avisos + [Aviso(r.viajeroId, RESERVA_APROBADA, "/reserva/misViajes")]
  {
    if !Existe(a, reservaId) then Salida(a, Failure(NotFound))
    else
      var r := a.reservas[reservaId];
      var v := a.viajes[r.viajeId];
      if v.conductorId != conductorId then Salida(a, Failure(UsuarioNoAutorizado))
      else if r.estado != PENDIENTE then Salida(a, Failure(ReservaYaExiste))
      else if SinAsientos(v) then Salida(a, Failure(SinAsientosDisponibles))
      else if !avisoOk then Salida(a, Failure(NotificacionFallida))
      else
        var r2 := r.(estado := CONFIRMADA);
        var b := a.(viajes := a.viajes[v.id := v.(asientos := Some(v.asientos.value - 1))],
                    reservas := a.reservas[reservaId := r2],
                    historial := a.historial + [Entrada(r2, Some(r.estado), v.conductorId, ahora)],
                    avisos := a.avisos + [Aviso(r.viajeroId, RESERVA_APROBADA, "/reserva/misViajes")]);
        Salida(b, Success(()))
  }

  lemma ConfirmarPreservaValido(a: Almacen, reservaId: int, conductorId: int, ahora: nat, avisoOk: bool)
    requires Valido(a)
    ensures Valido(Confirmar(a, reservaId, conductorId, ahora, avisoOk).almacen)
  {
    var s := Confirmar(a, reservaId, conductorId, ahora, avisoOk);
    if s.resultado.Success? {
      var r := a.reservas[reservaId];
      var v := ViajeDe(a, reservaId);
      ValidoTrasCambio(a, reservaId, r.(estado := CONFIRMADA), s.almacen.historial[|a.historial|], s.almacen.viajes);
      assert s.almacen == a.(viajes := s.almacen.viajes, reservas := a.reservas[reservaId := r.(estado := CONFIRMADA)],
                             historial := a.historial + [s.almacen.historial[|a.historial|]]).(avisos := s.almacen.avisos);
    }
  }

  // ---------------------------------------------------------------- rechazarReserva

  /** `motivo == null || motivo.trim().isEmpty()`. */
  predicate MotivoVacio(motivo: Option<string>) {
    motivo.None? || Trim(motivo.value) == []
  }

  /** All of `rechazarReserva`'s checks pass. */
  predicate PuedeRechazar(a: Almacen, reservaId: int, conductorId: int, motivo: Option<string>)
    requires Valido(a)
  {
    !MotivoVacio(motivo) && Existe(a, reservaId) && ViajeDe(a, reservaId).conductorId == conductorId
    && a.reservas[reservaId].estado == PENDIENTE
  }

  /**
   * `rechazarReserva(reservaId, conductorId, motivo)`: the reason is checked
   * before the reservation is looked up. As in `confirmarReserva`, a failed
   * notification rolls the rejection back.
   */
  function Rechazar(a: Almacen, reservaId: int, conductorId: int, motivo: Option<string>, ahora: nat, avisoOk: bool): (s: Salida<()>)
    requires Valido(a)
    ensures s.resultado.Failure? ==> s.almacen == a
    ensures MotivoVacio(motivo) ==> s.resultado == Failure(DatoObligatorio("El motivo del rechazo es obligatorio"))
    ensures !MotivoVacio(motivo) && !Existe(a, reservaId) ==> s.resultado == Failure(NotFound)
    ensures !MotivoVacio(motivo) && Existe(a, reservaId) && ViajeDe(a, reservaId).conductorId != conductorId ==>
              s.resultado == Failure(UsuarioNoAutorizado)
    ensures !MotivoVacio(motivo) && Existe(a, reservaId) && ViajeDe(a, reservaId).conductorId == conductorId
            && a.reservas[reservaId].estado != PENDIENTE ==>
              s.resultado == Failure(ReservaYaExiste)
    ensures PuedeRechazar(a, reservaId, conductorId, motivo) && !avisoOk ==> s.resultado == Failure(NotificacionFallida)
    ensures s.resultado.Success? <==> PuedeRechazar(a, reservaId, conductorId, motivo) && avisoOk
    ensures s.resultado.Success? ==>
              var r := a.reservas[reservaId];
              var r2 := r.(estado := RECHAZADA, motivoRechazo := motivo);
              s.almacen.viajes == a.viajes && s.almacen.viajeros == a.viajeros
              && s.almacen.reservas == a.reservas[reservaId := r2]
              && s.almacen.historial == a.historial + [HistorialReserva(reservaId, r.viajeId, r.viajeroId, conductorId, ahora, Some(PENDIENTE), RECHAZADA)]
              && s.almacen.avisos == a.avisos + [Aviso(r.viajeroId, RESERVA_RECHAZADA, "/reserva/misReservasActivas")]
  {
    if MotivoVacio(motivo) then Salida(a, Failure(DatoObligatorio("El motivo del rechazo es obligatorio")))
    else if !Existe(a, reservaId) then Salida(a, Failure(NotFound))
    else
      var r := a.reservas[reservaId];
      var v := a.viajes[r.viajeId];
      if v.conductorId != conductorId then Salida(a, Failure(UsuarioNoAutorizado))
      else if r.estado != PENDIENTE then Salida(a, Failure(ReservaYaExiste))
      else if !avisoOk then Salida(a, Failure(NotificacionFallida))
      else
        var r2 := r.(estado := RECHAZADA, motivoRechazo := motivo);
        var b := a.(reservas := a.reservas[reservaId := r2],
                    historial := a.historial + [Entrada(r2, Some(r.estado), v.conductorId, ahora)],
                    avisos := a.avisos + [Aviso(r.viajeroId, RESERVA_RECHAZADA, "/reserva/misReservasActivas")]);
        Salida(b, Success(()))
  }

  lemma RechazarPreservaValido(a: Almacen, reservaId: int, conductorId: int, motivo: Option<string>, ahora: nat, avisoOk: bool)
    requires Valido(a)
    ensures Valido(Rechazar(a, reservaId, conductorId, motivo, ahora, avisoOk).almacen)
  {
    var s := Rechazar(a, reservaId, conductorId, motivo, ahora, avisoOk);
    if s.resultado.Success? {
      var r := a.reservas[reservaId];
      ValidoTrasCambio(a, reservaId, r.(estado := RECHAZADA, motivoRechazo := motivo), s.almacen.historial[|a.historial|], a.viajes);
      assert s.almacen == a.(reservas := s.almacen.reservas, historial := a.historial + [s.almacen.historial[|a.historial|]]).(avisos := s.almacen.avisos);
    }
  }

  // ---------------------------------------------------------------- marcarAsistencia

  function NombreAsistencia(e: EstadoAsistencia): string {
    match e
    case PRESENTE => "PRESENTE"
    case AUSENTE => "AUSENTE"
    case NO_MARCADO => "NO_MARCADO"
  }

  /** `EstadoAsistencia.valueOf(s)`: the constant with exactly that name, or none (IllegalArgumentException). */
  function ValueOfAsistencia(s: string): (e: Option<EstadoAsistencia>)
    ensures e.Some? ==> NombreAsistencia(e.value) == s
  {
    if s == "PRESENTE" then Some(PRESENTE)
    else if s == "AUSENTE" then Some(AUSENTE)
    else if s == "NO_MARCADO" then Some(NO_MARCADO)
    else None
  }

  /** `valueOf` inverts `name()`, so it fails exactly on the strings that are no constant's name. */
  lemma ValueOfAsistenciaIdaYVuelta(e: EstadoAsistencia, s: string)
    ensures ValueOfAsistencia(NombreAsistencia(e)) == Some(e)
    ensures ValueOfAsistencia(s).None? <==> forall x: EstadoAsistencia :: NombreAsistencia(x) != s
  {
    if ValueOfAsistencia(s).None? {
      forall x: EstadoAsistencia ensures NombreAsistencia(x) != s {
        assert ValueOfAsistencia(NombreAsistencia(x)) == Some(x);
      }
    }
  }

  const MensajeAsistencia := "El valor de asistencia debe ser PRESENTE o AUSENTE"

  /** The attendance may be marked from 30 minutes before departure on. */
  predicate DentroDeVentana(salida: int, ahora: int) {
    ahora >= salida - 30
  }

  /**
   * `marcarAsistencia(reservaId, conductorId, asistencia)`. A null string makes
   * `valueOf` throw NullPointerException, and so does a trip without departure
   * time once the earlier checks pass; only PRESENTE and AUSENTE are accepted.
   */
  function MarcarAsistencia(a: Almacen, reservaId: int, conductorId: int, asistencia: Option<string>, ahora: nat): (s: Salida<()>)
    requires Valido(a)
    ensures s.resultado.Failure? ==> s.almacen == a
    ensures asistencia.None? ==> s.resultado == Failure(NullPointer)
    ensures asistencia.Some? && ValueOfAsistencia(asistencia.value) !in {Some(PRESENTE), Some(AUSENTE)} ==>
              s.resultado == Failure(DatoObligatorio(MensajeAsistencia))
    ensures s.resultado.Success? <==>
              asistencia.Some? && ValueOfAsistencia(asistencia.value) in {Some(PRESENTE), Some(AUSENTE)}
              && Existe(a, reservaId) && ViajeDe(a, reservaId).conductorId == conductorId
              && a.reservas[reservaId].estado == CONFIRMADA
              && ViajeDe(a, reservaId).salida.Some? && DentroDeVentana(ViajeDe(a, reservaId).salida.value, ahora)
    ensures s.resultado.Success? ==>
              var r := a.reservas[reservaId];
              s.almacen.viajes == a.viajes && s.almacen.viajeros == a.viajeros && s.almacen.avisos == a.avisos
              && s.almacen.reservas == a.reservas[reservaId := r.(asistencia := ValueOfAsistencia(asistencia.value))]
              && s.almacen.reservas[reservaId].estado == CONFIRMADA
              && s.almacen.historial == a.historial + [HistorialReserva(reservaId, r.viajeId, r.viajeroId, conductorId, ahora, Some(CONFIRMADA), CONFIRMADA)]
  {
    if asistencia.None? then Salida(a, Failure(NullPointer))
    else
      var e := ValueOfAsistencia(asistencia.value);
      if e.None? || e == Some(NO_MARCADO) then Salida(a, Failure(DatoObligatorio(MensajeAsistencia)))
      else if !Existe(a, reservaId) then Salida(a, Failure(NotFound))
      else
        var r := a.reservas[reservaId];
        var v := a.viajes[r.viajeId];
        if v.conductorId != conductorId then Salida(a, Failure(UsuarioNoAutorizado))
        else if r.estado != CONFIRMADA then Salida(a, Failure(ReservaYaExiste))
        else if v.salida.None? then Salida(a, Failure(NullPointer))
        else if !DentroDeVentana(v.salida.value, ahora) then Salida(a, Failure(AccionNoPermitida))
        else
          var r2 := r.(asistencia := e);
          Salida(a.(reservas := a.reservas[reservaId := r2], historial := a.historial + [Entrada(r2, Some(r.estado), v.conductorId, ahora)]), Success(()))
  }

  /** The error order after the value check: lookup, ownership, state, departure time, time window. */
  lemma MarcarAsistenciaErrores(a: Almacen, reservaId: int, conductorId: int, asistencia: string, ahora: nat)
    requires Valido(a)
    requires ValueOfAsistencia(asistencia) in {Some(PRESENTE), Some(AUSENTE)}
    ensures var s := MarcarAsistencia(a, reservaId, conductorId, Some(asistencia), ahora);
            (!Existe(a, reservaId) ==> s.resultado == Failure(NotFound))
            && (Existe(a, reservaId) && ViajeDe(a, reservaId).conductorId != conductorId ==> s.resultado == Failure(UsuarioNoAutorizado))
            && (Existe(a, reservaId) && ViajeDe(a, reservaId).conductorId == conductorId && a.reservas[reservaId].estado != CONFIRMADA ==>
                  s.resultado == Failure(ReservaYaExiste))
            && (Existe(a, reservaId) && ViajeDe(a, reservaId).conductorId == conductorId && a.reservas[reservaId].estado == CONFIRMADA
                && ViajeDe(a, reservaId).salida.None? ==>
                  s.resultado == Failure(NullPointer))
            && (Existe(a, reservaId) && ViajeDe(a, reservaId).conductorId == conductorId && a.reservas[reservaId].estado == CONFIRMADA
                && ViajeDe(a, reservaId).salida.Some? && !DentroDeVentana(ViajeDe(a, reservaId).salida.value, ahora) ==>
                  s.resultado == Failure(AccionNoPermitida))
  {
  }

  lemma MarcarAsistenciaPreservaValido(a: Almacen, reservaId: int, conductorId: int, asistencia: Option<string>, ahora: nat)
    requires Valido(a)
    ensures Valido(MarcarAsistencia(a, reservaId, conductorId, asistencia, ahora).almacen)
  {
    var s := MarcarAsistencia(a, reservaId, conductorId, asistencia, ahora);
    if s.resultado.Success? {
      var r := a.reservas[reservaId];
      ValidoTrasCambio(a, reservaId, r.(asistencia := ValueOfAsistencia(asistencia.value)), s.almacen.historial[|a.historial|], a.viajes);
      assert s.almacen == a.(reservas := s.almacen.reservas, historial := a.historial + [s.almacen.historial[|a.historial|]]);
    }
  }

  // ---------------------------------------------------------------- confirmarPagoReserva

  function UrlViajerosConfirmados(viajeId: int): string {
    "/reserva/viajerosConfirmados?viajeId=" + Decimal(viajeId)
  }

  /**
   * `confirmarPagoReserva(reservaId, viajeroId)`: the owner of a confirmed
   * reservation records the payment; no history row is written. A failed
   * notification to the driver rolls the payment back.
   */
  function ConfirmarPago(a: Almacen, reservaId: int, viajeroId: int, avisoOk: bool): (s: Salida<Reserva>)
    requires Valido(a)
    ensures s.resultado.Failure? ==> s.almacen == a
    ensures !Existe(a, reservaId) ==> s.resultado == Failure(NotFound)
    ensures Existe(a, reservaId) && a.reservas[reservaId].viajeroId != viajeroId ==> s.resultado == Failure(UsuarioNoAutorizado)
    ensures Existe(a, reservaId) && a.reservas[reservaId].viajeroId == viajeroId && a.reservas[reservaId].estado != CONFIRMADA ==>
              s.resultado == Failure(AccionNoPermitida)
    ensures Existe(a, reservaId) && a.reservas[reservaId].viajeroId == viajeroId && a.reservas[reservaId].estado == CONFIRMADA
            && !avisoOk ==>
              s.resultado == Failure(NotificacionFallida)
    ensures s.resultado.Success? <==>
              Existe(a, reservaId) && a.reservas[reservaId].viajeroId == viajeroId && a.reservas[reservaId].estado == CONFIRMADA
              && avisoOk
    ensures s.resultado.Success? ==>
              var r := a.reservas[reservaId];
              var v := ViajeDe(a, reservaId);
              s.resultado.value == r.(estadoPago := Some(PAGADO))
              && s.resultado.value.estado == r.estado
              && s.almacen.reservas == a.reservas[reservaId := s.resultado.value]
              && s.almacen.viajes == a.viajes && s.almacen.viajeros == a.viajeros && s.almacen.historial == a.historial
              && s.almacen.avisos == a.avisos + [Aviso(v.conductorId, PAGO_RECIBIDO, UrlViajerosConfirmados(v.id))]
  {
    if !Existe(a, reservaId) then Salida(a, Failure(NotFound))
    else
      var r := a.reservas[reservaId];
      if r.viajeroId != viajeroId then Salida(a, Failure(UsuarioNoAutorizado))
      else if r.estado != CONFIRMADA then Salida(a, Failure(AccionNoPermitida))
      else if !avisoOk then Salida(a, Failure(NotificacionFallida))
      else
        var r2 := r.(estadoPago := Some(PAGADO));
        var v := a.viajes[r.viajeId];
        Salida(a.(reservas := a.reservas[reservaId := r2], avisos := a.avisos + [Aviso(v.conductorId, PAGO_RECIBIDO, UrlViajerosConfirmados(v.id))]), Success(r2))
  }

  lemma ConfirmarPagoPreservaValido(a: Almacen, reservaId: int, viajeroId: int, avisoOk: bool)
    requires Valido(a)
    ensures Valido(ConfirmarPago(a, reservaId, viajeroId, avisoOk).almacen)
  {
  }

  // ---------------------------------------------------------------- cancelarReservaPorViajero

  /** `rol != null && rol.equalsIgnoreCase("VIAJERO")`. */
  predicate EsViajero(u: Usuario) {
    u.rol.Some? && IgualIgnorandoCaso(u.rol.value, "VIAJERO")
  }

  /** Paid reservations owe a refund once cancelled; every other payment state stays. */
  function PagoTrasCancelar(p: Option<EstadoPago>): (q: Option<EstadoPago>)
    ensures p == Some(PAGADO) ==> q == Some(REEMBOLSO_PENDIENTE)
    ensures p != Some(PAGADO) ==> q == p
  {
    if p == Some(PAGADO) then Some(REEMBOLSO_PENDIENTE) else p
  }

  /**
   * `cancelarReservaPorViajero(idReserva, usuarioEnSesion)`. The seat a
   * confirmed reservation took is not given back. A failed notification
   * (`avisoOk` false) is swallowed.
   */
  function Cancelar(a: Almacen, idReserva: int, usuario: Usuario, ahora: nat, avisoOk: bool): (s: Salida<Reserva>)
    requires Valido(a)
    ensures s.resultado.Failure? ==> s.almacen == a
    ensures !EsViajero(usuario) ==> s.resultado == Failure(UsuarioNoAutorizado)
    ensures EsViajero(usuario) && !Existe(a, idReserva) ==> s.resultado == Failure(ReservaNoEncontrada)
    ensures EsViajero(usuario) && Existe(a, idReserva) && a.reservas[idReserva].viajeroId != usuario.id ==>
              s.resultado == Failure(UsuarioNoAutorizado)
    ensures EsViajero(usuario) && Existe(a, idReserva) && a.reservas[idReserva].viajeroId == usuario.id
            && a.reservas[idReserva].estado !in {CONFIRMADA, PENDIENTE} ==>
              s.resultado == Failure(IllegalState)
    ensures s.resultado.Success? <==>
              EsViajero(usuario) && Existe(a, idReserva) && a.reservas[idReserva].viajeroId == usuario.id
              && a.reservas[idReserva].estado in {CONFIRMADA, PENDIENTE}
    ensures s.resultado.Success? ==>
              var r := a.reservas[idReserva];
              var v := ViajeDe(a, idReserva);
              s.resultado.value == r.(estado := CANCELADA_POR_VIAJERO, estadoPago := PagoTrasCancelar(r.estadoPago))
              && s.almacen.reservas == a.reservas[idReserva := s.resultado.value]
              && s.almacen.viajes == a.viajes && s.almacen.viajeros == a.viajeros
              && s.almacen.historial == a.historial + [HistorialReserva(idReserva, v.id, usuario.id, v.conductorId, ahora, Some(r.estado), CANCELADA_POR_VIAJERO)]
              && s.almacen.avisos == a.avisos + (if avisoOk then [Aviso(v.conductorId, VIAJE_CANCELADO, "/reserva/misReservas")] else [])
  {
    if !EsViajero(usuario) then Salida(a, Failure(UsuarioNoAutorizado))
    else if !Existe(a, idReserva) then Salida(a, Failure(ReservaNoEncontrada))
    else
      var r := a.reservas[idReserva];
      var v := a.viajes[r.viajeId];
      if r.viajeroId != usuario.id then Salida(a, Failure(UsuarioNoAutorizado))
      else if !(r.estado == CONFIRMADA || r.estado == PENDIENTE) then Salida(a, Failure(IllegalState))
      else
        var r2 := r.(estado := CANCELADA_POR_VIAJERO, estadoPago := PagoTrasCancelar(r.estadoPago));
        var h := HistorialReserva(r.id, v.id, usuario.id, v.conductorId, ahora, Some(r.estado), r2.estado);
        var avisos := if avisoOk then a.avisos + [Aviso(v.conductorId, VIAJE_CANCELADO, "/reserva/misReservas")] else a.avisos;
        Salida(a.(reservas := a.reservas[idReserva := r2], historial := a.historial + [h], avisos := avisos), Success(r2))
  }

  lemma CancelarPreservaValido(a: Almacen, idReserva: int, usuario: Usuario, ahora: nat, avisoOk: bool)
    requires Valido(a)
    ensures Valido(Cancelar(a, idReserva, usuario, ahora, avisoOk).almacen)
  {
    var s := Cancelar(a, idReserva, usuario, ahora, avisoOk);
    if s.resultado.Success? {
      ValidoTrasCambio(a, idReserva, s.resultado.value, s.almacen.historial[|a.historial|], a.viajes);
      assert s.almacen == a.(reservas := s.almacen.reservas, historial := a.historial + [s.almacen.historial[|a.historial|]]).(avisos := s.almacen.avisos);
    }
  }

  /**
   * Confirming and then cancelling leaves the trip with one seat fewer than
   * before: cancelling never returns the seat.
   */
  lemma {:induction false} ConfirmarYCancelarPierdeAsiento(a: Almacen, id: int, conductorId: int, usuario: Usuario, t1: nat, t2: nat, avisoOk: bool)
    requires Valido(a)
    requires Confirmar(a, id, conductorId, t1, true).resultado.Success?
    requires EsViajero(usuario) && a.reservas[id].viajeroId == usuario.id
    ensures var b := Confirmar(a, id, conductorId, t1, true).almacen;
            Valido(b)
            && Cancelar(b, id, usuario, t2, avisoOk).resultado.Success?
            && Cancelar(b, id, usuario, t2, avisoOk).almacen.viajes[ViajeDe(a, id).id].asientos.value
               == ViajeDe(a, id).asientos.value - 1
  {
    ConfirmarPreservaValido(a, id, conductorId, t1, true);
    var b := Confirmar(a, id, conductorId, t1, true).almacen;
    assert b.reservas[id].estado == CONFIRMADA && b.reservas[id].viajeroId == usuario.id;
  }

  /** The latest history row of a reservation always names its current state, in every reachable state. */
  lemma HistorialNombraEstadoActual(a: Almacen, id: int)
    requires Valido(a) && Existe(a, id)
    ensures UltimoEstado(a.historial, id) == Some(a.reservas[id].estado)
  {
  }

  // ---------------------------------------------------------------- queries

  /** Departure key used by the repository's `ORDER BY salida ASC` (a null departure sorts first). */
  function ClaveSalida(a: Almacen, r: Reserva): int {
    if r.viajeId in a.viajes && a.viajes[r.viajeId].salida.Some? then a.viajes[r.viajeId].salida.value else -1
  }

  /** `findByViajeroAndEstadoInOrderByViajesFechaSalidaAsc(viajero, [PENDIENTE, RECHAZADA, CONFIRMADA])`. */
  function ConsultaActivas(a: Almacen, viajeroId: int): seq<Reserva> {
    SortBy(Filter(a.reservas, (r: Reserva) => EnConsultaActivas(viajeroId, r)), (r: Reserva) => ClaveSalida(a, r), false)
  }

  /** The service's own filter: a confirmed reservation is listed only while unpaid. */
  predicate SigueActiva(r: Reserva) {
    r.estado == CONFIRMADA ==> r.estadoPago != Some(PAGADO)
  }

  predicate EnConsultaActivas(viajeroId: int, r: Reserva) {
    r.viajeroId == viajeroId && r.estado in {PENDIENTE, RECHAZADA, CONFIRMADA}
  }

  lemma ConsultaActivasContenido(a: Almacen, viajeroId: int)
    ensures SortedBy(ConsultaActivas(a, viajeroId), (r: Reserva) => ClaveSalida(a, r), false)
    ensures forall r :: r in ConsultaActivas(a, viajeroId) <==> r in a.reservas && EnConsultaActivas(viajeroId, r)
  {
    var f := Filter(a.reservas, (r: Reserva) => EnConsultaActivas(viajeroId, r));
    assert ConsultaActivas(a, viajeroId) == SortBy(f, (r: Reserva) => ClaveSalida(a, r), false);
    forall r ensures r in ConsultaActivas(a, viajeroId) <==> r in f {
      SortByMembers(f, (r: Reserva) => ClaveSalida(a, r), false, r);
    }
  }

  /** `listarReservasActivasPorViajero(viajeroId)`. */
  function ListarActivas(a: Almacen, viajeroId: int): (res: Result<seq<Reserva>, Error>)
    ensures viajeroId !in a.viajeros <==> res == Failure(UsuarioInexistente)
    ensures res.Success? ==> SortedBy(res.value, (r: Reserva) => ClaveSalida(a, r), false)
    ensures res.Success? ==> forall r :: r in res.value <==>
              r in a.reservas && EnConsultaActivas(viajeroId, r) && SigueActiva(r)
    ensures res.Success? ==>
              forall r :: multiset(res.value)[r] == (if EnConsultaActivas(viajeroId, r) && SigueActiva(r) then multiset(a.reservas)[r] else 0)
  {
    if viajeroId !in a.viajeros then Failure(UsuarioInexistente)
    else
      var q := ConsultaActivas(a, viajeroId);
      ConsultaActivasContenido(a, viajeroId);
      FilterSorted(q, SigueActiva, (r: Reserva) => ClaveSalida(a, r), false);
      Success(Filter(q, SigueActiva))
  }

  /** `tieneReservaActiva(viajeroId, viajeId)`: a PENDIENTE or CONFIRMADA reservation of the pair exists. */
  function TieneReservaActiva(a: Almacen, viajeroId: int, viajeId: int): (b: bool)
    ensures b <==> exists i :: 0 <= i < |a.reservas| && a.reservas[i].viajeroId == viajeroId
                     && a.reservas[i].viajeId == viajeId && a.reservas[i].estado in {PENDIENTE, CONFIRMADA}
  {
    var activas := Filter(a.reservas, (r: Reserva) => r.viajeroId == viajeroId && r.viajeId == viajeId && r.estado in {PENDIENTE, CONFIRMADA});
    if activas == [] then
      assert forall i :: 0 <= i < |a.reservas| ==> a.reservas[i] in a.reservas;
      false
    else
      assert activas[0] in a.reservas;
      true
  }

  /** A reservation just requested is active; once cancelled by its traveller it no longer is (pairs are unique). */
  lemma {:induction false} SolicitarActivaCancelarDesactiva(a: Almacen, viaje: Viaje, u: Usuario, t1: nat, t2: nat, ok1: bool, ok2: bool)
    requires Valido(a)
    requires Solicitar(a, Some(viaje), Some(u.id), t1, ok1).resultado.Success?
    requires EsViajero(u)
    ensures var s := Solicitar(a, Some(viaje), Some(u.id), t1, ok1);
            var id := s.resultado.value.id;
            Valido(s.almacen)
            && TieneReservaActiva(s.almacen, u.id, viaje.id)
            && Cancelar(s.almacen, id, u, t2, ok2).resultado.Success?
            && !TieneReservaActiva(Cancelar(s.almacen, id, u, t2, ok2).almacen, u.id, viaje.id)
  {
    var s := Solicitar(a, Some(viaje), Some(u.id), t1, ok1);
    SolicitarPreservaValido(a, Some(viaje), Some(u.id), t1, ok1);
    var id := |a.reservas|;
    assert s.almacen.reservas[id].estado == PENDIENTE;
    var c := Cancelar(s.almacen, id, u, t2, ok2).almacen;
    forall i | 0 <= i < |c.reservas| && c.reservas[i].viajeroId == u.id && c.reservas[i].viajeId == viaje.id
      ensures c.reservas[i].estado !in {PENDIENTE, CONFIRMADA}
    {
      if i != id {
        assert false;
      }
    }
  }

  // ---------------------------------------------------------------- the service object

  class ServicioReservaImpl {
    var viajes: map<int, Viaje>
    var viajeros: set<int>
    var reservas: seq<Reserva>
    var historial: seq<HistorialReserva>
    var avisos: seq<Aviso>

    function Estado(): Almacen
      reads this
    {
      Almacen(viajes, viajeros, reservas, historial, avisos)
    }

    /** A service over the given trips and travellers, with no reservation yet. */
    constructor (viajes0: map<int, Viaje>, viajeros0: set<int>)
      requires forall k :: k in viajes0 ==> viajes0[k].id == k && AsientosNoNegativos(viajes0[k])
      ensures Estado() == Almacen(viajes0, viajeros0, [], [], []) && Valido(Estado())
    {
      viajes, viajeros, reservas, historial, avisos := viajes0, viajeros0, [], [], [];
    }

    /** `registrarHistorial`: appends one row and changes nothing else. */
    method RegistrarHistorial(reserva: Reserva, anterior: Option<EstadoReserva>, actorId: int, ahora: nat)
      modifies this
      ensures historial == old(historial) + [Entrada(reserva, anterior, actorId, ahora)]
      ensures viajes == old(viajes) && viajeros == old(viajeros) && reservas == old(reservas) && avisos == old(avisos)
    {
      historial := historial + [Entrada(reserva, anterior, actorId, ahora)];
    }

    method SolicitarReserva(viaje: Option<Viaje>, viajeroId: Option<int>, ahora: nat, avisoOk: bool) returns (res: Result<Reserva, Error>)
      requires Valido(Estado())
      modifies this
      ensures var s := Solicitar(old(Estado()), viaje, viajeroId, ahora, avisoOk); Estado() == s.almacen && res == s.resultado
      ensures Valido(Estado())
    {
      SolicitarPreservaValido(Estado(), viaje, viajeroId, ahora, avisoOk);
      var e := ValidarDatosObligatorios(viaje, viajeroId);
      if e.Some? { return Failure(e.value); }
      var v0, u := viaje.value, viajeroId.value;
      e := ValidarReservaNoExistente(Estado(), v0.id, u);
      if e.Some? { return Failure(e.value); }
      e := ValidarAsientosDisponibles(v0);
      if e.Some? { return Failure(e.value); }
      e := ValidarViajeNoIniciado(v0, ahora);
      if e.Some? { return Failure(e.value); }
      if v0.id !in viajes { return Failure(ViajeNoEncontrado); }
      if u !in viajeros { return Failure(UsuarioInexistente); }
      var v := viajes[v0.id];
      var r := Reserva(|reservas|, v.id, u, PENDIENTE, None, None, None, ahora);
      reservas := reservas + [r];
      RegistrarHistorial(r, None, u, ahora);
      if avisoOk {
        avisos := avisos + [Aviso(v.conductorId, RESERVA_SOLICITADA, UrlListarReservas(v.id))];
      }
      return Success(r);
    }

    method ConfirmarReserva(reservaId: int, conductorId: int, ahora: nat, avisoOk: bool) returns (res: Result<(), Error>)
      requires Valido(Estado())
      modifies this
      ensures var s := Confirmar(old(Estado()), reservaId, conductorId, ahora, avisoOk); Estado() == s.almacen && res == s.resultado
      ensures Valido(Estado())
    {
      ConfirmarPreservaValido(Estado(), reservaId, conductorId, ahora, avisoOk);
      if !(0 <= reservaId < |reservas|) { return Failure(NotFound); }
      var r := reservas[reservaId];
      var v := viajes[r.viajeId];
      if v.conductorId != conductorId { return Failure(UsuarioNoAutorizado); }
      if r.estado != PENDIENTE { return Failure(ReservaYaExiste); }
      if v.asientos.None? || v.asientos.value <= 0 { return Failure(SinAsientosDisponibles); }
      var anterior := r.estado;
      var viajes0, reservas0, historial0 := viajes, reservas, historial;
      viajes := viajes[v.id := v.(asientos := Some(v.asientos.value - 1))];
      r := r.(estado := CONFIRMADA);
      reservas := reservas[reservaId := r];
      RegistrarHistorial(r, Some(anterior), v.conductorId, ahora);
      if !avisoOk {
        // the exception rolls the transaction back
        viajes, reservas, historial := viajes0, reservas0, historial0;
        return Failure(NotificacionFallida);
      }
      avisos := avisos + [Aviso(r.viajeroId, RESERVA_APROBADA, "/reserva/misViajes")];
      return Success(());
    }

    method RechazarReserva(reservaId: int, conductorId: int, motivo: Option<string>, ahora: nat, avisoOk: bool) returns (res: Result<(), Error>)
      requires Valido(Estado())
      modifies this
      ensures var s := Rechazar(old(Estado()), reservaId, conductorId, motivo, ahora, avisoOk); Estado() == s.almacen && res == s.resultado
      ensures Valido(Estado())
    {
      RechazarPreservaValido(Estado(), reservaId, conductorId, motivo, ahora, avisoOk);
      if motivo.None? || Trim(motivo.value) == [] { return Failure(DatoObligatorio("El motivo del rechazo es obligatorio")); }
      if !(0 <= reservaId < |reservas|) { return Failure(NotFound); }
      var r := reservas[reservaId];
      var v := viajes[r.viajeId];
      if v.conductorId != conductorId { return Failure(UsuarioNoAutorizado); }
      if r.estado != PENDIENTE { return Failure(ReservaYaExiste); }
      var anterior := r.estado;
      var reservas0, historial0 := reservas, historial;
      r := r.(estado := RECHAZADA, motivoRechazo := motivo);
      reservas := reservas[reservaId := r];
      RegistrarHistorial(r, Some(anterior), v.conductorId, ahora);
      if !avisoOk {
        reservas, historial := reservas0, historial0;
        return Failure(NotificacionFallida);
      }
      avisos := avisos + [Aviso(r.viajeroId, RESERVA_RECHAZADA, "/reserva/misReservasActivas")];
      return Success(());
    }

    method MarcarAsistenciaReserva(reservaId: int, conductorId: int, asistencia: Option<string>, ahora: nat) returns (res: Result<(), Error>)
      requires Valido(Estado())
      modifies this
      ensures var s := MarcarAsistencia(old(Estado()), reservaId, conductorId, asistencia, ahora); Estado() == s.almacen && res == s.resultado
      ensures Valido(Estado())
    {
      MarcarAsistenciaPreservaValido(Estado(), reservaId, conductorId, asistencia, ahora);
      if asistencia.None? { return Failure(NullPointer); }
      var e := ValueOfAsistencia(asistencia.value);
      if e.None? || e == Some(NO_MARCADO) { return Failure(DatoObligatorio(MensajeAsistencia)); }
      if !(0 <= reservaId < |reservas|) { return Failure(NotFound); }
      var r := reservas[reservaId];
      var v := viajes[r.viajeId];
      if v.conductorId != conductorId { return Failure(UsuarioNoAutorizado); }
      if r.estado != CONFIRMADA { return Failure(ReservaYaExiste); }
      if v.salida.None? { return Failure(NullPointer); }
      if ahora < v.salida.value - 30 { return Failure(AccionNoPermitida); }
      var anterior := r.estado;
      r := r.(asistencia := e);
      reservas := reservas[reservaId := r];
      RegistrarHistorial(r, Some(anterior), v.conductorId, ahora);
      return Success(());
    }

    method ConfirmarPagoReserva(reservaId: int, viajeroId: int, avisoOk: bool) returns (res: Result<Reserva, Error>)
      requires Valido(Estado())
      modifies this
      ensures var s := ConfirmarPago(old(Estado()), reservaId, viajeroId, avisoOk); Estado() == s.almacen && res == s.resultado
      ensures Valido(Estado())
    {
      ConfirmarPagoPreservaValido(Estado(), reservaId, viajeroId, avisoOk);
      if !(0 <= reservaId < |reservas|) { return Failure(NotFound); }
      var r := reservas[reservaId];
      if r.viajeroId != viajeroId { return Failure(UsuarioNoAutorizado); }
      if r.estado != CONFIRMADA { return Failure(AccionNoPermitida); }
      var reservas0 := reservas;
      r := r.(estadoPago := Some(PAGADO));
      reservas := reservas[reservaId := r];
      var v := viajes[r.viajeId];
      if !avisoOk {
        reservas := reservas0;
        return Failure(NotificacionFallida);
      }
      avisos := avisos + [Aviso(v.conductorId, PAGO_RECIBIDO, UrlViajerosConfirmados(v.id))];
      return Success(r);
    }

    method CancelarReservaPorViajero(idReserva: int, usuario: Usuario, ahora: nat, avisoOk: bool) returns (res: Result<Reserva, Error>)
      requires Valido(Estado())
      modifies this
      ensures var s := Cancelar(old(Estado()), idReserva, usuario, ahora, avisoOk); Estado() == s.almacen && res == s.resultado
      ensures Valido(Estado())
    {
      CancelarPreservaValido(Estado(), idReserva, usuario, ahora, avisoOk);
      if usuario.rol.None? || !IgualIgnorandoCaso(usuario.rol.value, "VIAJERO") { return Failure(UsuarioNoAutorizado); }
      if !(0 <= idReserva < |reservas|) { return Failure(ReservaNoEncontrada); }
      var r := reservas[idReserva];
      var v := viajes[r.viajeId];
      if r.viajeroId != usuario.id { return Failure(UsuarioNoAutorizado); }
      if !(r.estado == CONFIRMADA || r.estado == PENDIENTE) { return Failure(IllegalState); }
      var anterior := r.estado;
      r := r.(estado := CANCELADA_POR_VIAJERO);
      if r.estadoPago == Some(PAGADO) {
        r := r.(estadoPago := Some(REEMBOLSO_PENDIENTE));
      }
      reservas := reservas[idReserva := r];
      historial := historial + [HistorialReserva(r.id, v.id, usuario.id, v.conductorId, ahora, Some(anterior), r.estado)];
      if avisoOk {
        avisos := avisos + [Aviso(v.conductorId, VIAJE_CANCELADO, "/reserva/misReservas")];
      }
      return Success(r);
    }
  }
}
