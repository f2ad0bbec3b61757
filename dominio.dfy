/**
 * The entities and enumerations the services share, and the exceptions they
 * throw. Ids are integers; an association (a reservation's trip, a trip's
 * driver) is held as the id of the other entity; a nullable column is an
 * `Option`; a `LocalDateTime` is a count of minutes and a `LocalDate` a count
 * of days.
 */
module Dominio {
  import opened Base

  datatype EstadoReserva = PENDIENTE | CONFIRMADA | RECHAZADA | CANCELADA_POR_VIAJERO | CANCELADA_POR_CONDUCTOR

  datatype EstadoPago = NO_PAGADO | PAGADO | REEMBOLSO_PENDIENTE | REEMBOLSADA | NO_CORRESPONDE_REMBOLSO

  datatype EstadoAsistencia = PRESENTE | AUSENTE | NO_MARCADO

  datatype EstadoDeViaje = DISPONIBLE | COMPLETO | EN_CURSO | FINALIZADO | CANCELADO

  datatype TipoNotificacion = RESERVA_SOLICITADA | RESERVA_APROBADA | RESERVA_RECHAZADA | PAGO_RECIBIDO | VIAJE_CANCELADO

  /** The checked and unchecked exceptions the core throws, one constructor per class. */
  datatype Error =
    | DatoObligatorio(mensaje: string)
    | ReservaYaExiste
    | SinAsientosDisponibles
    | ViajeYaIniciado
    | NotFound
    | UsuarioNoAutorizado
    | AccionNoPermitida
    | ReservaNoEncontrada
    | IllegalState
    | UsuarioInexistente
    | ViajeNoEncontrado
    | EdadInvalida(mensaje: string)
    | UsuarioExistente
    | FechaDeVencimientoDeLicenciaInvalida
    | CredencialesInvalidas
    | PatenteDuplicada
    | NoSuchElement
    | NullPointer
    | NominatimResponse
    | JsonProcessing
    | EscrituraFallida
    /** The notification service threw: the transaction that sent it is rolled back. */
    | NotificacionFallida

  /** A trip: the fields the modelled operations read. */
  datatype Viaje = Viaje(
    id: int,
    conductorId: int,
    origenId: int,
    destinoId: int,
    salida: Option<nat>,
    asientos: Option<int>,
    estado: EstadoDeViaje)

  /** A reservation; `estadoPago` and `asistencia` stay null until a service sets them. */
  datatype Reserva = Reserva(
    id: int,
    viajeId: int,
    viajeroId: int,
    estado: EstadoReserva,
    estadoPago: Option<EstadoPago>,
    asistencia: Option<EstadoAsistencia>,
    motivoRechazo: Option<string>,
    fechaSolicitud: int)

  /** One row of the reservation history; `actorId` is the column called `conductor`. */
  datatype HistorialReserva = HistorialReserva(
    reservaId: int,
    viajeId: int,
    viajeroId: int,
    actorId: int,
    fecha: int,
    anterior: Option<EstadoReserva>,
    nuevo: EstadoReserva)

  /** A call to `crearYEnviar`: recipient, type and deep link (the message text is not modelled). */
  datatype Aviso = Aviso(destinatarioId: int, tipo: TipoNotificacion, url: string)

  /** A user as the session holds it. */
  datatype Usuario = Usuario(id: int, rol: Option<string>)
}
