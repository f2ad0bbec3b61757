/**
 * `ServicioValoracionImpl`: a user rates another user of a finished trip,
 * once per (rater, rated, trip); and the travellers of a trip are listed for
 * rating. The stores behind the trip, user, traveller and rating repositories
 * are the fields of `AlmacenValoraciones`; the reservations of a trip, which
 * the entity holds as a lazy list, are the travellers they name (or none,
 * for a reservation without one).
 */
module ServicioValoracion {
  import opened Base
  import opened Dominio

  /** A saved rating: `new Valoracion(emisor, receptor, puntuacion, comentario, viaje)`. */
  datatype Valoracion = Valoracion(emisorId: int, receptorId: int, puntuacion: int, comentario: Option<string>, viajeId: int)

  /** `ValoracionIndividualInputDTO`. */
  datatype ValoracionInput = ValoracionInput(receptorId: int, puntuacion: Option<int>, comentario: Option<string>)

  datatype AlmacenValoraciones = AlmacenValoraciones(
    viajes: map<int, Viaje>,
    usuarios: set<int>,
    viajeros: set<int>,
    valoraciones: seq<Valoracion>,
    reservasPorViaje: map<int, seq<Option<int>>>)

  datatype Salida = Salida(almacen: AlmacenValoraciones, resultado: Result<(), Error>)

  /** `yaExisteValoracionParaViaje(emisorId, receptorId, viajeId)`. */
  predicate YaExiste(vs: seq<Valoracion>, emisorId: int, receptorId: int, viajeId: int) {
    exists i :: 0 <= i < |vs| && vs[i].emisorId == emisorId && vs[i].receptorId == receptorId && vs[i].viajeId == viajeId
  }

  /** What every sequence of successful ratings keeps: scores 1..5, nobody rated by themself, no pair rated twice for one trip. */
  predicate Valido(vs: seq<Valoracion>) {
    (forall i :: 0 <= i < |vs| ==> 1 <= vs[i].puntuacion <= 5 && vs[i].emisorId != vs[i].receptorId)
    && (forall i, j :: 0 <= i < j < |vs| ==>
          !(vs[i].emisorId == vs[j].emisorId && vs[i].receptorId == vs[j].receptorId && vs[i].viajeId == vs[j].viajeId))
  }

  predicate PuntuacionInvalida(p: Option<int>) {
    p.None? || p.value < 1 || p.value > 5
  }

  const MensajeAutovaloracion := "Error. No podes valorarte a vos mismo"
  const MensajePuntuacion := "La valoracion debe estar entre 1 y 5"
  const MensajeViajeInexistente := "El Viaje no existe para registrar la valoración."
  const MensajeNoFinalizado := "Solo puedes valorar viajes finalizados."
  const MensajeRepetida := "Ya has valorado a este usuario para este viaje."

  /** Every guard of `valorarUsuario` passes. */
  predicate PuedeValorar(a: AlmacenValoraciones, emisor: Usuario, dto: ValoracionInput, viajeId: int) {
    emisor.id != dto.receptorId
    && !PuntuacionInvalida(dto.puntuacion)
    && viajeId in a.viajes
    && dto.receptorId in a.usuarios
    && a.viajes[viajeId].estado == FINALIZADO
    && !YaExiste(a.valoraciones, emisor.id, dto.receptorId, viajeId)
  }

  /**
   * `valorarUsuario(emisor, dto, viajeId)`: the guards run in source order
   * (self-rating, score, trip, receptor, trip state, duplicate); the first
   * that fails decides the exception and nothing is saved. When all pass,
   * exactly one rating with the given fields is appended.
   */
  function Valorar(a: AlmacenValoraciones, emisor: Usuario, dto: ValoracionInput, viajeId: int): (s: Salida)
    ensures s.resultado.Failure? ==> s.almacen == a
    ensures emisor.id == dto.receptorId ==> s.resultado == Failure(DatoObligatorio(MensajeAutovaloracion))
    ensures emisor.id != dto.receptorId && PuntuacionInvalida(dto.puntuacion) ==>
              s.resultado == Failure(DatoObligatorio(MensajePuntuacion))
    ensures emisor.id != dto.receptorId && !PuntuacionInvalida(dto.puntuacion) && viajeId !in a.viajes ==>
              s.resultado == Failure(DatoObligatorio(MensajeViajeInexistente))
    ensures emisor.id != dto.receptorId && !PuntuacionInvalida(dto.puntuacion) && viajeId in a.viajes && dto.receptorId !in a.usuarios ==>
              s.resultado == Failure(UsuarioInexistente)
    ensures emisor.id != dto.receptorId && !PuntuacionInvalida(dto.puntuacion) && viajeId in a.viajes && dto.receptorId in a.usuarios
            && a.viajes[viajeId].estado != FINALIZADO ==>
              s.resultado == Failure(DatoObligatorio(MensajeNoFinalizado))
    ensures emisor.id != dto.receptorId && !PuntuacionInvalida(dto.puntuacion) && viajeId in a.viajes && dto.receptorId in a.usuarios
            && a.viajes[viajeId].estado == FINALIZADO && YaExiste(a.valoraciones, emisor.id, dto.receptorId, viajeId) ==>
              s.resultado == Failure(DatoObligatorio(MensajeRepetida))
    ensures s.resultado.Success? <==> PuedeValorar(a, emisor, dto, viajeId)
    ensures s.resultado.Success? ==>
              s.almacen == a.(valoraciones := a.valoraciones + [Valoracion(emisor.id, dto.receptorId, dto.puntuacion.value, dto.comentario, viajeId)])
  {
    if emisor.id == dto.receptorId then Salida(a, Failure(DatoObligatorio(MensajeAutovaloracion)))
    else if PuntuacionInvalida(dto.puntuacion) then Salida(a, Failure(DatoObligatorio(MensajePuntuacion)))
    else if viajeId !in a.viajes then Salida(a, Failure(DatoObligatorio(MensajeViajeInexistente)))
    else if dto.receptorId !in a.usuarios then Salida(a, Failure(UsuarioInexistente))
    else if a.viajes[viajeId].estado != FINALIZADO then Salida(a, Failure(DatoObligatorio(MensajeNoFinalizado)))
    else if YaExiste(a.valoraciones, emisor.id, dto.receptorId, viajeId) then Salida(a, Failure(DatoObligatorio(MensajeRepetida)))
    else
      var v := Valoracion(emisor.id, dto.receptorId, dto.puntuacion.value, dto.comentario, viajeId);
      Salida(a.(valoraciones := a.valoraciones + [v]), Success(()))
  }

  lemma ValorarPreservaValido(a: AlmacenValoraciones, emisor: Usuario, dto: ValoracionInput, viajeId: int)
    requires Valido(a.valoraciones)
    ensures Valido(Valorar(a, emisor, dto, viajeId).almacen.valoraciones)
  {
    var s := Valorar(a, emisor, dto, viajeId);
    if s.resultado.Success? {
      var vs := s.almacen.valoraciones;
      var n := |a.valoraciones|;
      forall i, j | 0 <= i < j < |vs|
        ensures !(vs[i].emisorId == vs[j].emisorId && vs[i].receptorId == vs[j].receptorId && vs[i].viajeId == vs[j].viajeId)
      {
        if j == n {
          assert vs[i] == a.valoraciones[i];
        }
      }
    }
  }

  /** After a successful rating, the identical call is refused as a repeat and saves nothing. */
  lemma {:induction false} ValorarDosVecesFalla(a: AlmacenValoraciones, emisor: Usuario, dto: ValoracionInput, viajeId: int)
    requires Valorar(a, emisor, dto, viajeId).resultado.Success?
    ensures var b := Valorar(a, emisor, dto, viajeId).almacen;
            Valorar(b, emisor, dto, viajeId) == Salida(b, Failure(DatoObligatorio(MensajeRepetida)))
  {
    var b := Valorar(a, emisor, dto, viajeId).almacen;
    assert b.valoraciones[|a.valoraciones|].emisorId == emisor.id;
    assert YaExiste(b.valoraciones, emisor.id, dto.receptorId, viajeId);
  }

  /** `obtenerViajero(viajeroId)`. */
  function ObtenerViajero(a: AlmacenValoraciones, viajeroId: int): (r: Result<int, Error>)
    ensures r.Success? <==> viajeroId in a.viajeros
    ensures r.Success? ==> r.value == viajeroId
    ensures r.Failure? ==> r.error == UsuarioInexistente
  {
    if viajeroId in a.viajeros then Success(viajeroId) else Failure(UsuarioInexistente)
  }

  /** `obtenerUsuario(usuarioId)`. */
  function ObtenerUsuario(a: AlmacenValoraciones, usuarioId: int): (r: Result<int, Error>)
    ensures r.Success? <==> usuarioId in a.usuarios
    ensures r.Success? ==> r.value == usuarioId
    ensures r.Failure? ==> r.error == UsuarioInexistente
  {
    if usuarioId in a.usuarios then Success(usuarioId) else Failure(UsuarioInexistente)
  }

  /** `.map(Reserva::getViajero).filter(Objects::nonNull)`: the travellers named, in order. */
  function NoNulos(s: seq<Option<int>>): (r: seq<int>)
    ensures |r| <= |s|
    ensures forall x :: x in r <==> Some(x) in s
    ensures |r| == |s| <==> forall i :: 0 <= i < |s| ==> s[i].Some?
    decreases |s|
  {
    if s == [] then []
    else if s[0].Some? then [s[0].value] + NoNulos(s[1..])
    else
      assert !(forall i :: 0 <= i < |s| ==> s[i].Some?);
      NoNulos(s[1..])
  }

  /** The filter keeps the order: the travellers of two runs of reservations come one after the other. */
  lemma {:induction false} NoNulosConcat(s: seq<Option<int>>, t: seq<Option<int>>)
    ensures NoNulos(s + t) == NoNulos(s) + NoNulos(t)
    decreases |s|
  {
    if s == [] {
      assert s + t == t;
    } else {
      assert (s + t)[0] == s[0] && (s + t)[1..] == s[1..] + t;
      NoNulosConcat(s[1..], t);
    }
  }

  /** `obtenerViajeros(viajeId)`: an unknown trip is an error; otherwise the travellers of its reservations. */
  function ObtenerViajeros(a: AlmacenValoraciones, viajeId: int): (r: Result<seq<int>, Error>)
    ensures r.Failure? <==> viajeId !in a.viajes
    ensures r.Failure? ==> r.error == ViajeNoEncontrado
    ensures r.Success? ==>
              var rs := if viajeId in a.reservasPorViaje then a.reservasPorViaje[viajeId] else [];
              r.value == NoNulos(rs) && (forall x :: x in r.value <==> Some(x) in rs)
  {
    if viajeId !in a.viajes then Failure(ViajeNoEncontrado)
    else
      var rs := if viajeId in a.reservasPorViaje then a.reservasPorViaje[viajeId] else [];
      if rs == [] then Success([]) else Success(NoNulos(rs))
  }

  class ServicioValoracionImpl {
    var viajes: map<int, Viaje>
    var usuarios: set<int>
    var viajeros: set<int>
    var valoraciones: seq<Valoracion>
    var reservasPorViaje: map<int, seq<Option<int>>>

    function Estado(): AlmacenValoraciones
      reads this
    {
      AlmacenValoraciones(viajes, usuarios, viajeros, valoraciones, reservasPorViaje)
    }

    constructor (viajes0: map<int, Viaje>, usuarios0: set<int>, viajeros0: set<int>, reservas0: map<int, seq<Option<int>>>)
      ensures Estado() == AlmacenValoraciones(viajes0, usuarios0, viajeros0, [], reservas0)
      ensures Valido(valoraciones)
    {
      viajes, usuarios, viajeros, valoraciones, reservasPorViaje := viajes0, usuarios0, viajeros0, [], reservas0;
    }

    method ValorarUsuario(emisor: Usuario, dto: ValoracionInput, viajeId: int) returns (res: Result<(), Error>)
      requires Valido(valoraciones)
      modifies this`valoraciones
      ensures var s := Valorar(old(Estado()), emisor, dto, viajeId); Estado() == s.almacen && res == s.resultado
      ensures Valido(valoraciones)
    {
      ValorarPreservaValido(Estado(), emisor, dto, viajeId);
      if emisor.id == dto.receptorId { return Failure(DatoObligatorio(MensajeAutovaloracion)); }
      if dto.puntuacion.None? || dto.puntuacion.value < 1 || dto.puntuacion.value > 5 {
        return Failure(DatoObligatorio(MensajePuntuacion));
      }
      if viajeId !in viajes { return Failure(DatoObligatorio(MensajeViajeInexistente)); }
      if dto.receptorId !in usuarios { return Failure(UsuarioInexistente); }
      if viajes[viajeId].estado != FINALIZADO { return Failure(DatoObligatorio(MensajeNoFinalizado)); }
      if YaExiste(valoraciones, emisor.id, dto.receptorId, viajeId) { return Failure(DatoObligatorio(MensajeRepetida)); }
      valoraciones := valoraciones + [Valoracion(emisor.id, dto.receptorId, dto.puntuacion.value, dto.comentario, viajeId)];
      return Success(());
    }
  }
}
