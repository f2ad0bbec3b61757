/**
 * The list-building part of `ControladorReserva`: splitting a traveller's
 * active reservations by state (`listarReservasActivas`) and sorting their
 * confirmed trips into upcoming, in progress, finished and cancelled
 * (`listarMisViajes`). The services' lists are parameters; each reservation
 * comes with the trip it points to. Session checks, the model map and the
 * views are left out.
 */
module ControladorReserva {
  import opened Base
  import opened Dominio
  import opened Secuencias

  // ---------------------------------------------------------------- listarReservasActivas

  function EsPendiente(r: Reserva): bool { r.estado == PENDIENTE }
  function EsRechazada(r: Reserva): bool { r.estado == RECHAZADA }
  function EsConfirmada(r: Reserva): bool { r.estado == CONFIRMADA }
  /** `r.getEstadoPago() == EstadoPago.PAGADO`: false while the payment state is null. */
  function EstaPagada(r: Reserva): bool { r.estadoPago == Some(PAGADO) }

  datatype ReservasActivas = ReservasActivas(
    pendientes: seq<Reserva>, rechazadas: seq<Reserva>, confirmadas: seq<Reserva>, pagadas: seq<Reserva>)

  /**
   * The four lists of the page: the active reservations split by state, in
   * their order, and the paid ones among the traveller's confirmed trips.
   */
  function SepararReservasActivas(activas: seq<Reserva>, confirmadasDelViajero: seq<Reserva>): (p: ReservasActivas)
    ensures forall r :: r in p.pendientes <==> r in activas && r.estado == PENDIENTE
    ensures forall r :: r in p.rechazadas <==> r in activas && r.estado == RECHAZADA
    ensures forall r :: r in p.confirmadas <==> r in activas && r.estado == CONFIRMADA
    ensures forall r :: r in p.pagadas <==> r in confirmadasDelViajero && r.estadoPago == Some(PAGADO)
    ensures forall r :: r in p.pendientes ==> r !in p.rechazadas && r !in p.confirmadas
    ensures forall r :: r in p.rechazadas ==> r !in p.confirmadas
    ensures p.pendientes == Filter(activas, EsPendiente) && p.rechazadas == Filter(activas, EsRechazada)
    ensures p.confirmadas == Filter(activas, EsConfirmada) && p.pagadas == Filter(confirmadasDelViajero, EstaPagada)
  {
    ReservasActivas(
      Filter(activas, EsPendiente), Filter(activas, EsRechazada),
      Filter(activas, EsConfirmada), Filter(confirmadasDelViajero, EstaPagada))
  }

  /**
   * When every reservation is pending, rejected or confirmed (as the service's
   * active list always is), the three lists share them out with none left over.
   */
  lemma {:induction false} SepararCubreTodo(activas: seq<Reserva>)
    requires forall i :: 0 <= i < |activas| ==> activas[i].estado in {PENDIENTE, RECHAZADA, CONFIRMADA}
    ensures |Filter(activas, EsPendiente)| + |Filter(activas, EsRechazada)| + |Filter(activas, EsConfirmada)| == |activas|
    decreases |activas|
  {
    if activas != [] {
      assert activas[0].estado in {PENDIENTE, RECHAZADA, CONFIRMADA};
      SepararCubreTodo(activas[1..]);
    }
  }

  // ---------------------------------------------------------------- listarMisViajes

  /** A reservation together with its trip, as `r.getViaje()` reaches it. */
  datatype ReservaConViaje = ReservaConViaje(reserva: Reserva, viaje: Viaje)

  /** The comparator's key; a null departure never takes part in a comparison that succeeds. */
  function Salida(rv: ReservaConViaje): int {
    if rv.viaje.salida.Some? then rv.viaje.salida.value else -1
  }

  predicate HaySalidaNula(s: seq<ReservaConViaje>) {
    exists i :: 0 <= i < |s| && s[i].viaje.salida.None?
  }

  /**
   * `.sorted(comparador por fechaHoraDeSalida)`: the stable sort compares
   * every element of a list of two or more, and `compareTo` throws on a null
   * departure, so such a list fails as soon as one departure is null.
   */
  function OrdenarPorSalida(s: seq<ReservaConViaje>, desc: bool): (r: Result<seq<ReservaConViaje>, Error>)
    ensures r.Failure? <==> |s| >= 2 && HaySalidaNula(s)
    ensures r.Failure? ==> r.error == NullPointer
    ensures r.Success? ==> |r.value| == |s| && multiset(r.value) == multiset(s) && SortedBy(r.value, Salida, desc)
  {
    if |s| >= 2 && HaySalidaNula(s) then Failure(NullPointer) else Success(SortBy(s, Salida, desc))
  }

  function EsProximo(rv: ReservaConViaje): bool { rv.viaje.estado == DISPONIBLE || rv.viaje.estado == COMPLETO }
  function EsEnCurso(rv: ReservaConViaje): bool { rv.viaje.estado == EN_CURSO }
  function EsFinalizado(rv: ReservaConViaje): bool { rv.viaje.estado == FINALIZADO }

  datatype Categorias = Categorias(
    proximos: seq<ReservaConViaje>, enCurso: seq<ReservaConViaje>,
    finalizados: seq<ReservaConViaje>, cancelados: seq<ReservaConViaje>)

  /** The trip's state decides the category; the four sorts run in source order. */
  function Categorizar(confirmadas: seq<ReservaConViaje>, canceladas: seq<ReservaConViaje>): (r: Result<Categorias, Error>)
    ensures r.Failure? <==>
              OrdenarPorSalida(Filter(confirmadas, EsProximo), false).Failure?
              || OrdenarPorSalida(Filter(confirmadas, EsEnCurso), false).Failure?
              || OrdenarPorSalida(Filter(confirmadas, EsFinalizado), true).Failure?
              || OrdenarPorSalida(canceladas, true).Failure?
    ensures r.Failure? ==> r.error == NullPointer
    ensures r.Success? ==>
              multiset(r.value.proximos) == multiset(Filter(confirmadas, EsProximo)) && SortedBy(r.value.proximos, Salida, false)
              && multiset(r.value.enCurso) == multiset(Filter(confirmadas, EsEnCurso)) && SortedBy(r.value.enCurso, Salida, false)
              && multiset(r.value.finalizados) == multiset(Filter(confirmadas, EsFinalizado)) && SortedBy(r.value.finalizados, Salida, true)
              && multiset(r.value.cancelados) == multiset(canceladas) && SortedBy(r.value.cancelados, Salida, true)
  {
    var p := OrdenarPorSalida(Filter(confirmadas, EsProximo), false);
    var e := OrdenarPorSalida(Filter(confirmadas, EsEnCurso), false);
    var f := OrdenarPorSalida(Filter(confirmadas, EsFinalizado), true);
    var c := OrdenarPorSalida(canceladas, true);
    if p.Failure? || e.Failure? || f.Failure? || c.Failure? then Failure(NullPointer)
    else Success(Categorias(p.value, e.value, f.value, c.value))
  }

  /** A confirmed reservation is in exactly the category of its trip's state, and so in at most one. */
  lemma CategoriaUnica(confirmadas: seq<ReservaConViaje>, canceladas: seq<ReservaConViaje>, rv: ReservaConViaje)
    requires Categorizar(confirmadas, canceladas).Success?
    ensures var c := Categorizar(confirmadas, canceladas).value;
            (rv in c.proximos <==> rv in confirmadas && EsProximo(rv))
            && (rv in c.enCurso <==> rv in confirmadas && EsEnCurso(rv))
            && (rv in c.finalizados <==> rv in confirmadas && EsFinalizado(rv))
            && (rv in c.proximos ==> rv !in c.enCurso && rv !in c.finalizados)
            && (rv in c.enCurso ==> rv !in c.finalizados)
  {
    var c := Categorizar(confirmadas, canceladas).value;
    assert rv in c.proximos <==> rv in multiset(c.proximos);
    assert rv in c.enCurso <==> rv in multiset(c.enCurso);
    assert rv in c.finalizados <==> rv in multiset(c.finalizados);
  }

  predicate SalidasFijadas(s: seq<ReservaConViaje>) {
    forall i :: 0 <= i < |s| ==> s[i].viaje.salida.Some?
  }

  lemma FiltroSalidasFijadas(s: seq<ReservaConViaje>, q: ReservaConViaje -> bool)
    requires SalidasFijadas(s)
    ensures SalidasFijadas(Filter(s, q))
  {
    var f := Filter(s, q);
    forall i | 0 <= i < |f| ensures f[i].viaje.salida.Some? {
      assert f[i] in s;
    }
  }

  /** Lists whose departures are all set are always sorted without error. */
  lemma SinSalidasNulasNoFalla(confirmadas: seq<ReservaConViaje>, canceladas: seq<ReservaConViaje>)
    requires SalidasFijadas(confirmadas) && SalidasFijadas(canceladas)
    ensures Categorizar(confirmadas, canceladas).Success?
  {
    FiltroSalidasFijadas(confirmadas, EsProximo);
    FiltroSalidasFijadas(confirmadas, EsEnCurso);
    FiltroSalidasFijadas(confirmadas, EsFinalizado);
  }

  /** One trip with a null departure is not compared, so it is listed. */
  lemma UnaSalidaNulaNoFalla(rv: ReservaConViaje, desc: bool)
    requires rv.viaje.salida.None?
    ensures OrdenarPorSalida([rv], desc) == Success([rv])
  {
    var r := SortBy([rv], Salida, desc);
    assert r[0] in multiset(r);
    assert r == [rv];
  }

  /** Two trips, one of them without a departure, make the sort throw. */
  lemma DosConSalidaNulaFalla(a: ReservaConViaje, b: ReservaConViaje, desc: bool)
    requires b.viaje.salida.None?
    ensures OrdenarPorSalida([a, b], desc) == Failure(NullPointer)
  {
    assert [a, b][1].viaje.salida.None?;
  }

  /** `ViajeConfirmadoViajeroDTO` with the rating flag the finished list sets. */
  datatype ViajeConfirmadoDTO = ViajeConfirmadoDTO(
    viajeId: int, estadoViaje: EstadoDeViaje, salida: Option<nat>, valoracionPendiente: bool)

  function ADto(rv: ReservaConViaje, valoracionPendiente: bool): (d: ViajeConfirmadoDTO)
    ensures d.viajeId == rv.viaje.id && d.estadoViaje == rv.viaje.estado && d.salida == rv.viaje.salida
    ensures d.valoracionPendiente == valoracionPendiente
  {
    ViajeConfirmadoDTO(rv.viaje.id, rv.viaje.estado, rv.viaje.salida, valoracionPendiente)
  }

  function ADtos(s: seq<ReservaConViaje>): (r: seq<ViajeConfirmadoDTO>)
    ensures |r| == |s|
    ensures forall i :: 0 <= i < |s| ==> r[i] == ADto(s[i], false)
    decreases |s|
  {
    if s == [] then [] else [ADto(s[0], false)] + ADtos(s[1..])
  }

  /** The finished trips' DTOs: a rating is pending exactly when the driver of that trip was not yet rated. */
  function ADtosFinalizados(s: seq<ReservaConViaje>, yaValorado: (int, int) -> bool): (r: seq<ViajeConfirmadoDTO>)
    ensures |r| == |s|
    ensures forall i :: 0 <= i < |s| ==>
              r[i].viajeId == s[i].viaje.id && r[i].salida == s[i].viaje.salida && r[i].estadoViaje == s[i].viaje.estado
              && (r[i].valoracionPendiente <==> s[i].viaje.estado == FINALIZADO && !yaValorado(s[i].viaje.conductorId, s[i].viaje.id))
    decreases |s|
  {
    if s == [] then []
    else
      var v := s[0].viaje;
      var pendiente := v.estado == FINALIZADO && !yaValorado(v.conductorId, v.id);
      [ADto(s[0], pendiente)] + ADtosFinalizados(s[1..], yaValorado)
  }

  datatype MisViajes = MisViajes(
    proximos: seq<ViajeConfirmadoDTO>, enCurso: seq<ViajeConfirmadoDTO>,
    finalizados: seq<ViajeConfirmadoDTO>, cancelados: seq<ViajeConfirmadoDTO>)

  /** Every trip listed in a category has that category's state. */
  lemma CategoriasPorEstado(c: Categorias, confirmadas: seq<ReservaConViaje>, canceladas: seq<ReservaConViaje>)
    requires Categorizar(confirmadas, canceladas) == Success(c)
    ensures forall i :: 0 <= i < |c.proximos| ==> EsProximo(c.proximos[i])
    ensures forall i :: 0 <= i < |c.enCurso| ==> EsEnCurso(c.enCurso[i])
    ensures forall i :: 0 <= i < |c.finalizados| ==> EsFinalizado(c.finalizados[i])
  {
    forall i | 0 <= i < |c.proximos| ensures EsProximo(c.proximos[i]) {
      assert c.proximos[i] in multiset(c.proximos);
    }
    forall i | 0 <= i < |c.enCurso| ensures EsEnCurso(c.enCurso[i]) {
      assert c.enCurso[i] in multiset(c.enCurso);
    }
    forall i | 0 <= i < |c.finalizados| ensures EsFinalizado(c.finalizados[i]) {
      assert c.finalizados[i] in multiset(c.finalizados);
    }
  }

  /**
   * `listarMisViajes`: the four lists of DTOs; `yaValorado(conductorId, viajeId)`
   * is the rating service's answer for the traveller in session. Upcoming
   * trips are listed soonest first, and only a finished trip whose driver was
   * not yet rated is marked as waiting for a rating.
   */
  function ListarMisViajes(confirmadas: seq<ReservaConViaje>, canceladas: seq<ReservaConViaje>, yaValorado: (int, int) -> bool)
    : (r: Result<MisViajes, Error>)
    ensures r.Failure? <==> Categorizar(confirmadas, canceladas).Failure?
    ensures r.Failure? ==> r.error == NullPointer
    ensures r.Success? ==>
              var c := Categorizar(confirmadas, canceladas).value;
              r.value.proximos == ADtos(c.proximos) && r.value.enCurso == ADtos(c.enCurso)
              && r.value.cancelados == ADtos(c.cancelados) && r.value.finalizados == ADtosFinalizados(c.finalizados, yaValorado)
    ensures r.Success? ==>
              var c := Categorizar(confirmadas, canceladas).value;
              |r.value.proximos| == |c.proximos| && |r.value.enCurso| == |c.enCurso|
              && |r.value.finalizados| == |c.finalizados| && |r.value.cancelados| == |c.cancelados|
              && (forall i :: 0 <= i < |c.finalizados| ==>
                    r.value.finalizados[i].viajeId == c.finalizados[i].viaje.id
                    && (r.value.finalizados[i].valoracionPendiente <==> !yaValorado(c.finalizados[i].viaje.conductorId, c.finalizados[i].viaje.id)))
    ensures r.Success? ==>
              (forall i :: 0 <= i < |r.value.proximos| ==>
                 !r.value.proximos[i].valoracionPendiente && (r.value.proximos[i].estadoViaje == DISPONIBLE || r.value.proximos[i].estadoViaje == COMPLETO))
              && (forall i :: 0 <= i < |r.value.enCurso| ==> r.value.enCurso[i].estadoViaje == EN_CURSO)
              && (forall i :: 0 <= i < |r.value.finalizados| ==> r.value.finalizados[i].estadoViaje == FINALIZADO)
  {
    var cat := Categorizar(confirmadas, canceladas);
    if cat.Failure? then Failure(cat.error)
    else
      var c := cat.value;
      CategoriasPorEstado(c, confirmadas, canceladas);
      Success(MisViajes(ADtos(c.proximos), ADtos(c.enCurso), ADtosFinalizados(c.finalizados, yaValorado), ADtos(c.cancelados)))
  }

  /** The upcoming DTOs keep the ascending order of their departures. */
  lemma ProximosOrdenados(confirmadas: seq<ReservaConViaje>, canceladas: seq<ReservaConViaje>, yaValorado: (int, int) -> bool, i: int, j: int)
    requires ListarMisViajes(confirmadas, canceladas, yaValorado).Success?
    requires 0 <= i < j < |ListarMisViajes(confirmadas, canceladas, yaValorado).value.proximos|
    ensures var p := ListarMisViajes(confirmadas, canceladas, yaValorado).value.proximos;
            p[i].salida.Some? && p[j].salida.Some? ==> p[i].salida.value <= p[j].salida.value
  {
    var c := Categorizar(confirmadas, canceladas).value;
    assert Before(Salida, false, c.proximos[i], c.proximos[j]);
  }
}
