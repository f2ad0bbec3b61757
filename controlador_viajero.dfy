/**
 * `ControladorViajero.irAHome`: the traveller's home page. Without a session
 * id, or with a role other than "VIAJERO", it redirects to the login page
 * before asking any service; otherwise it shows the traveller's name, the
 * unread-notification count and at most three upcoming confirmed trips,
 * soonest first. The services' answers are parameters: `existe` and `nombre`
 * stand for `obtenerViajero`, `noLeidas` for `contarNoLeidas` and
 * `confirmadas` for `listarViajesConfirmadosPorViajero`.
 */
module ControladorViajero {
  import opened Base
  import opened Dominio
  import opened Secuencias
  import opened ControladorReserva

  const RolViajero := "VIAJERO"
  const MaximoProximos := 3

  function Min(a: int, b: int): int { if a <= b then a else b }

  /**
   * `.filter(DISPONIBLE o COMPLETO).sorted(por salida).limit(3)`: the first
   * three of the upcoming trips sorted by departure, or the comparator's
   * `NullPointerException`.
   */
  function ViajesProximos(confirmadas: seq<ReservaConViaje>): (r: Result<seq<ReservaConViaje>, Error>)
    ensures r.Failure? <==> OrdenarPorSalida(Filter(confirmadas, EsProximo), false).Failure?
    ensures r.Success? ==>
              var orden := OrdenarPorSalida(Filter(confirmadas, EsProximo), false).value;
              |r.value| == Min(MaximoProximos, |Filter(confirmadas, EsProximo)|)
              && r.value == orden[..|r.value|]
    ensures r.Success? ==> |r.value| <= MaximoProximos && SortedBy(r.value, Salida, false)
    ensures r.Success? ==> forall i :: 0 <= i < |r.value| ==> r.value[i] in confirmadas && EsProximo(r.value[i])
  {
    var f := Filter(confirmadas, EsProximo);
    match OrdenarPorSalida(f, false)
    case Failure(e) => Failure(e)
    case Success(orden) =>
      var n := Min(MaximoProximos, |orden|);
      var r := orden[..n];
      forall i | 0 <= i < n ensures r[i] in confirmadas && EsProximo(r[i]) {
        assert r[i] == orden[i];
        assert orden[i] in multiset(f);
      }
      Success(r)
  }

  /**
   * The selection is the earliest: an upcoming trip left out departs no
   * sooner than any trip selected.
   */
  lemma LosSeleccionadosSonLosPrimeros(confirmadas: seq<ReservaConViaje>, x: ReservaConViaje, y: ReservaConViaje)
    requires ViajesProximos(confirmadas).Success?
    requires x in ViajesProximos(confirmadas).value
    requires y in confirmadas && EsProximo(y) && y !in ViajesProximos(confirmadas).value
    ensures Salida(x) <= Salida(y)
  {
    var f := Filter(confirmadas, EsProximo);
    var orden := OrdenarPorSalida(f, false).value;
    var r := ViajesProximos(confirmadas).value;
    assert y in multiset(f);
    assert y in orden;
    SortedPrefixIsFirst(orden, Salida, false, |r|, x, y);
  }

  /** With three or fewer upcoming trips, all of them are shown. */
  lemma PocosViajesSeMuestranTodos(confirmadas: seq<ReservaConViaje>, y: ReservaConViaje)
    requires ViajesProximos(confirmadas).Success?
    requires |Filter(confirmadas, EsProximo)| <= MaximoProximos
    requires y in confirmadas && EsProximo(y)
    ensures y in ViajesProximos(confirmadas).value
  {
    var f := Filter(confirmadas, EsProximo);
    var orden := OrdenarPorSalida(f, false).value;
    assert ViajesProximos(confirmadas).value == orden;
    assert y in multiset(f);
  }

  datatype Vista =
    | RedirigirALogin(sesionInvalidada: bool)
    | HomeViajero(viajeroId: int, nombre: string, contador: int, proximos: seq<ReservaConViaje>)

  predicate SesionDeViajero(usuarioId: Option<int>, rol: Option<string>) {
    usuarioId.Some? && rol == Some(RolViajero)
  }

  /**
   * `irAHome(session)`: a redirect without a traveller's session; an unknown
   * traveller invalidates the session and redirects; otherwise the home
   * page. A null departure among the upcoming trips throws.
   */
  function IrAHome(usuarioId: Option<int>, rol: Option<string>,
                   existe: int -> bool, nombre: int -> string, noLeidas: int -> int,
                   confirmadas: int -> seq<ReservaConViaje>): (r: Result<Vista, Error>)
    ensures !SesionDeViajero(usuarioId, rol) ==> r == Success(RedirigirALogin(false))
    ensures SesionDeViajero(usuarioId, rol) && !existe(usuarioId.value) ==> r == Success(RedirigirALogin(true))
    ensures SesionDeViajero(usuarioId, rol) && existe(usuarioId.value) ==>
              (r.Failure? <==> ViajesProximos(confirmadas(usuarioId.value)).Failure?) && (r.Success? ==> r.value.HomeViajero?)
    ensures r.Success? && r.value.HomeViajero? ==>
              SesionDeViajero(usuarioId, rol) && existe(usuarioId.value)
              && r.value.viajeroId == usuarioId.value && r.value.nombre == nombre(usuarioId.value)
              && r.value.contador == noLeidas(usuarioId.value)
              && Success(r.value.proximos) == ViajesProximos(confirmadas(usuarioId.value))
    ensures r.Failure? ==> r.error == NullPointer
  {
    if usuarioId.None? || rol != Some(RolViajero) then Success(RedirigirALogin(false))
    else
      var id := usuarioId.value;
      if !existe(id) then Success(RedirigirALogin(true))
      else
        match ViajesProximos(confirmadas(id))
        case Failure(e) => Failure(e)
        case Success(ps) => Success(HomeViajero(id, nombre(id), noLeidas(id), ps))
  }

  /** Without a traveller's session the answer depends on no service at all. */
  lemma SinSesionNoConsulta(usuarioId: Option<int>, rol: Option<string>,
                            existe: int -> bool, nombre: int -> string, noLeidas: int -> int, confirmadas: int -> seq<ReservaConViaje>,
                            existe': int -> bool, nombre': int -> string, noLeidas': int -> int, confirmadas': int -> seq<ReservaConViaje>)
    requires !SesionDeViajero(usuarioId, rol)
    ensures IrAHome(usuarioId, rol, existe, nombre, noLeidas, confirmadas)
            == IrAHome(usuarioId, rol, existe', nombre', noLeidas', confirmadas')
  {
  }

  /** The role is compared exactly: "viajero" in lower case is sent to the login page. */
  lemma RolEnMinusculasRedirige(id: int, existe: int -> bool, nombre: int -> string, noLeidas: int -> int,
                                confirmadas: int -> seq<ReservaConViaje>)
    ensures IrAHome(Some(id), Some("viajero"), existe, nombre, noLeidas, confirmadas) == Success(RedirigirALogin(false))
  {
    assert "viajero"[0] != RolViajero[0];
  }
}
