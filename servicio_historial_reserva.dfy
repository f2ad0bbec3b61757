/**
 * `ServicioHistorialReservaImpl`: the driver of a trip reads the history of
 * its reservations. The history repository's `findByViaje` keeps the rows of
 * the trip ordered by event time, ascending; each row becomes a DTO that
 * carries its trip, time and both states (the display names and the date
 * formatting of the DTO, and the generated id of each row that it copies,
 * are left out).
 */
module ServicioHistorialReserva {
  import opened Base
  import opened Dominio
  import opened Secuencias

  datatype HistorialReservaDTO = HistorialReservaDTO(
    idViaje: int, fechaEvento: int,
    estadoAnterior: Option<EstadoReserva>, estadoNuevo: EstadoReserva)

  /** `new HistorialReservaDTO(historial)`: the states are copied unchanged. */
  function ADto(h: HistorialReserva): (d: HistorialReservaDTO)
    ensures d.estadoAnterior == h.anterior && d.estadoNuevo == h.nuevo
    ensures d.idViaje == h.viajeId && d.fechaEvento == h.fecha
  {
    HistorialReservaDTO(h.viajeId, h.fecha, h.anterior, h.nuevo)
  }

  function Fecha(h: HistorialReserva): int {
    h.fecha
  }

  /** `.stream().map(HistorialReservaDTO::new)`: one DTO per row, in order. */
  function ADtos(s: seq<HistorialReserva>): (r: seq<HistorialReservaDTO>)
    ensures |r| == |s|
    ensures forall i :: 0 <= i < |s| ==> r[i] == ADto(s[i])
    decreases |s|
  {
    if s == [] then [] else [ADto(s[0])] + ADtos(s[1..])
  }

  /** `findByViaje(viaje)`: the rows of the trip, `ORDER BY fechaEvento ASC`. */
  function FindByViaje(h: seq<HistorialReserva>, viajeId: int): (r: seq<HistorialReserva>)
    ensures forall e :: e in r <==> e in h && e.viajeId == viajeId
    ensures multiset(r) == multiset(Filter(h, (e: HistorialReserva) => e.viajeId == viajeId))
    ensures SortedBy(r, Fecha, false)
  {
    var f := Filter(h, (e: HistorialReserva) => e.viajeId == viajeId);
    var r := SortBy(f, Fecha, false);
    forall e ensures e in r <==> e in h && e.viajeId == viajeId {
      SortByMembers(f, Fecha, false, e);
    }
    r
  }

  /** The DTOs of rows of one trip sorted by time are of that trip and sorted by time. */
  lemma DtosDelViajeOrdenados(filas: seq<HistorialReserva>, idViaje: int)
    requires SortedBy(filas, Fecha, false)
    requires forall e :: e in filas ==> e.viajeId == idViaje
    ensures var ds := ADtos(filas);
            (forall i, j :: 0 <= i < j < |ds| ==> ds[i].fechaEvento <= ds[j].fechaEvento)
            && (forall i :: 0 <= i < |ds| ==> ds[i].idViaje == idViaje)
  {
    var ds := ADtos(filas);
    forall i, j | 0 <= i < j < |ds| ensures ds[i].fechaEvento <= ds[j].fechaEvento {
      assert Before(Fecha, false, filas[i], filas[j]);
    }
    forall i | 0 <= i < |ds| ensures ds[i].idViaje == idViaje {
      assert filas[i] in filas;
    }
  }

  /**
   * `obtenerHistorialPorViaje(idViaje, usuarioEnSesion)`: an unknown trip,
   * then a user who does not drive it, are refused; otherwise the DTOs of
   * all the trip's rows, one each, ascending by event time.
   */
  function ObtenerHistorialPorViaje(viajes: map<int, Viaje>, h: seq<HistorialReserva>, idViaje: int, usuario: Usuario)
    : (r: Result<seq<HistorialReservaDTO>, Error>)
    ensures idViaje !in viajes ==> r == Failure(ViajeNoEncontrado)
    ensures idViaje in viajes && viajes[idViaje].conductorId != usuario.id ==> r == Failure(UsuarioNoAutorizado)
    ensures r.Success? <==> idViaje in viajes && viajes[idViaje].conductorId == usuario.id
    ensures r.Success? ==>
              var filas := FindByViaje(h, idViaje);
              |r.value| == |filas|
              && (forall i :: 0 <= i < |filas| ==> r.value[i] == ADto(filas[i]))
              && (forall i, j :: 0 <= i < j < |r.value| ==> r.value[i].fechaEvento <= r.value[j].fechaEvento)
              && (forall i :: 0 <= i < |r.value| ==> r.value[i].idViaje == idViaje)
  {
    if idViaje !in viajes then Failure(ViajeNoEncontrado)
    else if viajes[idViaje].conductorId != usuario.id then Failure(UsuarioNoAutorizado)
    else
      var filas := FindByViaje(h, idViaje);
      var ds := ADtos(filas);
      DtosDelViajeOrdenados(filas, idViaje);
      Success(ds)
  }

  /** Every row of the trip appears in the history shown to its driver. */
  lemma {:induction false} HistorialCompleto(viajes: map<int, Viaje>, h: seq<HistorialReserva>, idViaje: int, usuario: Usuario, k: int)
    requires idViaje in viajes && viajes[idViaje].conductorId == usuario.id
    requires 0 <= k < |h| && h[k].viajeId == idViaje
    ensures ADto(h[k]) in ObtenerHistorialPorViaje(viajes, h, idViaje, usuario).value
  {
    var filas := FindByViaje(h, idViaje);
    assert h[k] in filas;
    var i :| 0 <= i < |filas| && filas[i] == h[k];
    assert ObtenerHistorialPorViaje(viajes, h, idViaje, usuario).value[i] == ADto(h[k]);
  }
}
