/**
 * `ServicioVehiculoImpl`: saving a vehicle under a unique plate and looking
 * one up by plate. The vehicle repository is the sequence of saved vehicles
 * and the driver repository the set of driver ids. The service treats the
 * plate lookup's "no vehicle" as null; here it is `None`.
 */
module ServicioVehiculo {
  import opened Base
  import opened Dominio
  import opened Secuencias

  datatype EstadoVerificacion = PENDIENTE | EN_REVISION | RECHAZADO | VERIFICADO

  datatype VehiculoInput = VehiculoInput(
    modelo: Option<string>, anio: Option<string>, patente: string,
    asientosTotales: Option<int>, estadoVerificacion: Option<EstadoVerificacion>)

  /** A saved vehicle, linked to its driver by id. */
  datatype Vehiculo = Vehiculo(
    conductorId: int, modelo: Option<string>, anio: Option<string>, patente: string,
    asientosTotales: Option<int>, estadoVerificacion: Option<EstadoVerificacion>)

  datatype Salida = Salida(vehiculos: seq<Vehiculo>, resultado: Result<Vehiculo, Error>)

  /** `manualModelMapper.toVehiculo(dto, conductor)`: the input's fields and the driver. */
  function AVehiculo(dto: VehiculoInput, conductorId: int): (v: Vehiculo)
    ensures v.conductorId == conductorId && v.patente == dto.patente
  {
    Vehiculo(conductorId, dto.modelo, dto.anio, dto.patente, dto.asientosTotales, dto.estadoVerificacion)
  }

  predicate PatenteRegistrada(vs: seq<Vehiculo>, patente: string) {
    exists i :: 0 <= i < |vs| && vs[i].patente == patente
  }

  /** Plates are unique among saved vehicles. */
  predicate PatentesDistintas(vs: seq<Vehiculo>) {
    forall i, j :: 0 <= i < j < |vs| ==> vs[i].patente != vs[j].patente
  }

  /** `encontrarVehiculoConPatente(patente)`: the vehicle with that plate, if any. */
  function ConPatente(vs: seq<Vehiculo>, patente: string): (r: Option<Vehiculo>)
    ensures r.None? <==> !PatenteRegistrada(vs, patente)
    ensures r.Some? ==> r.value in vs && r.value.patente == patente
  {
    var m := Filter(vs, (v: Vehiculo) => v.patente == patente);
    if m == [] then
      assert forall i :: 0 <= i < |vs| ==> vs[i].patente != patente by {
        forall i | 0 <= i < |vs| ensures vs[i].patente != patente {
          assert vs[i] in vs;
        }
      }
      None
    else
      assert m[0] in m;
      Some(m[0])
  }

  /**
   * `guardarVehiculo(dto, idConductor)`: a taken plate is refused before the
   * driver is looked up; an unknown driver then fails at `Optional.get()`.
   * On success exactly one vehicle, linked to the driver, is appended.
   */
  function Guardar(vs: seq<Vehiculo>, conductores: set<int>, dto: VehiculoInput, idConductor: int): (s: Salida)
    ensures s.resultado.Failure? ==> s.vehiculos == vs
    ensures PatenteRegistrada(vs, dto.patente) ==> s.resultado == Failure(PatenteDuplicada)
    ensures !PatenteRegistrada(vs, dto.patente) && idConductor !in conductores ==> s.resultado == Failure(NoSuchElement)
    ensures s.resultado.Success? <==> !PatenteRegistrada(vs, dto.patente) && idConductor in conductores
    ensures s.resultado.Success? ==>
              s.vehiculos == vs + [s.resultado.value]
              && s.resultado.value.conductorId == idConductor && s.resultado.value.patente == dto.patente
              && s.resultado.value == AVehiculo(dto, idConductor)
  {
    if ConPatente(vs, dto.patente).Some? then Salida(vs, Failure(PatenteDuplicada))
    else if idConductor !in conductores then Salida(vs, Failure(NoSuchElement))
    else
      var v := AVehiculo(dto, idConductor);
      Salida(vs + [v], Success(v))
  }

  lemma GuardarPreservaPatentesDistintas(vs: seq<Vehiculo>, conductores: set<int>, dto: VehiculoInput, idConductor: int)
    requires PatentesDistintas(vs)
    ensures PatentesDistintas(Guardar(vs, conductores, dto, idConductor).vehiculos)
  {
    var s := Guardar(vs, conductores, dto, idConductor);
    if s.resultado.Success? {
      forall i, j | 0 <= i < j < |s.vehiculos|
        ensures s.vehiculos[i].patente != s.vehiculos[j].patente
      {
        if j == |vs| {
          assert s.vehiculos[i] == vs[i];
        }
      }
    }
  }

  /** A saved vehicle is then found by its plate. */
  lemma {:induction false} GuardarYBuscar(vs: seq<Vehiculo>, conductores: set<int>, dto: VehiculoInput, idConductor: int)
    requires PatentesDistintas(vs)
    requires Guardar(vs, conductores, dto, idConductor).resultado.Success?
    ensures var s := Guardar(vs, conductores, dto, idConductor);
            ObtenerConPatente(s.vehiculos, dto.patente) == Success(s.resultado.value)
  {
    var s := Guardar(vs, conductores, dto, idConductor);
    GuardarPreservaPatentesDistintas(vs, conductores, dto, idConductor);
    assert s.vehiculos[|vs|].patente == dto.patente;
    var r := ObtenerConPatente(s.vehiculos, dto.patente);
    var j :| 0 <= j < |s.vehiculos| && s.vehiculos[j] == r.value;
    assert j == |vs|;
  }

  /** `obtenerVehiculoConPatente(patente)`: an unknown plate is `NotFound`. */
  function ObtenerConPatente(vs: seq<Vehiculo>, patente: string): (r: Result<Vehiculo, Error>)
    ensures r.Failure? <==> !PatenteRegistrada(vs, patente)
    ensures r.Failure? ==> r.error == NotFound
    ensures r.Success? ==> r.value in vs && r.value.patente == patente
  {
    var v := ConPatente(vs, patente);
    if v.None? then Failure(NotFound) else Success(v.value)
  }

  /** `getById`: a stub that gives null for every id. */
  function GetById(id: int): (r: Option<Vehiculo>)
    ensures r.None?
  {
    None
  }

  /** `obtenerVehiculosParaConductor`: a stub that gives the empty list. */
  function ObtenerVehiculosParaConductor(conductorId: int): (r: seq<Vehiculo>)
    ensures |r| == 0
  {
    []
  }

  class ServicioVehiculoImpl {
    var vehiculos: seq<Vehiculo>
    var conductores: set<int>

    constructor (conductores0: set<int>)
      ensures vehiculos == [] && conductores == conductores0 && PatentesDistintas(vehiculos)
    {
      vehiculos, conductores := [], conductores0;
    }

    method GuardarVehiculo(dto: VehiculoInput, idConductor: int) returns (res: Result<Vehiculo, Error>)
      requires PatentesDistintas(vehiculos)
      modifies this`vehiculos
      ensures var s := Guardar(old(vehiculos), conductores, dto, idConductor); vehiculos == s.vehiculos && res == s.resultado
      ensures PatentesDistintas(vehiculos)
    {
      GuardarPreservaPatentesDistintas(vehiculos, conductores, dto, idConductor);
      if ConPatente(vehiculos, dto.patente).Some? {
        return Failure(PatenteDuplicada);
      }
      if idConductor !in conductores {
        return Failure(NoSuchElement);
      }
      var v := AVehiculo(dto, idConductor);
      vehiculos := vehiculos + [v];
      return Success(v);
    }
  }
}
