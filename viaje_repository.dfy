/**
 * `ViajeRepositoryImpl`: the in-memory trip list `baseDeDatos`. Trips are
 * added at the end, replaced in place by id, looked up by id, and selected by
 * origin, destination and driver. The seed list the constructor loads is a
 * parameter.
 */
module ViajeRepository {
  import opened Base
  import opened Dominio
  import opened Secuencias

  /** The position of the first trip with the id, if there is one. */
  function PrimeraPosicion(s: seq<Viaje>, id: int): (k: Option<nat>)
    ensures k.None? <==> forall i :: 0 <= i < |s| ==> s[i].id != id
    ensures k.Some? ==> k.value < |s| && s[k.value].id == id && forall i :: 0 <= i < k.value ==> s[i].id != id
    decreases |s|
  {
    if s == [] then None
    else if s[0].id == id then Some(0)
    else
      match PrimeraPosicion(s[1..], id)
      case None => None
      case Some(k) =>
        assert forall i :: 1 <= i < k + 1 ==> s[i] == s[1..][i - 1];
        Some(k + 1)
  }

  predicate Contiene(s: seq<Viaje>, id: int) {
    exists i :: 0 <= i < |s| && s[i].id == id
  }

  /** The trip list after `modificarViajer(v)`: the first trip with `v`'s id is replaced; nothing else moves. */
  function Reemplazar(s: seq<Viaje>, v: Viaje): (r: seq<Viaje>)
    ensures |r| == |s|
    ensures PrimeraPosicion(s, v.id).None? ==> r == s
    ensures PrimeraPosicion(s, v.id).Some? ==>
              var k := PrimeraPosicion(s, v.id).value;
              r[k] == v && forall i :: 0 <= i < |s| && i != k ==> r[i] == s[i]
  {
    match PrimeraPosicion(s, v.id)
    case None => s
    case Some(k) => s[k := v]
  }

  /** Replacing with the trip already stored under that id changes nothing. */
  lemma ReemplazarIdempotente(s: seq<Viaje>, v: Viaje)
    ensures Reemplazar(Reemplazar(s, v), v) == Reemplazar(s, v)
  {
    var r := Reemplazar(s, v);
    match PrimeraPosicion(s, v.id)
    case None =>
    case Some(k) =>
      assert forall i :: 0 <= i < k ==> r[i] == s[i];
      assert PrimeraPosicion(r, v.id) == Some(k);
  }

  /** After the replacement, looking the id up finds the new trip. */
  lemma ReemplazarYBuscar(s: seq<Viaje>, v: Viaje)
    requires Contiene(s, v.id)
    ensures PrimeraPosicion(Reemplazar(s, v), v.id).Some?
    ensures Reemplazar(s, v)[PrimeraPosicion(Reemplazar(s, v), v.id).value] == v
  {
    var r := Reemplazar(s, v);
    var k := PrimeraPosicion(s, v.id).value;
    assert forall i :: 0 <= i < k ==> r[i] == s[i];
    assert PrimeraPosicion(r, v.id) == Some(k);
  }

  /** `getConductor().equals(c) && getOrigen().equals(o) && getDestino().equals(d)`. */
  function MismaRuta(origenId: int, destinoId: int, conductorId: int): Viaje -> bool {
    (v: Viaje) => v.conductorId == conductorId && v.origenId == origenId && v.destinoId == destinoId
  }

  class ViajeRepositoryImpl {
    var baseDeDatos: seq<Viaje>

    constructor (iniciales: seq<Viaje>)
      ensures baseDeDatos == iniciales
    {
      baseDeDatos := iniciales;
    }

    /**
     * `findById(id)`: the first trip with that id. `findFirst().get()` throws
     * `NoSuchElementException` when there is none.
     */
    function FindById(id: int): (r: Result<Viaje, Error>)
      reads this
      ensures r.Failure? <==> !Contiene(baseDeDatos, id)
      ensures r.Failure? ==> r.error == NoSuchElement
      ensures r.Success? ==> r.value.id == id && r.value in baseDeDatos
      ensures r.Success? ==>
                exists k :: 0 <= k < |baseDeDatos| && baseDeDatos[k] == r.value && forall i :: 0 <= i < k ==> baseDeDatos[i].id != id
    {
      match PrimeraPosicion(baseDeDatos, id)
      case None => Failure(NoSuchElement)
      case Some(k) => Success(baseDeDatos[k])
    }

    /** `guardarViaje(v)`: appended; the earlier trips stay where they were. */
    method GuardarViaje(v: Viaje)
      modifies this
      ensures baseDeDatos == old(baseDeDatos) + [v]
      ensures baseDeDatos[..|old(baseDeDatos)|] == old(baseDeDatos)
    {
      baseDeDatos := baseDeDatos + [v];
    }

    /** `modificarViajer(v)`: the loop stops at the first trip with `v`'s id and replaces it. */
    method ModificarViajer(v: Viaje)
      modifies this
      ensures baseDeDatos == Reemplazar(old(baseDeDatos), v)
      ensures |baseDeDatos| == |old(baseDeDatos)|
      ensures !Contiene(old(baseDeDatos), v.id) ==> baseDeDatos == old(baseDeDatos)
    {
      var i := 0;
      while i < |baseDeDatos|
        invariant 0 <= i <= |baseDeDatos|
        invariant baseDeDatos == old(baseDeDatos)
        invariant forall j :: 0 <= j < i ==> baseDeDatos[j].id != v.id
      {
        if baseDeDatos[i].id == v.id {
          assert PrimeraPosicion(baseDeDatos, v.id) == Some(i);
          baseDeDatos := baseDeDatos[i := v];
          return;
        }
        i := i + 1;
      }
    }

    /** `findByOrigenYDestinoYConductor(o, d, c)`: exactly the trips of that route and driver, in list order. */
    function FindByOrigenYDestinoYConductor(origenId: int, destinoId: int, conductorId: int): (r: seq<Viaje>)
      reads this
      ensures forall v :: v in r <==> v in baseDeDatos && v.origenId == origenId && v.destinoId == destinoId && v.conductorId == conductorId
      ensures r == Filter(baseDeDatos, MismaRuta(origenId, destinoId, conductorId))
    {
      Filter(baseDeDatos, MismaRuta(origenId, destinoId, conductorId))
    }
  }

  /** Saving a trip adds it to the selection of its route, at the end. */
  lemma {:induction false} GuardarYSeleccionar(s: seq<Viaje>, v: Viaje)
    ensures Filter(s + [v], MismaRuta(v.origenId, v.destinoId, v.conductorId))
            == Filter(s, MismaRuta(v.origenId, v.destinoId, v.conductorId)) + [v]
  {
    var p := MismaRuta(v.origenId, v.destinoId, v.conductorId);
    FilterConcat(s, [v], p);
    assert [v][1..] == [];
  }
}
