/**
 * `RepositorioViajeroImpl`: the in-memory traveller store. Travellers are kept
 * in a map from id to traveller, and `proximoId` is the next id to hand out.
 * `guardar` refuses an email that is already stored and otherwise stores the
 * traveller under a fresh id. The seed list the constructor loads is a
 * parameter.
 */
module RepositorioViajero {

  /** The fields of a stored traveller that the store reads. */
  datatype DatosViajero = DatosViajero(nombre: string, email: string)

  /** `values().stream().anyMatch(v -> v.getEmail().equals(email))`. */
  predicate EmailRegistrado(m: map<int, DatosViajero>, email: string) {
    exists id :: id in m && m[id].email == email
  }

  /** The store's invariant: the counter is at least 1, ids lie in `[1, proximoId)`, and no two travellers share an email. */
  predicate Invariante(m: map<int, DatosViajero>, proximoId: int) {
    1 <= proximoId
    && (forall id :: id in m ==> 1 <= id < proximoId)
    && (forall a, b :: a in m && b in m && a != b ==> m[a].email != m[b].email)
  }

  datatype Guardado = Guardado(viajeros: map<int, DatosViajero>, proximoId: int, ok: bool)

  /**
   * `guardar(viajero)` as a transition: a stored email is refused and nothing
   * changes; otherwise the traveller gets id `proximoId`, the counter moves
   * on by one, and the map gains exactly that entry.
   */
  function Guardar(m: map<int, DatosViajero>, proximoId: int, v: DatosViajero): (g: Guardado)
    ensures !g.ok <==> EmailRegistrado(m, v.email)
    ensures !g.ok ==> g.viajeros == m && g.proximoId == proximoId
    ensures g.ok ==> g.proximoId == proximoId + 1 && g.viajeros == m[proximoId := v]
    ensures g.ok ==> forall id :: id in m && id != proximoId ==> id in g.viajeros && g.viajeros[id] == m[id]
  {
    if EmailRegistrado(m, v.email) then Guardado(m, proximoId, false)
    else Guardado(m[proximoId := v], proximoId + 1, true)
  }

  lemma GuardarPreservaInvariante(m: map<int, DatosViajero>, proximoId: int, v: DatosViajero)
    requires Invariante(m, proximoId)
    ensures var g := Guardar(m, proximoId, v); Invariante(g.viajeros, g.proximoId)
    ensures Guardar(m, proximoId, v).ok ==> proximoId !in m
  {
    var g := Guardar(m, proximoId, v);
    if g.ok {
      forall a, b | a in g.viajeros && b in g.viajeros && a != b
        ensures g.viajeros[a].email != g.viajeros[b].email
      {
        if a == proximoId {
          assert b in m;
        } else if b == proximoId {
          assert a in m;
        }
      }
    }
  }

  /** Saving the same traveller twice stores it once: the second call is refused. */
  lemma {:induction false} GuardarDosVeces(m: map<int, DatosViajero>, proximoId: int, v: DatosViajero)
    requires Guardar(m, proximoId, v).ok
    ensures var g := Guardar(m, proximoId, v);
            !Guardar(g.viajeros, g.proximoId, v).ok
  {
    var g := Guardar(m, proximoId, v);
    assert proximoId in g.viajeros && g.viajeros[proximoId].email == v.email;
  }

  /** The seed travellers under ids 1, 2, …, in list order. */
  ghost predicate Sembrado(m: map<int, DatosViajero>, iniciales: seq<DatosViajero>, n: int)
    requires 0 <= n <= |iniciales|
  {
    (forall id :: id in m <==> 1 <= id <= n)
    && (forall i :: 0 <= i < n ==> i + 1 in m && m[i + 1] == iniciales[i])
  }

  predicate EmailsDistintos(s: seq<DatosViajero>) {
    forall i, j :: 0 <= i < j < |s| ==> s[i].email != s[j].email
  }

  class RepositorioViajeroImpl {
    var viajeros: map<int, DatosViajero>
    var proximoId: int

    predicate Valid()
      reads this
    {
      Invariante(viajeros, proximoId)
    }

    /**
     * Loads the seed list, giving each traveller the next id starting at 1.
     * The seed list is not checked for repeated emails, so the invariant
     * holds when the seed's emails are distinct.
     */
    constructor (iniciales: seq<DatosViajero>)
      ensures proximoId == |iniciales| + 1
      ensures Sembrado(viajeros, iniciales, |iniciales|)
      ensures EmailsDistintos(iniciales) ==> Valid()
    {
      var m: map<int, DatosViajero> := map[];
      var p := 1;
      var i := 0;
      while i < |iniciales|
        invariant 0 <= i <= |iniciales|
        invariant p == i + 1
        invariant Sembrado(m, iniciales, i)
      {
        m := m[p := iniciales[i]];
        p := p + 1;
        i := i + 1;
      }
      if EmailsDistintos(iniciales) {
        forall a, b | a in m && b in m && a != b
          ensures m[a].email != m[b].email
        {
          assert m[a] == iniciales[a - 1] && m[b] == iniciales[b - 1];
          if a < b {
            assert iniciales[a - 1].email != iniciales[b - 1].email;
          } else {
            assert iniciales[b - 1].email != iniciales[a - 1].email;
          }
        }
      }
      viajeros, proximoId := m, p;
    }

    /** `guardar(viajero)`: returns whether it was stored, and the id it was given. */
    method GuardarViajero(v: DatosViajero) returns (ok: bool, id: int)
      requires Valid()
      modifies this
      ensures Valid()
      ensures var g := Guardar(old(viajeros), old(proximoId), v);
              viajeros == g.viajeros && proximoId == g.proximoId && ok == g.ok
      ensures ok ==> id == old(proximoId) && old(proximoId) !in old(viajeros)
    {
      GuardarPreservaInvariante(viajeros, proximoId, v);
      var existente := EmailRegistrado(viajeros, v.email);
      if existente {
        ok, id := false, 0;
        return;
      }
      id := proximoId;
      proximoId := proximoId + 1;
      viajeros := viajeros[id := v];
      ok := true;
    }
  }
}
