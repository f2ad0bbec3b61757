/**
 * `ServicioConductorImpl`: registering a driver (unique email, licence not
 * expired), logging in and looking one up. The driver repository is the
 * sequence of saved drivers; its email lookup finds a driver when one is
 * saved with that email. `hoy` stands for `LocalDate.now()` in days.
 * The DTO mapping of the results is left out: a driver is returned as saved.
 */
module ServicioConductor {
  import opened Base
  import opened Dominio
  import opened Secuencias

  datatype Conductor = Conductor(id: int, nombre: string, email: string, contrasenia: string, vencimientoLicencia: Option<int>)

  datatype Salida = Salida(conductores: seq<Conductor>, resultado: Result<Conductor, Error>)

  predicate EmailRegistrado(cs: seq<Conductor>, email: string) {
    exists i :: 0 <= i < |cs| && cs[i].email == email
  }

  /** Registration keeps emails unique, so each lookup by email finds at most one driver. */
  predicate EmailsDistintos(cs: seq<Conductor>) {
    forall i, j :: 0 <= i < j < |cs| ==> cs[i].email != cs[j].email
  }

  /**
   * `registrar(nuevoConductor)`: a taken email is refused first; then a
   * licence that expires before today (a missing date throws on `isBefore`);
   * one that expires today is accepted. On success the driver is saved once.
   */
  function Registrar(cs: seq<Conductor>, nuevo: Conductor, hoy: int): (s: Salida)
    ensures s.resultado.Failure? ==> s.conductores == cs
    ensures EmailRegistrado(cs, nuevo.email) ==> s.resultado == Failure(UsuarioExistente)
    ensures !EmailRegistrado(cs, nuevo.email) && nuevo.vencimientoLicencia.None? ==> s.resultado == Failure(NullPointer)
    ensures !EmailRegistrado(cs, nuevo.email) && nuevo.vencimientoLicencia.Some? && nuevo.vencimientoLicencia.value < hoy ==>
              s.resultado == Failure(FechaDeVencimientoDeLicenciaInvalida)
    ensures s.resultado.Success? <==>
              !EmailRegistrado(cs, nuevo.email) && nuevo.vencimientoLicencia.Some? && nuevo.vencimientoLicencia.value >= hoy
    ensures s.resultado.Success? ==> s.conductores == cs + [nuevo] && s.resultado.value == nuevo
  {
    if EmailRegistrado(cs, nuevo.email) then Salida(cs, Failure(UsuarioExistente))
    else if nuevo.vencimientoLicencia.None? then Salida(cs, Failure(NullPointer))
    else if nuevo.vencimientoLicencia.value < hoy then Salida(cs, Failure(FechaDeVencimientoDeLicenciaInvalida))
    else Salida(cs + [nuevo], Success(nuevo))
  }

  lemma RegistrarPreservaEmailsDistintos(cs: seq<Conductor>, nuevo: Conductor, hoy: int)
    requires EmailsDistintos(cs)
    ensures EmailsDistintos(Registrar(cs, nuevo, hoy).conductores)
  {
    var s := Registrar(cs, nuevo, hoy);
    if s.resultado.Success? {
      forall i, j | 0 <= i < j < |s.conductores|
        ensures s.conductores[i].email != s.conductores[j].email
      {
        if j == |cs| {
          assert s.conductores[i] == cs[i];
        }
      }
    }
  }

  /** Registering the same email twice: the second attempt is refused whatever its licence. */
  lemma {:induction false} RegistrarEmailRepetido(cs: seq<Conductor>, c1: Conductor, c2: Conductor, hoy: int, hoy2: int)
    requires Registrar(cs, c1, hoy).resultado.Success? && c2.email == c1.email
    ensures var b := Registrar(cs, c1, hoy).conductores; Registrar(b, c2, hoy2) == Salida(b, Failure(UsuarioExistente))
  {
    var b := Registrar(cs, c1, hoy).conductores;
    assert b[|cs|] == c1;
  }

  /** `buscarPorEmailYContrasenia` then `orElseThrow`: a driver saved with both credentials, or `CredencialesInvalidas`. */
  function Login(cs: seq<Conductor>, email: string, contrasenia: string): (r: Result<Conductor, Error>)
    ensures r.Failure? <==> !(exists i :: 0 <= i < |cs| && cs[i].email == email && cs[i].contrasenia == contrasenia)
    ensures r.Failure? ==> r.error == CredencialesInvalidas
    ensures r.Success? ==> r.value in cs && r.value.email == email && r.value.contrasenia == contrasenia
  {
    var m := Filter(cs, (c: Conductor) => c.email == email && c.contrasenia == contrasenia);
    if m == [] then
      assert forall i :: 0 <= i < |cs| ==> !(cs[i].email == email && cs[i].contrasenia == contrasenia) by {
        forall i | 0 <= i < |cs| ensures !(cs[i].email == email && cs[i].contrasenia == contrasenia) {
          assert cs[i] in cs;
        }
      }
      Failure(CredencialesInvalidas)
    else
      assert m[0] in m;
      Success(m[0])
  }

  /** With unique emails the login finds the one driver saved with that email. */
  lemma LoginUnico(cs: seq<Conductor>, i: int)
    requires EmailsDistintos(cs) && 0 <= i < |cs|
    ensures Login(cs, cs[i].email, cs[i].contrasenia) == Success(cs[i])
  {
    var r := Login(cs, cs[i].email, cs[i].contrasenia);
    var j :| 0 <= j < |cs| && cs[j] == r.value;
    assert i == j;
  }

  /** `obtenerConductor(conductorId)`. */
  function ObtenerConductor(cs: seq<Conductor>, conductorId: int): (r: Result<Conductor, Error>)
    ensures r.Failure? <==> !(exists i :: 0 <= i < |cs| && cs[i].id == conductorId)
    ensures r.Failure? ==> r.error == UsuarioInexistente
    ensures r.Success? ==> r.value in cs && r.value.id == conductorId
  {
    var m := Filter(cs, (c: Conductor) => c.id == conductorId);
    if m == [] then
      assert forall i :: 0 <= i < |cs| ==> cs[i].id != conductorId by {
        forall i | 0 <= i < |cs| ensures cs[i].id != conductorId {
          assert cs[i] in cs;
        }
      }
      Failure(UsuarioInexistente)
    else
      assert m[0] in m;
      Success(m[0])
  }

  class ServicioConductorImpl {
    var conductores: seq<Conductor>

    constructor ()
      ensures conductores == [] && EmailsDistintos(conductores)
    {
      conductores := [];
    }

    method RegistrarConductor(nuevo: Conductor, hoy: int) returns (res: Result<Conductor, Error>)
      requires EmailsDistintos(conductores)
      modifies this
      ensures var s := Registrar(old(conductores), nuevo, hoy); conductores == s.conductores && res == s.resultado
      ensures EmailsDistintos(conductores)
    {
      RegistrarPreservaEmailsDistintos(conductores, nuevo, hoy);
      if EmailRegistrado(conductores, nuevo.email) {
        return Failure(UsuarioExistente);
      }
      if nuevo.vencimientoLicencia.None? {
        return Failure(NullPointer);
      }
      if nuevo.vencimientoLicencia.value < hoy {
        return Failure(FechaDeVencimientoDeLicenciaInvalida);
      }
      conductores := conductores + [nuevo];
      return Success(nuevo);
    }
  }
}
