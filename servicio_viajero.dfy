/**
 * `ServicioViajeroImpl`: registering a traveller, after checking the name
 * and the age, and looking one up. The entity is updated in place (role and
 * active flag) and handed to the login service, whose registration is kept
 * as the sequence of entities it received; its own outcome is a parameter.
 */
module ServicioViajero {
  import opened Base
  import opened Dominio
  import opened Texto

  /** The traveller entity; `edad` is what `getEdad()` gives today (none without a birth date). */
  class ViajeroEntidad {
    var nombre: Option<string>
    var email: string
    var edad: Option<int>
    var rol: Option<string>
    var activo: bool

    constructor (nombre: Option<string>, email: string, edad: Option<int>)
      ensures this.nombre == nombre && this.email == email && this.edad == edad && rol == None && !activo
    {
      this.nombre, this.email, this.edad := nombre, email, edad;
      rol, activo := None, false;
    }
  }

  const RolViajero := "VIAJERO"
  const EdadMinima := 18
  const EdadMaxima := 120

  const MensajeNombre := "El nombre es obligatorio."
  const MensajeEdadObligatoria := "La edad es obligatoria."
  const MensajeMenor := "El usuario debe ser mayor de 18 años."
  const MensajeEdadNoValida := "La edad ingresada no es válida."

  /**
   * The guards of `registrar`, in source order: a null or blank name, then a
   * missing age, an age under 18 and an age over 120. None means all pass,
   * which is exactly a non-blank name with an age in 18..120, both ends included.
   */
  function ValidarRegistro(nombre: Option<string>, edad: Option<int>): (e: Option<Error>)
    ensures e.None? <==> nombre.Some? && !EsBlanco(nombre.value) && edad.Some? && EdadMinima <= edad.value <= EdadMaxima
    ensures nombre.None? || EsBlanco(nombre.value) ==> e == Some(DatoObligatorio(MensajeNombre))
    ensures nombre.Some? && !EsBlanco(nombre.value) ==>
              (edad.None? ==> e == Some(EdadInvalida(MensajeEdadObligatoria)))
              && (edad.Some? && edad.value < EdadMinima ==> e == Some(EdadInvalida(MensajeMenor)))
              && (edad.Some? && edad.value > EdadMaxima ==> e == Some(EdadInvalida(MensajeEdadNoValida)))
  {
    if nombre.None? || EsBlanco(nombre.value) then Some(DatoObligatorio(MensajeNombre))
    else if edad.None? then Some(EdadInvalida(MensajeEdadObligatoria))
    else if edad.value < EdadMinima then Some(EdadInvalida(MensajeMenor))
    else if edad.value > EdadMaxima then Some(EdadInvalida(MensajeEdadNoValida))
    else None
  }

  /** A name of only spaces is refused even with a valid age: the name check comes first. */
  lemma NombreAntesQueEdad(edad: Option<int>)
    ensures ValidarRegistro(Some("   "), edad) == Some(DatoObligatorio(MensajeNombre))
    ensures ValidarRegistro(None, edad) == Some(DatoObligatorio(MensajeNombre))
  {
    assert EsBlanco("   ") by {
      assert forall k :: 0 <= k < |"   "| ==> "   "[k] == ' ';
    }
  }

  class ServicioViajeroImpl {
    /** The entities handed to `servicioLogin.registrar`, in order. */
    var registrados: seq<ViajeroEntidad>
    /** `repositorioViajero`: travellers by id. */
    var repositorio: map<int, ViajeroEntidad>

    constructor (repositorio0: map<int, ViajeroEntidad>)
      ensures registrados == [] && repositorio == repositorio0
    {
      registrados, repositorio := [], repositorio0;
    }

    /**
     * `registrar(nuevoViajero)`: on a failed guard nothing changes. Otherwise
     * the entity gets role "VIAJERO" and is activated, is registered once,
     * and is itself the result; `loginFalla` is the login service refusing
     * it (its `UsuarioExistente`), which happens after the entity was updated.
     */
    method Registrar(v: ViajeroEntidad, loginFalla: bool) returns (res: Result<ViajeroEntidad, Error>)
      modifies v, this`registrados
      ensures v.nombre == old(v.nombre) && v.email == old(v.email) && v.edad == old(v.edad)
      ensures var e := ValidarRegistro(old(v.nombre), old(v.edad));
              e.Some? ==> res == Failure(e.value) && v.rol == old(v.rol) && v.activo == old(v.activo) && registrados == old(registrados)
      ensures var e := ValidarRegistro(old(v.nombre), old(v.edad));
              e.None? ==> v.rol == Some(RolViajero) && v.activo
                          && (loginFalla ==> res == Failure(UsuarioExistente) && registrados == old(registrados))
                          && (!loginFalla ==> res == Success(v) && registrados == old(registrados) + [v])
    {
      var e := ValidarRegistro(v.nombre, v.edad);
      if e.Some? {
        return Failure(e.value);
      }
      v.rol := Some(RolViajero);
      v.activo := true;
      if loginFalla {
        return Failure(UsuarioExistente);
      }
      registrados := registrados + [v];
      return Success(v);
    }

    /** `obtenerViajero(viajeroId)`. */
    function ObtenerViajero(viajeroId: int): (r: Result<ViajeroEntidad, Error>)
      reads this
      ensures r.Success? <==> viajeroId in repositorio
      ensures r.Success? ==> r.value == repositorio[viajeroId]
      ensures r.Failure? ==> r.error == UsuarioInexistente
    {
      if viajeroId in repositorio then Success(repositorio[viajeroId]) else Failure(UsuarioInexistente)
    }
  }
}
