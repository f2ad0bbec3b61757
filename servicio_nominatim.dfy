/**
 * `ServicioNominatimImpl`: city lookups through the Nominatim client. The
 * client's answer for the query (or its `JsonProcessingException`) is a
 * parameter; the HTTP call and the JSON parsing are not part of this model.
 */
module ServicioNominatim {
  import opened Base
  import opened Dominio
  import opened Texto

  /** The fields of a Nominatim result that the service reads. */
  datatype NominatimResponse = Lugar(name: string, addressType: Option<string>)

  const Ciudad := "city"

  /** `"city".equalsIgnoreCase(nr.getAddressType())`: false for a null type. */
  predicate EsCiudad(nr: NominatimResponse) {
    nr.addressType.Some? && IgualIgnorandoCaso(nr.addressType.value, Ciudad)
  }

  /** Some result of `s` is a city with name `x`. */
  predicate NombraCiudad(s: seq<NominatimResponse>, x: string) {
    exists i :: 0 <= i < |s| && EsCiudad(s[i]) && s[i].name == x
  }

  /** `.filter(EsCiudad).map(NominatimResponse::getName)`. */
  function NombresDeCiudades(s: seq<NominatimResponse>): (r: seq<string>)
    ensures |r| <= |s|
    ensures s == [] ==> r == []
    ensures forall x :: x in r <==> NombraCiudad(s, x)
    ensures |r| == |s| <==> forall i :: 0 <= i < |s| ==> EsCiudad(s[i])
    decreases |s|
  {
    if s == [] then []
    else
      var resto := NombresDeCiudades(s[1..]);
      forall x
        ensures NombraCiudad(s, x) <==> (EsCiudad(s[0]) && s[0].name == x) || NombraCiudad(s[1..], x)
      {
        if NombraCiudad(s, x) && !(EsCiudad(s[0]) && s[0].name == x) {
          var i :| 0 <= i < |s| && EsCiudad(s[i]) && s[i].name == x;
          assert s[1..][i - 1] == s[i];
        }
        if NombraCiudad(s[1..], x) {
          var i :| 0 <= i < |s[1..]| && EsCiudad(s[1..][i]) && s[1..][i].name == x;
          assert s[i + 1] == s[1..][i];
        }
      }
      if EsCiudad(s[0]) then [s[0].name] + resto
      else
        assert !(forall i :: 0 <= i < |s| ==> EsCiudad(s[i]));
        resto
  }

  /** The names keep the input order: the names of two runs of results come one after the other. */
  lemma {:induction false} NombresConcat(s: seq<NominatimResponse>, t: seq<NominatimResponse>)
    ensures NombresDeCiudades(s + t) == NombresDeCiudades(s) + NombresDeCiudades(t)
    decreases |s|
  {
    if s == [] {
      assert s + t == t;
    } else {
      assert (s + t)[0] == s[0] && (s + t)[1..] == s[1..] + t;
      NombresConcat(s[1..], t);
    }
  }

  /** Any spelling of "city" is kept; an administrative area and a result without a type are dropped. */
  lemma FiltraSoloCiudades()
    ensures NombresDeCiudades([Lugar("Buenos Aires", Some("City"))]) == ["Buenos Aires"]
    ensures NombresDeCiudades([Lugar("Provincia", Some("administrative"))]) == []
    ensures NombresDeCiudades([Lugar("Sin tipo", None)]) == []
  {
    var a := Lugar("Buenos Aires", Some("City"));
    assert IgualSinCaso('C', 'c');
    assert EsCiudad(a);
    assert [a][1..] == [];
    var b := Lugar("Provincia", Some("administrative"));
    assert |"administrative"| != |Ciudad|;
    assert [b][1..] == [];
    var c := Lugar("Sin tipo", None);
    assert [c][1..] == [];
  }

  /**
   * `buscarCiudadPorInputCompleto(nombre)`: the client's exception passes
   * through; an empty answer is a `NominatimResponseException`; otherwise
   * the answer is returned as it came.
   */
  function BuscarCiudadPorInputCompleto(cliente: Result<Option<NominatimResponse>, Error>): (r: Result<NominatimResponse, Error>)
    ensures cliente.Failure? ==> r == Failure(cliente.error)
    ensures cliente == Success(None) ==> r == Failure(Error.NominatimResponse)
    ensures cliente.Success? && cliente.value.Some? ==> r == Success(cliente.value.value)
  {
    match cliente
    case Failure(e) => Failure(e)
    case Success(None) => Failure(Error.NominatimResponse)
    case Success(Some(nr)) => Success(nr)
  }

  /** `devolverNombresDeCiudadesPorInputIncompleto(nombre)`: the city names of the client's answer. */
  function DevolverNombresDeCiudades(cliente: Result<seq<NominatimResponse>, Error>): (r: Result<seq<string>, Error>)
    ensures cliente.Failure? ==> r == Failure(cliente.error)
    ensures cliente.Success? ==> r.Success? && r.value == NombresDeCiudades(cliente.value) && |r.value| <= |cliente.value|
  {
    match cliente
    case Failure(e) => Failure(e)
    case Success(rs) => Success(NombresDeCiudades(rs))
  }
}
