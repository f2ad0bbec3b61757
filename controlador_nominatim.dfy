/**
 * `ControladorNominatim.buscarCiudades`: the autocomplete endpoint. A query
 * shorter than two characters once trimmed is answered with an empty list
 * without asking the service; otherwise the service is asked once, with the
 * trimmed query. The client's answer for each query is the function
 * `cliente`; the reply records which query, if any, reached the service.
 */
module ControladorNominatim {
  import opened Base
  import opened Dominio
  import opened Texto
  import opened ServicioNominatim

  const HttpOk := 200

  /** The `ResponseEntity` and the query the service was called with, if it was called. */
  datatype Respuesta = Respuesta(status: int, cuerpo: seq<string>, consultado: Option<string>)

  predicate ConsultaCorta(query: Option<string>) {
    query.None? || |Trim(query.value)| < 2
  }

  /**
   * A short or missing query: empty, no call. Otherwise the service's names
   * for the trimmed query; a `JsonProcessingException` becomes the empty
   * list, and any other exception propagates. Every reply is 200.
   */
  function BuscarCiudades(query: Option<string>, cliente: string -> Result<seq<NominatimResponse>, Error>): (r: Result<Respuesta, Error>)
    ensures ConsultaCorta(query) ==> r == Success(Respuesta(HttpOk, [], None))
    ensures !ConsultaCorta(query) ==>
              var q := Trim(query.value);
              match cliente(q)
              case Success(rs) => r == Success(Respuesta(HttpOk, NombresDeCiudades(rs), Some(q)))
              case Failure(JsonProcessing) => r == Success(Respuesta(HttpOk, [], Some(q)))
              case Failure(e) => r == Failure(e)
    ensures r.Success? ==> r.value.status == HttpOk
    ensures r.Success? && r.value.consultado.Some? ==> |r.value.consultado.value| >= 2 && r.value.consultado.value == Trim(r.value.consultado.value)
  {
    if query.None? || |Trim(query.value)| < 2 then Success(Respuesta(HttpOk, [], None))
    else
      var q := Trim(query.value);
      TrimIdempotente(query.value);
      match DevolverNombresDeCiudades(cliente(q))
      case Success(nombres) => Success(Respuesta(HttpOk, nombres, Some(q)))
      case Failure(JsonProcessing) => Success(Respuesta(HttpOk, [], Some(q)))
      case Failure(e) => Failure(e)
  }

  /** One letter, or spaces around one letter, never reach the service. */
  lemma ConsultasCortasNoLlaman(cliente: string -> Result<seq<NominatimResponse>, Error>)
    ensures BuscarCiudades(Some("a"), cliente) == Success(Respuesta(HttpOk, [], None))
    ensures BuscarCiudades(Some("  a  "), cliente) == Success(Respuesta(HttpOk, [], None))
    ensures BuscarCiudades(Some("    "), cliente) == Success(Respuesta(HttpOk, [], None))
  {
    CortasAlRecortar();
  }

  lemma CortasAlRecortar()
    ensures |Trim("a")| < 2 && |Trim("  a  ")| < 2 && |Trim("    ")| < 2
  {
    assert |Trim("a")| <= |"a"|;
    assert Trim("  a  ") == "a";
    assert Trim("    ") == [];
  }
}
