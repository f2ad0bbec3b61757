/**
 * `ServicioAlmacenamientoFotoImpl.guardarArchivo`: how an uploaded profile
 * photo is named. A missing or empty upload gives no URL; otherwise the
 * stored name is a fresh UUID followed by the original name's extension, and
 * the URL is the public prefix followed by that name. The UUID and whether
 * the disk write succeeds are parameters; the directory creation and the
 * write itself are not part of this model.
 */
module AlmacenamientoFoto {
  import opened Base
  import opened Dominio

  const PrefijoPublico := "/img/profile_uploads/"

  /** The parts of the `MultipartFile` that the service reads. */
  datatype Archivo = Archivo(vacio: bool, nombreOriginal: Option<string>)

  /** `lastIndexOf(".")`, or `None` when the name has no dot. */
  function UltimoPunto(s: string): (k: Option<nat>)
    ensures k.None? <==> '.' !in s
    ensures k.Some? ==> k.value < |s| && s[k.value] == '.' && '.' !in s[k.value + 1..]
    decreases |s|
  {
    if s == [] then None
    else if s[|s| - 1] == '.' then Some(|s| - 1)
    else
      var k := UltimoPunto(s[..|s| - 1]);
      assert s == s[..|s| - 1] + [s[|s| - 1]];
      if k.Some? then
        assert s[k.value + 1..] == s[..|s| - 1][k.value + 1..] + [s[|s| - 1]];
        k
      else k
  }

  /**
   * `originalFilename.substring(lastIndexOf("."))` when the name has a dot,
   * else the empty string: a dot and what follows it, with no other dot.
   */
  function Extension(nombre: Option<string>): (e: string)
    ensures nombre.None? || '.' !in nombre.value ==> e == ""
    ensures nombre.Some? && '.' in nombre.value ==>
              1 <= |e| <= |nombre.value| && e[0] == '.' && '.' !in e[1..]
              && nombre.value == nombre.value[..|nombre.value| - |e|] + e
  {
    if nombre.None? then ""
    else
      match UltimoPunto(nombre.value)
      case None => ""
      case Some(k) =>
        var s := nombre.value;
        assert s == s[..k] + s[k..];
        assert s[k..][1..] == s[k + 1..];
        s[k..]
  }

  /** The text form of a random UUID: 36 characters, hex digits with dashes at 8, 13, 18 and 23. */
  predicate EsHex(c: char) {
    ('0' <= c <= '9') || ('a' <= c <= 'f')
  }

  predicate UuidValido(u: string) {
    |u| == 36
    && forall i :: 0 <= i < 36 ==> (if i in {8, 13, 18, 23} then u[i] == '-' else EsHex(u[i]))
  }

  /**
   * `guardarArchivo(file)`: `None` for a missing or empty upload; a failed
   * write is an `IOException`; otherwise the public URL of the new name.
   */
  function GuardarArchivo(archivo: Option<Archivo>, uuid: string, escrituraFalla: bool): (r: Result<Option<string>, Error>)
    ensures archivo.None? || archivo.value.vacio ==> r == Success(None)
    ensures archivo.Some? && !archivo.value.vacio && escrituraFalla ==> r == Failure(EscrituraFallida)
    ensures archivo.Some? && !archivo.value.vacio && !escrituraFalla ==>
              r == Success(Some(PrefijoPublico + uuid + Extension(archivo.value.nombreOriginal)))
  {
    if archivo.None? || archivo.value.vacio then Success(None)
    else
      var nombre := uuid + Extension(archivo.value.nombreOriginal);
      if escrituraFalla then Failure(EscrituraFallida)
      else
        assert PrefijoPublico + nombre == PrefijoPublico + uuid + Extension(archivo.value.nombreOriginal);
        Success(Some(PrefijoPublico + nombre))
  }

  /** Every URL starts with the public prefix and keeps the upload's extension at its end. */
  lemma UrlConPrefijoYExtension(archivo: Archivo, uuid: string)
    requires !archivo.vacio
    ensures var url := GuardarArchivo(Some(archivo), uuid, false).value.value;
            var e := Extension(archivo.nombreOriginal);
            url[..|PrefijoPublico|] == PrefijoPublico
            && |url| == |PrefijoPublico| + |uuid| + |e|
            && url[|url| - |e|..] == e
  {
    var e := Extension(archivo.nombreOriginal);
    var url := PrefijoPublico + uuid + e;
    assert GuardarArchivo(Some(archivo), uuid, false).value.value == url;
    assert url == PrefijoPublico + (uuid + e);
    assert url[..|PrefijoPublico|] == PrefijoPublico;
    assert url[|url| - |e|..] == e;
  }

  /** A name without a dot gives a URL that ends in the UUID's last digit, neither "." nor "/". */
  lemma {:induction false} SinExtensionNoTerminaEnPuntoNiBarra(nombre: string, uuid: string)
    requires '.' !in nombre
    requires UuidValido(uuid)
    ensures var url := GuardarArchivo(Some(Archivo(false, Some(nombre))), uuid, false).value.value;
            url[|url| - 1] != '.' && url[|url| - 1] != '/'
  {
    var url := PrefijoPublico + uuid;
    assert Extension(Some(nombre)) == "";
    assert url[|url| - 1] == uuid[35];
    assert EsHex(uuid[35]);
  }

  /** "a.b.jpg" keeps ".jpg": the extension starts at the last dot. */
  lemma ExtensionDesdeElUltimoPunto()
    ensures Extension(Some("a.b.jpg")) == ".jpg"
  {
    var s := "a.b.jpg";
    assert s[..6] == "a.b.jp" && "a.b.jp"[..5] == "a.b.j" && "a.b.j"[..4] == "a.b.";
    assert UltimoPunto("a.b.") == Some(3);
    assert UltimoPunto("a.b.j") == Some(3);
    assert UltimoPunto("a.b.jp") == Some(3);
    assert UltimoPunto(s) == Some(3);
    assert s[3..] == ".jpg";
  }

  /** A name without a dot, as in "sin_extension", has no extension. */
  lemma SinPuntoSinExtension()
    ensures Extension(Some("sin_extension")) == ""
  {
    var s := "sin_extension";
    assert forall i :: 0 <= i < |s| ==> s[i] != '.';
  }
}
