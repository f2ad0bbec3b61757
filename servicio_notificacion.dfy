/**
 * `ServicioNotificacionImpl`: fetching a user's unseen notifications and
 * marking each of them seen in place, and saving a new notification. The
 * repository is the sequence of stored notification objects; its
 * `findByUsuarioIdAndVistaFalse` is the unseen ones of that recipient in
 * store order.
 */
module ServicioNotificacion {

  /** A stored notification; only `vista` changes after creation. */
  class Notificacion {
    const destinatarioId: int
    const mensaje: string
    const urlDestino: string
    const fechaCreacion: int
    var vista: bool

    /** `new Notificacion()` and its setters: not seen yet, created now. */
    constructor (destinatarioId: int, mensaje: string, urlDestino: string, ahora: int)
      ensures this.destinatarioId == destinatarioId && this.mensaje == mensaje && this.urlDestino == urlDestino
      ensures fechaCreacion == ahora && !vista
    {
      this.destinatarioId, this.mensaje, this.urlDestino, fechaCreacion := destinatarioId, mensaje, urlDestino, ahora;
      vista := false;
    }
  }

  predicate Pendiente(n: Notificacion, usuarioId: int)
    reads n
  {
    n.destinatarioId == usuarioId && !n.vista
  }

  /** `findByUsuarioIdAndVistaFalse(usuarioId)` over `s`: the unseen notifications of that user, in order. */
  function NoVistas(s: seq<Notificacion>, usuarioId: int): (r: seq<Notificacion>)
    reads set n | n in s
    ensures |r| <= |s|
    ensures forall k :: 0 <= k < |r| ==> r[k] in s && Pendiente(r[k], usuarioId)
    ensures forall k :: 0 <= k < |s| && Pendiente(s[k], usuarioId) ==> s[k] in r
    decreases |s|
  {
    if s == [] then []
    else if Pendiente(s[0], usuarioId) then [s[0]] + NoVistas(s[1..], usuarioId)
    else NoVistas(s[1..], usuarioId)
  }

  class ServicioNotificacionImpl {
    var notificaciones: seq<Notificacion>

    constructor ()
      ensures notificaciones == []
    {
      notificaciones := [];
    }

    /**
     * `obtenerNoVistasYMarcarComoVistas(usuarioId)`: the result is the
     * repository's unseen list; afterwards each of them is seen, every other
     * notification is as it was, and the user has nothing unseen left.
     */
    method ObtenerNoVistasYMarcarComoVistas(usuarioId: int) returns (res: seq<Notificacion>)
      modifies set n | n in notificaciones
      ensures res == old(NoVistas(notificaciones, usuarioId))
      ensures forall k :: 0 <= k < |res| ==> res[k].vista
      ensures forall n :: n in notificaciones && n !in res ==> n.vista == old(n.vista)
      ensures NoVistas(notificaciones, usuarioId) == []
    {
      res := NoVistas(notificaciones, usuarioId);
      var i := 0;
      while i < |res|
        invariant 0 <= i <= |res|
        invariant forall k :: 0 <= k < i ==> res[k].vista
        invariant forall n :: n in notificaciones && n !in res[..i] ==> n.vista == old(n.vista)
      {
        res[i].vista := true;
        assert forall n :: n in res[..i + 1] <==> n in res[..i] || n == res[i];
        i := i + 1;
      }
      assert res[..i] == res;
      forall k | 0 <= k < |notificaciones|
        ensures !Pendiente(notificaciones[k], usuarioId)
      {
        var n := notificaciones[k];
        if n !in res {
          assert !old(Pendiente(n, usuarioId));
        }
      }
      SinPendientes(notificaciones, usuarioId);
    }

    /** `guardarNotificacion(destinatario, mensaje, urlDestino)`: one new unseen notification at the end. */
    method GuardarNotificacion(destinatarioId: int, mensaje: string, urlDestino: string, ahora: int) returns (n: Notificacion)
      modifies this`notificaciones
      ensures fresh(n) && notificaciones == old(notificaciones) + [n]
      ensures n.destinatarioId == destinatarioId && n.mensaje == mensaje && n.urlDestino == urlDestino && !n.vista
      ensures NoVistas(notificaciones, destinatarioId) == old(NoVistas(notificaciones, destinatarioId)) + [n]
    {
      n := new Notificacion(destinatarioId, mensaje, urlDestino, ahora);
      NoVistasAlAgregar(notificaciones, n, destinatarioId);
      notificaciones := notificaciones + [n];
    }
  }

  /** A store without unseen notifications for the user gives the empty list. */
  lemma {:induction false} SinPendientes(s: seq<Notificacion>, usuarioId: int)
    requires forall k :: 0 <= k < |s| ==> !Pendiente(s[k], usuarioId)
    ensures NoVistas(s, usuarioId) == []
    decreases |s|
  {
    if s != [] {
      assert !Pendiente(s[0], usuarioId);
      SinPendientes(s[1..], usuarioId);
    }
  }

  /** Adding an unseen notification for the user puts it at the end of their unseen list. */
  lemma {:induction false} NoVistasAlAgregar(s: seq<Notificacion>, n: Notificacion, usuarioId: int)
    requires Pendiente(n, usuarioId)
    ensures NoVistas(s + [n], usuarioId) == NoVistas(s, usuarioId) + [n]
    decreases |s|
  {
    if s == [] {
      assert [] + [n] == [n];
      assert [n][1..] == [];
    } else {
      assert (s + [n])[0] == s[0] && (s + [n])[1..] == s[1..] + [n];
      NoVistasAlAgregar(s[1..], n, usuarioId);
    }
  }
}
