/**
 * The unread-notification counter kept by `notificaciones.js` and
 * `notificacionesConductor.js`, as a value that page events step: the
 * scripts' `actualizarContador` adds an increment and clamps at 0, and every
 * callback of the page is one `Evento`.
 */
module Contador {

  /** `contador += incremento; if (contador < 0) contador = 0;` : the sum, or 0 when it would be negative. */
  function Ajustar(c: int, incremento: int): (r: int)
    ensures r >= 0
    ensures r >= c + incremento
    ensures r == c + incremento || r == 0
  {
    if c + incremento < 0 then 0 else c + incremento
  }

  /** The `notificacion-contador` badge: the text shown and whether it is displayed. */
  datatype Insignia = Insignia(texto: int, visible: bool)

  /** `textContent = contador; display = contador > 0 ? 'block' : 'none'`. */
  function InsigniaDe(c: int): Insignia {
    Insignia(c, c > 0)
  }

  /** JavaScript's `x || 0` on a number that may be absent: absent and 0 are falsy. */
  function OCero(x: int, presente: bool): int {
    if presente && x != 0 then x else 0
  }

  /** What can happen to the counter on the page, one callback at a time. */
  datatype Evento =
    | Mensaje                        // a pushed notification: actualizarContador(1)
    | Clic(exito: bool)              // a click on a toast with a link; the mark-read POST succeeds or fails
    | Resincronizacion(valor: int)   // the connect-time count from the server: set, then actualizarContador(0)
    | Reconexion                     // the error callback: start again with the current counter

  /** The counter after one event. */
  function Paso(c: int, e: Evento): int {
    match e
    case Mensaje => Ajustar(c, 1)
    case Clic(exito) => if c > 0 && exito then Ajustar(c, -1) else c
    case Resincronizacion(v) => Ajustar(v, 0)
    case Reconexion => Ajustar(OCero(c, true), 0)
  }

  /** The counter after a sequence of events, in order. */
  function Aplicar(c: int, es: seq<Evento>): int
    decreases |es|
  {
    if es == [] then c else Aplicar(Paso(c, es[0]), es[1..])
  }

  function Mensajes(es: seq<Evento>): nat
    decreases |es|
  {
    if es == [] then 0 else (if es[0].Mensaje? then 1 else 0) + Mensajes(es[1..])
  }

  function ClicsExitosos(es: seq<Evento>): nat
    decreases |es|
  {
    if es == [] then 0 else (if es[0] == Clic(true) then 1 else 0) + ClicsExitosos(es[1..])
  }

  predicate SinResincronizar(es: seq<Evento>) {
    forall i :: 0 <= i < |es| ==> !es[i].Resincronizacion?
  }

  /** From a non-negative start the counter never goes negative, whatever happens. */
  lemma {:induction false} AplicarNoNegativo(c: int, es: seq<Evento>)
    requires c >= 0
    ensures Aplicar(c, es) >= 0
    decreases |es|
  {
    if es != [] {
      AplicarNoNegativo(Paso(c, es[0]), es[1..]);
    }
  }

  /** A reconnection restarts with the current counter, which is never negative, so it changes nothing. */
  lemma ReconexionNoCambia(c: int)
    requires c >= 0
    ensures Paso(c, Reconexion) == c
  {
  }

  /**
   * Without a resynchronisation the counter stays between the start plus the
   * messages minus the successful clicks, and the start plus the messages:
   * each message adds one, each click removes at most one.
   */
  lemma {:induction false} CotasSinResincronizar(c: int, es: seq<Evento>)
    requires c >= 0
    requires SinResincronizar(es)
    ensures c + Mensajes(es) - ClicsExitosos(es) <= Aplicar(c, es) <= c + Mensajes(es)
    decreases |es|
  {
    if es != [] {
      CotasSinResincronizar(Paso(c, es[0]), es[1..]);
    }
  }

  /** With messages and reconnections only, the counter is the start plus the number of messages. */
  lemma {:induction false} SoloMensajes(c: int, es: seq<Evento>)
    requires c >= 0
    requires forall i :: 0 <= i < |es| ==> es[i] == Mensaje || es[i] == Reconexion
    ensures Aplicar(c, es) == c + Mensajes(es)
    decreases |es|
  {
    if es != [] {
      SoloMensajes(Paso(c, es[0]), es[1..]);
    }
  }

  /** `n` confirmed clicks take the counter down by `n`, but never below 0. */
  lemma {:induction false} ClicsRepetidos(c: int, n: nat)
    requires c >= 0
    ensures Aplicar(c, seq(n, _ => Clic(true))) == if c >= n then c - n else 0
    decreases n
  {
    if n > 0 {
      var es := seq(n, _ => Clic(true));
      assert es[0] == Clic(true) && es[1..] == seq(n - 1, _ => Clic(true));
      ClicsRepetidos(Paso(c, Clic(true)), n - 1);
    }
  }

  /** A failed mark-read leaves the counter as it was. */
  lemma ClicFallidoNoCambia(c: int)
    ensures Paso(c, Clic(false)) == c
  {
  }

  /** The latest resynchronisation decides the counter up to the events after it. */
  lemma {:induction false} ResincronizacionManda(c: int, d: int, v: int, es: seq<Evento>)
    ensures Aplicar(c, [Resincronizacion(v)] + es) == Aplicar(d, [Resincronizacion(v)] + es)
    ensures Aplicar(c, [Resincronizacion(v)]) == if v < 0 then 0 else v
  {
    assert ([Resincronizacion(v)] + es)[0] == Resincronizacion(v) && ([Resincronizacion(v)] + es)[1..] == es;
    assert [Resincronizacion(v)][1..] == [];
  }
}
