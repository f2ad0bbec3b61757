/**
 * `spec/notificacionesConductor.js`: an earlier driver script. Its counter
 * starts at 0 when the script loads, is never reset by a (re)start, and its
 * `actualizarContador` adds the increment with no lower bound; the only
 * caller passes +1 for each pushed message, so the counter is the number of
 * messages received. Toasts carry only the message text and no click handler.
 */
module NotificacionesConductorSpec {
  import opened Base
  import opened Contador
  import opened Notificaciones

  class PaginaConductorSpec {
    var contador: int
    const hayElemento: bool
    var insignia: Option<Insignia>
    /** The driver id the current connection was started for. */
    var conductor: Option<int>
    var conexiones: nat
    var suscrito: bool
    /** The message texts shown, in order. */
    var toasts: seq<string>

    /** The counter is the number of messages received, and the badge shows it. */
    ghost predicate Valid()
      reads this
    {
      contador == |toasts|
      && (insignia.Some? ==> insignia.value == InsigniaDe(contador))
      && (!hayElemento ==> insignia.None?)
      && (suscrito ==> conductor.Some?)
      && (conductor.Some? ==> IdValido(conductor))
    }

    /** `let contadorNotificaciones = 0` at load time. */
    constructor (hayElemento: bool)
      ensures this.hayElemento == hayElemento && contador == 0 && insignia == None && conductor == None
      ensures conexiones == 0 && !suscrito && toasts == []
      ensures Valid()
    {
      this.hayElemento := hayElemento;
      contador, insignia, conductor, conexiones, suscrito, toasts := 0, None, None, 0, false, [];
    }

    /** `actualizarContador(incremento)`: exactly old + increment, with no clamp. */
    method ActualizarContador(incremento: int)
      modifies this`contador, this`insignia
      ensures contador == old(contador) + incremento
      ensures insignia == if hayElemento then Some(InsigniaDe(contador)) else old(insignia)
    {
      contador := contador + incremento;
      if hayElemento {
        insignia := Some(InsigniaDe(contador));
      }
    }

    /** `mostrarToastNotificacion(mensaje)`. */
    method MostrarToastNotificacion(mensaje: string)
      modifies this`toasts
      ensures toasts == old(toasts) + [mensaje]
    {
      toasts := toasts + [mensaje];
    }

    /** `iniciarConexionNotificaciones(idConductor)`: an invalid id aborts; the counter is never touched. */
    method IniciarConexionNotificaciones(idConductor: Option<int>)
      requires Valid()
      modifies this`conductor, this`conexiones, this`suscrito
      ensures !IdValido(idConductor) ==> conductor == old(conductor) && conexiones == old(conexiones) && suscrito == old(suscrito)
      ensures IdValido(idConductor) ==> conductor == idConductor && conexiones == old(conexiones) + 1 && !suscrito
      ensures contador == old(contador)
      ensures Valid()
    {
      if !IdValido(idConductor) {
        return;
      }
      conductor := idConductor;
      conexiones := conexiones + 1;
      suscrito := false;
    }

    method AlConectar()
      requires Valid() && conductor.Some?
      modifies this`suscrito
      ensures suscrito && contador == old(contador)
      ensures Valid()
    {
      suscrito := true;
    }

    /** A pushed message: the counter goes up by exactly one and never down. */
    method AlRecibirMensaje(mensaje: string)
      requires Valid() && suscrito
      modifies this`contador, this`insignia, this`toasts
      ensures contador == old(contador) + 1
      ensures insignia == if hayElemento then Some(InsigniaDe(contador)) else old(insignia)
      ensures toasts == old(toasts) + [mensaje]
      ensures Valid()
    {
      ActualizarContador(1);
      MostrarToastNotificacion(mensaje);
    }

    /** The error callback restarts with the same driver id; the counter is kept. */
    method AlFallarConexion()
      requires Valid() && conductor.Some?
      modifies this`conductor, this`conexiones, this`suscrito
      ensures conductor == old(conductor) && conexiones == old(conexiones) + 1 && contador == old(contador) && !suscrito
      ensures Valid()
    {
      IniciarConexionNotificaciones(conductor);
    }
  }
}
