/**
 * `notificacionesConductor.js`: the same counter, badge, toast and reconnect
 * logic as the shared script, without the connect-time resynchronisation:
 * once started, only pushed messages and confirmed mark-reads move the
 * counter. The toast's click navigates immediately.
 */
module NotificacionesConductor {
  import opened Base
  import opened Contador
  import opened Notificaciones

  class PaginaNotificacionesConductor {
    var contador: int
    /** Whether the page has a `notificacion-contador` element. */
    const hayElemento: bool
    /** The badge as last written; none until the script first writes it. */
    var insignia: Option<Insignia>
    /** The id the current connection was started for. */
    var usuario: Option<int>
    /** SockJS connections opened so far. */
    var conexiones: nat
    /** The current connection is up and subscribed. */
    var suscrito: bool
    /** Toasts shown, in order, and those given a click handler. */
    var toasts: seq<NotificacionDTO>
    var clicables: seq<NotificacionDTO>
    /** Ids sent to `/notificaciones/marcar-leida/{id}`, in order. */
    var marcadas: seq<int>
    /** `window.location.href` once a click has set it. */
    var destino: Option<string>

    /** The counter is never negative and the badge, once written, shows it and is visible exactly when it is positive. */
    ghost predicate Valid()
      reads this
    {
      contador >= 0
      && (insignia.Some? ==> insignia.value == InsigniaDe(contador))
      && (!hayElemento ==> insignia.None?)
      && (suscrito ==> usuario.Some?)
      && (usuario.Some? ==> IdValido(usuario))
      && (forall k :: 0 <= k < |clicables| ==> TieneDestino(clicables[k]))
    }

    /** The state when the script has loaded: `let contadorNotificaciones = 0`. */
    constructor (hayElemento: bool)
      ensures this.hayElemento == hayElemento && contador == 0 && insignia == None && usuario == None
      ensures conexiones == 0 && !suscrito && toasts == [] && clicables == [] && marcadas == [] && destino == None
      ensures Valid()
    {
      this.hayElemento := hayElemento;
      contador, insignia, usuario, conexiones, suscrito := 0, None, None, 0, false;
      toasts, clicables, marcadas, destino := [], [], [], None;
    }

    /** `actualizarContador(incremento)`. */
    method ActualizarContador(incremento: int)
      requires !hayElemento ==> insignia.None?
      requires suscrito ==> usuario.Some?
      requires usuario.Some? ==> IdValido(usuario)
      requires forall k :: 0 <= k < |clicables| ==> TieneDestino(clicables[k])
      modifies this`contador, this`insignia
      ensures contador == Ajustar(old(contador), incremento)
      ensures insignia == if hayElemento then Some(InsigniaDe(contador)) else old(insignia)
      ensures Valid()
    {
      contador := contador + incremento;
      if contador < 0 {
        contador := 0;
      }
      if hayElemento {
        insignia := Some(InsigniaDe(contador));
      }
    }

    /** `marcarNotificacionComoLeida(id)`: the POST is sent; only its success takes one off the counter. */
    method MarcarNotificacionComoLeida(idNotificacion: int, exito: bool)
      requires Valid()
      modifies this`contador, this`insignia, this`marcadas
      ensures marcadas == old(marcadas) + [idNotificacion]
      ensures contador == if exito then Ajustar(old(contador), -1) else old(contador)
      ensures insignia == if exito && hayElemento then Some(InsigniaDe(contador)) else old(insignia)
      ensures Valid()
    {
      marcadas := marcadas + [idNotificacion];
      if exito {
        ActualizarContador(-1);
      }
    }

    /** `mostrarToastNotificacion(dto)`: the toast is shown; it gets a click handler only when it has a link. */
    method MostrarToastNotificacion(dto: NotificacionDTO)
      requires Valid()
      modifies this`toasts, this`clicables
      ensures toasts == old(toasts) + [dto]
      ensures clicables == if TieneDestino(dto) then old(clicables) + [dto] else old(clicables)
      ensures Valid()
    {
      toasts := toasts + [dto];
      if TieneDestino(dto) {
        clicables := clicables + [dto];
      }
    }

    /**
     * A click on the `i`-th toast with a handler: it marks the notification
     * read only while the counter is positive, and goes to the link at once.
     */
    method ClicEnToast(i: nat, exito: bool)
      requires Valid() && i < |clicables|
      modifies this`contador, this`insignia, this`marcadas, this`destino
      ensures contador == Paso(old(contador), Clic(exito))
      ensures marcadas == if old(contador) > 0 then old(marcadas) + [clicables[i].idNotificacion] else old(marcadas)
      ensures destino == Some(ContextPath + clicables[i].urlDestino.value)
      ensures insignia == if old(contador) > 0 && exito && hayElemento then Some(InsigniaDe(contador)) else old(insignia)
      ensures Valid()
    {
      var dto := clicables[i];
      if contador > 0 {
        MarcarNotificacionComoLeida(dto.idNotificacion, exito);
      }
      destino := Some(ContextPath + dto.urlDestino.GetOr(""));
    }

    /**
     * `iniciarConexionNotificaciones(idUsuario, contadorInicial)`: an invalid id
     * changes nothing; otherwise the counter becomes `contadorInicial || 0`
     * (clamped at 0 by the following update) and a connection is opened.
     */
    method IniciarConexionNotificaciones(idUsuario: Option<int>, contadorInicial: Option<int>)
      requires Valid()
      modifies this`contador, this`insignia, this`usuario, this`conexiones, this`suscrito
      ensures !IdValido(idUsuario) ==>
                contador == old(contador) && insignia == old(insignia) && usuario == old(usuario)
                && conexiones == old(conexiones) && suscrito == old(suscrito)
      ensures IdValido(idUsuario) ==>
                contador == Ajustar(OCero(contadorInicial.GetOr(0), contadorInicial.Some?), 0)
                && usuario == idUsuario && conexiones == old(conexiones) + 1 && !suscrito
                && insignia == (if hayElemento then Some(InsigniaDe(contador)) else old(insignia))
      ensures Valid()
    {
      if !IdValido(idUsuario) {
        return;
      }
      contador := OCero(contadorInicial.GetOr(0), contadorInicial.Some?);
      suscrito := false;
      ActualizarContador(0);
      usuario := idUsuario;
      conexiones := conexiones + 1;
    }

    /** The connect callback: only the subscription is made; the counter is not touched. */
    method AlConectar()
      requires Valid() && usuario.Some?
      modifies this`suscrito
      ensures suscrito && contador == old(contador)
      ensures Valid()
    {
      suscrito := true;
    }

    /** A message on the subscription: one more unread, and a toast. */
    method AlRecibirMensaje(dto: NotificacionDTO)
      requires Valid() && suscrito
      modifies this`contador, this`insignia, this`toasts, this`clicables
      ensures contador == Paso(old(contador), Mensaje) && contador == old(contador) + 1
      ensures insignia == if hayElemento then Some(InsigniaDe(contador)) else old(insignia)
      ensures toasts == old(toasts) + [dto]
      ensures clicables == if TieneDestino(dto) then old(clicables) + [dto] else old(clicables)
      ensures Valid()
    {
      ActualizarContador(1);
      MostrarToastNotificacion(dto);
    }

    /** The error callback: start again for the same user with the current counter, which therefore stays. */
    method AlFallarConexion()
      requires Valid() && usuario.Some?
      modifies this`contador, this`insignia, this`usuario, this`conexiones, this`suscrito
      ensures contador == Paso(old(contador), Reconexion) && contador == old(contador)
      ensures usuario == old(usuario) && conexiones == old(conexiones) + 1 && !suscrito
      ensures insignia == if hayElemento then Some(InsigniaDe(contador)) else old(insignia)
      ensures Valid()
    {
      IniciarConexionNotificaciones(usuario, Some(contador));
    }
  }
}
