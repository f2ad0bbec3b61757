/**
 * `notificacionesPolling.js`: instead of a socket, the page fetches the
 * pending notifications (which the server marks seen as it returns them)
 * once at start and then every 10 000 ms. Each successful batch is shown one
 * `confirm()` dialog at a time, and the badge is overwritten with the batch
 * size. Every failure, a 401 included, is swallowed and the interval keeps
 * running. The fetch's outcome and the user's dialog answers are parameters.
 */
module NotificacionesPolling {
  import opened Base
  import opened Contador

  const PollingInterval := 10000

  /** One element of the JSON array: `{mensaje, urlDestino, fechaCreacion}`. */
  datatype NotificacionPendiente = NotificacionPendiente(mensaje: string, urlDestino: Option<string>)

  /** What `fetch(API_URL)` settles to. `cuerpo` is none when `response.json()` does not give an array. */
  datatype Respuesta =
    | ErrorDeRed
    | Http(status: int, cuerpo: Option<seq<NotificacionPendiente>>)

  predicate Ok(status: int) {
    200 <= status <= 299
  }

  /** The response reaches the second `.then`: not 401, ok, and an array. */
  predicate Exitosa(r: Respuesta) {
    r.Http? && r.status != 401 && Ok(r.status) && r.cuerpo.Some?
  }

  /** `actualizarContador(count)`: a positive count is shown; anything else shows 0, hidden. */
  function InsigniaPolling(count: int): (b: Insignia)
    ensures b.visible <==> count > 0
    ensures count > 0 ==> b.texto == count
    ensures count <= 0 ==> b.texto == 0
  {
    if count > 0 then Insignia(count, true) else Insignia(0, false)
  }

  /** The dialog for `n` was answered OK and its link is truthy, so it navigates. */
  predicate Confirma(n: NotificacionPendiente, respuesta: bool) {
    respuesta && n.urlDestino.Some? && n.urlDestino.value != ""
  }

  /**
   * Where `window.location.href` points after the dialogs for `lote`, answered
   * `respuestas`, starting from `previo`: each confirmed notification with a
   * truthy link overwrites it, so the last such one wins.
   */
  function DestinoTras(previo: Option<string>, lote: seq<NotificacionPendiente>, respuestas: seq<bool>): (d: Option<string>)
    requires |respuestas| == |lote|
    ensures d == previo || exists i :: 0 <= i < |lote| && Confirma(lote[i], respuestas[i]) && d == lote[i].urlDestino
    ensures (forall i :: 0 <= i < |lote| ==> !Confirma(lote[i], respuestas[i])) ==> d == previo
    ensures forall j | 0 <= j < |lote| && Confirma(lote[j], respuestas[j]) && (forall k | j < k < |lote| :: !Confirma(lote[k], respuestas[k])) ::
              d == lote[j].urlDestino
    decreases |lote|
  {
    if lote == [] then previo
    else
      var n := |lote| - 1;
      var d := DestinoTras(previo, lote[..n], respuestas[..n]);
      assert forall k | 0 <= k < n :: lote[..n][k] == lote[k] && respuestas[..n][k] == respuestas[k];
      if Confirma(lote[n], respuestas[n]) then lote[n].urlDestino else d
  }

  class PaginaPolling {
    const hayElemento: bool
    var insignia: Option<Insignia>
    /** The notifications shown in a dialog, in order. */
    var mostradas: seq<NotificacionPendiente>
    var destino: Option<string>
    /** Fetches of `/spring/api/notificaciones/pendientes` issued. */
    var consultas: nat
    /** The delays of the `setInterval` registrations; none is ever cleared. */
    var intervalos: seq<int>

    ghost predicate Valid()
      reads this
    {
      (!hayElemento ==> insignia.None?)
      && (insignia.Some? ==> (insignia.value.visible <==> insignia.value.texto > 0))
    }

    constructor (hayElemento: bool)
      ensures this.hayElemento == hayElemento && insignia == None && mostradas == [] && destino == None
      ensures consultas == 0 && intervalos == []
      ensures Valid()
    {
      this.hayElemento := hayElemento;
      insignia, mostradas, destino, consultas, intervalos := None, [], None, 0, [];
    }

    /** `actualizarContador(count)`. */
    method ActualizarContador(count: int)
      requires Valid()
      modifies this`insignia
      ensures insignia == if hayElemento then Some(InsigniaPolling(count)) else old(insignia)
      ensures Valid()
    {
      if hayElemento {
        if count > 0 {
          insignia := Some(Insignia(count, true));
        } else {
          insignia := Some(Insignia(0, false));
        }
      }
    }

    /** `mostrarToastNotificacion(notif)`: a confirmed dialog with a truthy link navigates there. */
    method MostrarToastNotificacion(notif: NotificacionPendiente, confirmado: bool)
      modifies this`mostradas, this`destino
      ensures mostradas == old(mostradas) + [notif]
      ensures destino == if Confirma(notif, confirmado) then notif.urlDestino else old(destino)
    {
      mostradas := mostradas + [notif];
      if confirmado && notif.urlDestino.Some? && notif.urlDestino.value != "" {
        destino := notif.urlDestino;
      }
    }

    /**
     * `checkNotifications()`: one fetch. A successful batch is shown in array
     * order and the badge then shows its length; on any failure nothing but
     * the fetch count changes.
     */
    method CheckNotifications(respuesta: Respuesta, respuestas: seq<bool>)
      requires Valid()
      requires Exitosa(respuesta) ==> |respuestas| == |respuesta.cuerpo.value|
      modifies this`insignia, this`mostradas, this`destino, this`consultas
      ensures consultas == old(consultas) + 1
      ensures !Exitosa(respuesta) ==> insignia == old(insignia) && mostradas == old(mostradas) && destino == old(destino)
      ensures Exitosa(respuesta) ==>
                var lote := respuesta.cuerpo.value;
                mostradas == old(mostradas) + lote
                && destino == DestinoTras(old(destino), lote, respuestas)
                && insignia == (if hayElemento then Some(InsigniaPolling(|lote|)) else old(insignia))
      ensures Valid()
    {
      consultas := consultas + 1;
      if !Exitosa(respuesta) {
        return;
      }
      var lote := respuesta.cuerpo.value;
      var i := 0;
      while i < |lote|
        invariant 0 <= i <= |lote|
        invariant mostradas == old(mostradas) + lote[..i]
        invariant destino == DestinoTras(old(destino), lote[..i], respuestas[..i])
        invariant insignia == old(insignia) && consultas == old(consultas) + 1
      {
        assert lote[..i + 1][..i] == lote[..i] && respuestas[..i + 1][..i] == respuestas[..i];
        MostrarToastNotificacion(lote[i], respuestas[i]);
        assert lote[..i + 1] == lote[..i] + [lote[i]];
        i := i + 1;
      }
      assert lote[..i] == lote && respuestas[..i] == respuestas;
      ActualizarContador(|lote|);
    }

    /** `iniciarPolling()`: one fetch now, then an interval of 10 000 ms that nothing clears. */
    method IniciarPolling(respuesta: Respuesta, respuestas: seq<bool>)
      requires Valid()
      requires Exitosa(respuesta) ==> |respuestas| == |respuesta.cuerpo.value|
      modifies this`insignia, this`mostradas, this`destino, this`consultas, this`intervalos
      ensures consultas == old(consultas) + 1
      ensures intervalos == old(intervalos) + [PollingInterval]
      ensures !Exitosa(respuesta) ==> insignia == old(insignia) && mostradas == old(mostradas) && destino == old(destino)
      ensures Exitosa(respuesta) ==>
                var lote := respuesta.cuerpo.value;
                mostradas == old(mostradas) + lote
                && destino == DestinoTras(old(destino), lote, respuestas)
                && insignia == (if hayElemento then Some(InsigniaPolling(|lote|)) else old(insignia))
      ensures Valid()
    {
      CheckNotifications(respuesta, respuestas);
      intervalos := intervalos + [PollingInterval];
    }

    /** The interval firing: another fetch; the interval stays registered, after a 401 too. */
    method Tick(respuesta: Respuesta, respuestas: seq<bool>)
      requires Valid() && |intervalos| > 0
      requires Exitosa(respuesta) ==> |respuestas| == |respuesta.cuerpo.value|
      modifies this`insignia, this`mostradas, this`destino, this`consultas
      ensures consultas == old(consultas) + 1 && intervalos == old(intervalos)
      ensures !Exitosa(respuesta) ==> insignia == old(insignia) && mostradas == old(mostradas) && destino == old(destino)
      ensures Exitosa(respuesta) ==>
                var lote := respuesta.cuerpo.value;
                mostradas == old(mostradas) + lote
                && destino == DestinoTras(old(destino), lote, respuestas)
                && insignia == (if hayElemento then Some(InsigniaPolling(|lote|)) else old(insignia))
      ensures Valid() && |intervalos| > 0
    {
      CheckNotifications(respuesta, respuestas);
    }
  }
}
