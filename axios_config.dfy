/** The shared HTTP client's interceptors: the in-flight request counter behind the global
    loading signal, the `Authorization` header, the mapping from a failed response to the
    messages and the session effects it causes, and the bounded error log. */
module AxiosConfig {
  import opened Js

  // ---------------------------------------------------------------------------
  // The in-flight counter and the loading signal
  // ---------------------------------------------------------------------------

  /** A request entering the request interceptor, or one leaving through the request-error,
      response or response-error interceptor. */
  datatype Evento = Inicio | Fin

  /** The counter and every value handed to `setLoading`, oldest first. */
  datatype Carga = Carga(activos: int, emitidos: seq<bool>)

  /** The last value handed to the listeners; nothing handed means "not loading". */
  function Ultimo(emitidos: seq<bool>): bool {
    if emitidos == [] then false else emitidos[|emitidos| - 1]
  }

  /** One interceptor step: `activeRequests++` and `true` on 0 → 1, or `activeRequests--` and
      `false` on reaching 0. */
  function Paso(c: Carga, e: Evento): (r: Carga)
    ensures e == Inicio ==> r.activos == c.activos + 1
    ensures e == Fin ==> r.activos == c.activos - 1
    ensures r.emitidos == c.emitidos || r.emitidos == c.emitidos + [r.activos > 0]
    ensures |r.emitidos| == |c.emitidos| + 1 <==>
      (e == Inicio && c.activos == 0) || (e == Fin && c.activos == 1)
  {
    match e
    case Inicio => Carga(c.activos + 1, if c.activos + 1 == 1 then c.emitidos + [true] else c.emitidos)
    case Fin => Carga(c.activos - 1, if c.activos - 1 == 0 then c.emitidos + [false] else c.emitidos)
  }

  /** Runs a sequence of interceptor events from `c`. */
  function Ejecutar(c: Carga, eventos: seq<Evento>): Carga
  {
    if eventos == [] then c
    else Paso(Ejecutar(c, eventos[..|eventos| - 1]), eventos[|eventos| - 1])
  }

  function Cuenta(eventos: seq<Evento>, e: Evento): nat
  {
    if eventos == [] then 0
    else Cuenta(eventos[..|eventos| - 1], e) + (if eventos[|eventos| - 1] == e then 1 else 0)
  }

  /** The requests started and not yet finished. */
  function EnVuelo(eventos: seq<Evento>): int {
    Cuenta(eventos, Inicio) - Cuenta(eventos, Fin)
  }

  /** No request finishes before it started: every prefix has at least as many starts as
      finishes. This is the assumption under which the counter is meaningful; the request-error
      interceptor alone can break it, as `Api.FalloEnPeticion` shows. */
  ghost predicate Equilibrada(eventos: seq<Evento>) {
    forall k :: 0 <= k <= |eventos| ==> EnVuelo(eventos[..k]) >= 0
  }

  /** Over a balanced history from the initial state, the counter is the number of requests in
      flight and the last loading value handed out says whether any is. */
  lemma {:induction false} EjecutarEquilibrada(eventos: seq<Evento>)
    requires Equilibrada(eventos)
    ensures Ejecutar(Carga(0, []), eventos).activos == EnVuelo(eventos)
    ensures Ultimo(Ejecutar(Carga(0, []), eventos).emitidos) == (EnVuelo(eventos) > 0)
  {
    if eventos != [] {
      var init := eventos[..|eventos| - 1];
      assert Equilibrada(init) by {
        forall k | 0 <= k <= |init|
          ensures EnVuelo(init[..k]) >= 0
        {
          assert init[..k] == eventos[..k];
        }
      }
      EjecutarEquilibrada(init);
      assert eventos[..|eventos|] == eventos;
      assert EnVuelo(eventos) >= 0;
    }
  }

  /** Without the assumption the counter goes negative: a request error on an idle client. */
  lemma ErrorSinInicio()
    ensures Ejecutar(Carga(0, []), [Fin]).activos == -1
    ensures !Equilibrada([Fin])
  {
    assert [Fin][..0] == [];
    assert [Fin][..1] == [Fin];
  }

  // ---------------------------------------------------------------------------
  // The status mapping of the response-error interceptor
  // ---------------------------------------------------------------------------

  /** One entry of a 422 body's `errors` array. */
  datatype ErrorCampo = ErrorCampo(msg: Option<string>, message: Option<string>)

  /** The fields of an error body the interceptor reads. */
  datatype Datos = Datos(mensaje: Option<string>, code: Option<string>, errors: Option<seq<ErrorCampo>>)

  datatype Respuesta = Respuesta(status: int, data: Option<Datos>)

  /** A failed request: the response, if any, and axios's own error code. */
  datatype ErrorApi = ErrorApi(response: Option<Respuesta>, code: Option<string>)

  /** What the interceptor does about a failure: the toasts it shows, in order, and whether it
      removes the stored token and sends the browser to `/login`. */
  datatype Efecto = Efecto(mensajes: seq<string>, borrarToken: bool, redirigir: bool)

  const MsgDatosInvalidos: string := "Datos inválidos"
  const MsgSesionExpirada: string := "Tu sesión ha expirado. Por favor, inicia sesión nuevamente."
  const MsgSinToken: string := "Debes iniciar sesión para acceder a esta función"
  const MsgNoAutorizado: string := "No autorizado"
  const MsgSinPermisos: string := "No tienes permisos para realizar esta acción"
  const MsgNoEncontrado: string := "Recurso no encontrado"
  const MsgConflicto: string := "Conflicto en los datos"
  const MsgValidacion: string := "Error de validación"
  const MsgDemasiadas: string := "Demasiadas peticiones. Intenta más tarde."
  const MsgInterno: string := "Error interno del servidor. Intenta más tarde."
  const MsgNoDisponible: string := "El servidor no está disponible. Intenta más tarde."
  const MsgConexion: string := "Error de conexión. Verifica tu internet."
  const MsgTiempo: string := "La petición tardó demasiado. Intenta nuevamente."
  const MsgInesperado: string := "Ha ocurrido un error inesperado"

  function Status(e: ErrorApi): Option<int> {
    if e.response.Some? then Some(e.response.value.status) else None
  }

  /** `errorData?.mensaje`. */
  function MensajeDatos(e: ErrorApi): Option<string> {
    if e.response.Some? && e.response.value.data.Some? then e.response.value.data.value.mensaje else None
  }

  /** `errorData?.code`. */
  function CodigoDatos(e: ErrorApi): Option<string> {
    if e.response.Some? && e.response.value.data.Some? then e.response.value.data.value.code else None
  }

  /** `errorData?.errors`, when it is an array. */
  function ErroresCampo(e: ErrorApi): Option<seq<ErrorCampo>> {
    if e.response.Some? && e.response.value.data.Some? then e.response.value.data.value.errors else None
  }

  /** `err.msg || err.message`; a toast with neither shows the empty text. */
  function TextoCampo(c: ErrorCampo): string {
    if Truthy(c.msg) then c.msg.value else if c.message.Some? then c.message.value else ""
  }

  function TextosCampos(cs: seq<ErrorCampo>): (r: seq<string>)
    ensures |r| == |cs| && forall i :: 0 <= i < |cs| ==> r[i] == TextoCampo(cs[i])
  {
    if cs == [] then [] else TextosCampos(cs[..|cs| - 1]) + [TextoCampo(cs[|cs| - 1])]
  }

  /** The codes of a 401 body that leave the page. */
  const CodigosRedireccion: set<string> := {"TOKEN_EXPIRED", "NO_TOKEN"}

  /** The `switch (status)` of the response-error interceptor. */
  function Manejar(e: ErrorApi): (r: Efecto)
    ensures r.borrarToken <==> Status(e) == Some(401) && CodigoDatos(e) == Some("TOKEN_EXPIRED")
    ensures r.redirigir <==> Status(e) == Some(401) && CodigoDatos(e).Some? && CodigoDatos(e).value in CodigosRedireccion
    ensures Status(e) != Some(422) || ErroresCampo(e).None? ==> |r.mensajes| == 1
    ensures Status(e) == Some(422) && ErroresCampo(e).Some? ==>
      r.mensajes == TextosCampos(ErroresCampo(e).value)
    ensures e.response.None? ==> r.mensajes == [MsgConexion]
  {
    var datos := MensajeDatos(e);
    match Status(e)
    case None => Efecto([MsgConexion], false, false)
    case Some(s) =>
      if s == 400 then Efecto([OrDefault(datos, MsgDatosInvalidos)], false, false)
      else if s == 401 then
        (if CodigoDatos(e) == Some("TOKEN_EXPIRED") then Efecto([MsgSesionExpirada], true, true)
         else if CodigoDatos(e) == Some("NO_TOKEN") then Efecto([MsgSinToken], false, true)
         else Efecto([OrDefault(datos, MsgNoAutorizado)], false, false))
      else if s == 403 then Efecto([MsgSinPermisos], false, false)
      else if s == 404 then Efecto([MsgNoEncontrado], false, false)
      else if s == 409 then Efecto([OrDefault(datos, MsgConflicto)], false, false)
      else if s == 422 then
        (if ErroresCampo(e).Some? then Efecto(TextosCampos(ErroresCampo(e).value), false, false)
         else Efecto([OrDefault(datos, MsgValidacion)], false, false))
      else if s == 429 then Efecto([MsgDemasiadas], false, false)
      else if s == 500 then Efecto([MsgInterno], false, false)
      else if s in {502, 503, 504} then Efecto([MsgNoDisponible], false, false)
      else if e.code == Some("NETWORK_ERROR") then Efecto([MsgConexion], false, false)
      else if e.code == Some("ECONNABORTED") then Efecto([MsgTiempo], false, false)
      else Efecto([OrDefault(datos, MsgInesperado)], false, false)
  }

  /** 502, 503 and 504 are one case: the same single message, whatever the body says. */
  lemma ServidorNoDisponible(e: ErrorApi)
    requires Status(e) == Some(502) || Status(e) == Some(503) || Status(e) == Some(504)
    ensures Manejar(e) == Efecto([MsgNoDisponible], false, false)
  {
  }

  /** A 401 with `NO_TOKEN` leaves the page but keeps the stored token; `TOKEN_EXPIRED` removes
      it first. */
  lemma SesionNoValida(e: ErrorApi)
    requires Status(e) == Some(401)
    ensures CodigoDatos(e) == Some("NO_TOKEN") ==> Manejar(e) == Efecto([MsgSinToken], false, true)
    ensures CodigoDatos(e) == Some("TOKEN_EXPIRED") ==> Manejar(e) == Efecto([MsgSesionExpirada], true, true)
  {
  }

  /** A server message in the body replaces the default of the statuses that read it. */
  lemma MensajeDelServidor(e: ErrorApi)
    requires Truthy(MensajeDatos(e)) && Status(e).Some?
    requires Status(e).value in {400, 409} || (Status(e) == Some(401) && CodigoDatos(e).None?)
    ensures Manejar(e).mensajes == [MensajeDatos(e).value]
  {
  }

  // ---------------------------------------------------------------------------
  // The client
  // ---------------------------------------------------------------------------

  const MaxErrores: nat := 20

  /** An entry of the `api_errors` log. The time and user agent it also records come from the
      environment and are not modelled. */
  datatype Registro = Registro(url: Option<string>, metodo: Option<string>, status: Option<int>,
                               message: Option<string>)

  /** A listener registered with `onLoadingChange`, identified by the caller. */
  type Listener = nat

  class Api {
    var activeRequests: int
    /** Every value passed to `setLoading`, oldest first; each is delivered to every listener
        registered at that moment. */
    var emitidos: seq<bool>
    var listeners: set<Listener>
    /** `localStorage.token`. */
    var token: Option<string>
    /** `localStorage.api_errors`. */
    var apiErrors: seq<Registro>
    var redirigidoALogin: bool
    var toasts: seq<string>

    /** The counter is never negative and the listeners were last told whether a request is
        in flight. */
    predicate Valid()
      reads this
    {
      activeRequests >= 0 && Ultimo(emitidos) == (activeRequests > 0) && |apiErrors| <= MaxErrores
    }

    constructor (tokenGuardado: Option<string>, erroresGuardados: seq<Registro>)
      requires |erroresGuardados| <= MaxErrores
      ensures activeRequests == 0 && emitidos == [] && listeners == {}
      ensures token == tokenGuardado && apiErrors == erroresGuardados
      ensures !redirigidoALogin && toasts == []
      ensures Valid()
    {
      activeRequests := 0;
      emitidos := [];
      listeners := {};
      token := tokenGuardado;
      apiErrors := erroresGuardados;
      redirigidoALogin := false;
      toasts := [];
    }

    /** `onLoadingChange(callback)`. */
    method OnLoadingChange(cb: Listener)
      modifies this
      ensures listeners == old(listeners) + {cb}
      ensures activeRequests == old(activeRequests) && emitidos == old(emitidos)
      ensures token == old(token) && apiErrors == old(apiErrors)
      ensures redirigidoALogin == old(redirigidoALogin) && toasts == old(toasts)
    {
      listeners := listeners + {cb};
    }

    /** The function `onLoadingChange` returns: removes exactly that listener. */
    method Desuscribir(cb: Listener)
      modifies this
      ensures listeners == old(listeners) - {cb}
      ensures activeRequests == old(activeRequests) && emitidos == old(emitidos)
      ensures token == old(token) && apiErrors == old(apiErrors)
      ensures redirigidoALogin == old(redirigidoALogin) && toasts == old(toasts)
    {
      listeners := listeners - {cb};
    }

    /** The request interceptor. Returns the `Authorization` header it sets, if any. */
    method AlEnviar() returns (authorization: Option<string>)
      requires Valid()
      modifies this
      ensures Valid()
      ensures Carga(activeRequests, emitidos) == Paso(Carga(old(activeRequests), old(emitidos)), Inicio)
      ensures authorization.Some? <==> Truthy(token)
      ensures authorization.Some? ==> authorization.value == "Bearer " + token.value
      ensures listeners == old(listeners) && token == old(token) && apiErrors == old(apiErrors)
      ensures redirigidoALogin == old(redirigidoALogin) && toasts == old(toasts)
    {
      activeRequests := activeRequests + 1;
      if activeRequests == 1 {
        emitidos := emitidos + [true];
      }
      authorization := None;
      if Truthy(token) {
        authorization := Some("Bearer " + token.value);
      }
    }

    /** The decrement shared by the request-error, response and response-error interceptors. */
    method Terminar()
      requires Valid()
      modifies this
      ensures Carga(activeRequests, emitidos) == Paso(Carga(old(activeRequests), old(emitidos)), Fin)
      ensures old(activeRequests) > 0 ==> Valid()
      ensures old(activeRequests) == 0 ==> activeRequests == -1
      ensures listeners == old(listeners) && token == old(token) && apiErrors == old(apiErrors)
      ensures redirigidoALogin == old(redirigidoALogin) && toasts == old(toasts)
    {
      activeRequests := activeRequests - 1;
      if activeRequests == 0 {
        emitidos := emitidos + [false];
      }
    }

    /** The request-error interceptor: a decrement with no increment before it, so on an idle
        client the counter goes to -1. */
    method FalloEnPeticion()
      requires Valid()
      modifies this
      ensures Carga(activeRequests, emitidos) == Paso(Carga(old(activeRequests), old(emitidos)), Fin)
      ensures old(activeRequests) > 0 ==> Valid()
      ensures old(activeRequests) == 0 ==> activeRequests == -1
      ensures listeners == old(listeners) && token == old(token) && apiErrors == old(apiErrors)
      ensures redirigidoALogin == old(redirigidoALogin) && toasts == old(toasts)
    {
      Terminar();
    }

    /** The response interceptor. */
    method AlResponder()
      requires Valid() && activeRequests > 0
      modifies this
      ensures Valid()
      ensures Carga(activeRequests, emitidos) == Paso(Carga(old(activeRequests), old(emitidos)), Fin)
      ensures listeners == old(listeners) && token == old(token) && apiErrors == old(apiErrors)
      ensures redirigidoALogin == old(redirigidoALogin) && toasts == old(toasts)
    {
      Terminar();
    }

    /** `logError`: in production the entry is appended and only the newest 20 are kept. */
    method LogError(registro: Registro, produccion: bool)
      requires Valid()
      modifies this
      ensures Valid()
      ensures apiErrors == if produccion then KeepLast(old(apiErrors) + [registro], MaxErrores) else old(apiErrors)
      ensures produccion ==> apiErrors[|apiErrors| - 1] == registro
      ensures activeRequests == old(activeRequests) && emitidos == old(emitidos)
      ensures listeners == old(listeners) && token == old(token)
      ensures redirigidoALogin == old(redirigidoALogin) && toasts == old(toasts)
    {
      if produccion {
        var existentes := apiErrors + [registro];
        if |existentes| > MaxErrores {
          existentes := existentes[|existentes| - MaxErrores..];
        }
        apiErrors := existentes;
        KeepLastAppendNewest(old(apiErrors), registro, MaxErrores);
      }
    }

    /** The response-error interceptor: the decrement, the toasts and session effects of
        `Manejar`, and the log entry. */
    method AlFallarRespuesta(e: ErrorApi, registro: Registro, produccion: bool)
      requires Valid() && activeRequests > 0
      modifies this
      ensures Valid()
      ensures Carga(activeRequests, emitidos) == Paso(Carga(old(activeRequests), old(emitidos)), Fin)
      ensures toasts == old(toasts) + Manejar(e).mensajes
      ensures token == if Manejar(e).borrarToken then None else old(token)
      ensures redirigidoALogin == (old(redirigidoALogin) || Manejar(e).redirigir)
      ensures apiErrors == if produccion then KeepLast(old(apiErrors) + [registro], MaxErrores) else old(apiErrors)
      ensures listeners == old(listeners)
    {
      Terminar();
      var efecto := Manejar(e);
      toasts := toasts + efecto.mensajes;
      if efecto.borrarToken {
        token := None;
      }
      if efecto.redirigir {
        redirigidoALogin := true;
      }
      LogError(registro, produccion);
    }
  }
}
