/** The landing page of the Google sign-in redirect: the decision on the `token` and `error`
    query parameters. */
module AuthCallbackPage {
  import opened Js

  const MsgPorDefecto: string := "Error en la autenticación"
  const MsgAuthFailed: string := "Falló la autenticación con Google"
  const MsgServerError: string := "Error del servidor durante la autenticación"
  const MsgDesconocido: string := "Error desconocido en la autenticación"
  const MsgExito: string := "¡Autenticación exitosa con Google!"
  const MsgProcesando: string := "Error procesando la autenticación"
  const MsgSinToken: string := "No se recibió token de autenticación"

  /** What `handleCallback` does: one toast, the token it stores (if any) and where it goes. */
  datatype Resultado = Resultado(exito: bool, mensaje: string, tokenGuardado: Option<string>, destino: string)

  /** The message for an `error` parameter. */
  function MensajeError(error: string): (m: string)
    ensures error == "auth_failed" ==> m == MsgAuthFailed
    ensures error == "server_error" ==> m == MsgServerError
    ensures error != "auth_failed" && error != "server_error" ==> m == MsgDesconocido
    ensures m != MsgPorDefecto
  {
    if error == "auth_failed" then MsgAuthFailed
    else if error == "server_error" then MsgServerError
    else MsgDesconocido
  }

  /** `handleCallback`; `guardadoOk` is whether writing the token to storage succeeded. */
  function HandleCallback(token: Option<string>, error: Option<string>, guardadoOk: bool): (r: Resultado)
    ensures Truthy(error) ==>
      r == Resultado(false, MensajeError(error.value), None, "/login")
    ensures !Truthy(error) && Truthy(token) && guardadoOk ==>
      r == Resultado(true, MsgExito, token, "/dashboard")
    ensures !Truthy(error) && Truthy(token) && !guardadoOk ==>
      r == Resultado(false, MsgProcesando, None, "/login")
    ensures !Truthy(error) && !Truthy(token) ==>
      r == Resultado(false, MsgSinToken, None, "/login")
  {
    if Truthy(error) then Resultado(false, MensajeError(error.value), None, "/login")
    else if Truthy(token) then
      (if guardadoOk then Resultado(true, MsgExito, token, "/dashboard")
       else Resultado(false, MsgProcesando, None, "/login"))
    else Resultado(false, MsgSinToken, None, "/login")
  }

  /** Only a clean callback signs in: the token is stored and the dashboard opened exactly
      when there is a token, no error, and storage worked; every other case lands on the
      login page, and the generic default message is never shown. */
  lemma SoloTokenSinErrorEntra(token: Option<string>, error: Option<string>, guardadoOk: bool)
    ensures var r := HandleCallback(token, error, guardadoOk);
      (r.destino == "/dashboard" <==> !Truthy(error) && Truthy(token) && guardadoOk) &&
      (r.tokenGuardado.Some? <==> r.destino == "/dashboard") &&
      (r.destino != "/dashboard" ==> r.destino == "/login") &&
      r.mensaje != MsgPorDefecto
  {
  }
}
