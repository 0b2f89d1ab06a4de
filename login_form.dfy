/** The login form: the e-mail check shared with registration, the three-way outcome of a
    successful request (second factor, session, or nothing), the error mapping of a rejected
    one, and the way back from the second-factor screen. */
module LoginForm {
  import opened Js
  import RegisterForm

  const ErrorEmail: string := "Por favor, ingresa un correo electrónico válido"
  const ErrorCredenciales: string := "Credenciales incorrectas. Verifica tu email y contraseña."
  const ErrorNoEncontrado: string := "Usuario no encontrado. Verifica tu email o regístrate."
  const ErrorGenerico: string := "Error al iniciar sesión. Inténtalo de nuevo."

  /** The outcome of `POST /auth/login`: a response body, or a rejection with its status and
      its `message` and `mensaje` fields. */
  datatype Respuesta =
    | Aceptada(requires2FA: bool, tempToken: Option<string>, token: Option<string>)
    | Rechazada(status: Option<int>, message: Option<string>, mensaje: Option<string>)

  /** The error shown for a rejection: `message` is tried before `mensaje` here. */
  function ErrorLogin(status: Option<int>, message: Option<string>, mensaje: Option<string>): (e: string)
    ensures status == Some(401) ==> e == ErrorCredenciales
    ensures status == Some(404) ==> e == ErrorNoEncontrado
    ensures status != Some(401) && status != Some(404) ==>
      e == OrDefault(Some(OrDefault(message, OrDefault(mensaje, ""))), ErrorGenerico)
    ensures e != ""
  {
    if status == Some(401) then ErrorCredenciales
    else if status == Some(404) then ErrorNoEncontrado
    else OrDefault(Some(OrDefault(message, OrDefault(mensaje, ""))), ErrorGenerico)
  }

  /** The generic fallback prefers `message`, then `mensaje`. */
  lemma ErrorLoginFallback(status: Option<int>, message: Option<string>, mensaje: Option<string>)
    requires status != Some(401) && status != Some(404)
    ensures Truthy(message) ==> ErrorLogin(status, message, mensaje) == message.value
    ensures !Truthy(message) && Truthy(mensaje) ==> ErrorLogin(status, message, mensaje) == mensaje.value
    ensures !Truthy(message) && !Truthy(mensaje) ==> ErrorLogin(status, message, mensaje) == ErrorGenerico
  {
  }

  class Formulario {
    var email: string
    var password: string
    var loading: bool
    var emailError: string
    var loginError: string
    var showTwoFactor: bool
    /** `undefined` can be stored when the server omits the temporary token. */
    var tempToken: Option<string>

    constructor ()
      ensures email == "" && password == "" && !loading && emailError == "" && loginError == ""
      ensures !showTwoFactor && tempToken == Some("")
    {
      email := "";
      password := "";
      loading := false;
      emailError := "";
      loginError := "";
      showTwoFactor := false;
      tempToken := Some("");
    }

    /** `handleEmailChange`. */
    method HandleEmailChange(value: string)
      modifies this
      ensures email == value && loginError == ""
      ensures emailError == (if value != "" && !RegisterForm.ValidateEmail(value) then ErrorEmail else "")
      ensures password == old(password) && loading == old(loading)
      ensures showTwoFactor == old(showTwoFactor) && tempToken == old(tempToken)
    {
      email := value;
      emailError := "";
      loginError := "";
      if value != "" && !RegisterForm.ValidateEmail(value) {
        emailError := ErrorEmail;
      }
    }

    /** `handleSubmit`. An invalid address stops before the request. A body asking for the
        second factor switches to that screen with its temporary token; one with a session
        token returns the token to be stored; any other body changes nothing more. */
    method HandleSubmit(respuesta: Respuesta) returns (sesion: Option<string>)
      modifies this
      ensures !RegisterForm.ValidateEmail(old(email)) ==>
        sesion.None? && emailError == ErrorEmail && loginError == old(loginError) &&
        loading == old(loading) && showTwoFactor == old(showTwoFactor) && tempToken == old(tempToken)
      ensures RegisterForm.ValidateEmail(old(email)) ==> !loading && emailError == ""
      ensures RegisterForm.ValidateEmail(old(email)) && respuesta.Aceptada? && respuesta.requires2FA ==>
        showTwoFactor && tempToken == respuesta.tempToken && sesion.None? && loginError == ""
      ensures RegisterForm.ValidateEmail(old(email)) && respuesta.Aceptada? && !respuesta.requires2FA ==>
        sesion == (if Truthy(respuesta.token) then respuesta.token else None) &&
        showTwoFactor == old(showTwoFactor) && tempToken == old(tempToken) && loginError == ""
      ensures RegisterForm.ValidateEmail(old(email)) && respuesta.Rechazada? ==>
        sesion.None? && loginError == ErrorLogin(respuesta.status, respuesta.message, respuesta.mensaje) &&
        showTwoFactor == old(showTwoFactor) && tempToken == old(tempToken)
      ensures email == old(email) && password == old(password)
    {
      sesion := None;
      if !RegisterForm.ValidateEmail(email) {
        emailError := ErrorEmail;
        return;
      }
      loading := true;
      emailError := "";
      loginError := "";
      if respuesta.Aceptada? {
        if respuesta.requires2FA {
          tempToken := respuesta.tempToken;
          showTwoFactor := true;
        } else if Truthy(respuesta.token) {
          sesion := respuesta.token;
        }
      } else {
        loginError := ErrorLogin(respuesta.status, respuesta.message, respuesta.mensaje);
      }
      loading := false;
    }

    /** `handleBackFrom2FA`: back to the form with the token and password cleared. */
    method HandleBackFrom2FA()
      modifies this
      ensures !showTwoFactor && tempToken == Some("") && password == ""
      ensures email == old(email) && emailError == old(emailError) && loginError == old(loginError)
      ensures loading == old(loading)
    {
      showTwoFactor := false;
      tempToken := Some("");
      password := "";
    }
  }
}
