/** The registration form: the e-mail regex, the five password requirements, the change
    handlers and the guards and error mapping of submission. */
module RegisterForm {
  import opened Js

  // ---------------------------------------------------------------------------
  // E-mail: /^[^\s@]+@[^\s@]+\.[^\s@]+$/
  // ---------------------------------------------------------------------------

  /** A character of the class `[^\s@]`. */
  predicate Limpio(c: char) {
    !IsSpace(c) && c != '@'
  }

  ghost predicate LimpioEntre(s: string, desde: int, hasta: int) {
    forall k :: desde <= k < hasta && 0 <= k < |s| ==> Limpio(s[k])
  }

  /** The regex read literally: three non-empty runs of `[^\s@]`, separated by an '@' at `i`
      and a '.' at `j`, spanning the whole string. */
  ghost predicate CoincideRegex(s: string) {
    exists i, j :: 0 < i && i + 1 < j && j + 1 < |s| && s[i] == '@' && s[j] == '.' &&
      LimpioEntre(s, 0, i) && LimpioEntre(s, i + 1, j) && LimpioEntre(s, j + 1, |s|)
  }

  /** `validateEmail`, as computed: one '@' not at the start, no white space and no other '@',
      and a '.' after the '@' that is neither right after it nor last. */
  predicate ValidateEmail(s: string) {
    exists i :: 0 < i < |s| && s[i] == '@' &&
      (forall k :: 0 <= k < |s| && k != i ==> Limpio(s[k])) &&
      (exists j :: i + 1 < j < |s| - 1 && s[j] == '.')
  }

  /** The computed test accepts exactly the strings the regex matches. */
  lemma ValidateEmailIff(s: string)
    ensures ValidateEmail(s) <==> CoincideRegex(s)
  {
    if ValidateEmail(s) {
      var i :| 0 < i < |s| && s[i] == '@' &&
        (forall k :: 0 <= k < |s| && k != i ==> Limpio(s[k])) &&
        (exists j :: i + 1 < j < |s| - 1 && s[j] == '.');
      var j :| i + 1 < j < |s| - 1 && s[j] == '.';
      assert LimpioEntre(s, 0, i) && LimpioEntre(s, i + 1, j) && LimpioEntre(s, j + 1, |s|);
    }
    if CoincideRegex(s) {
      var i, j :| 0 < i && i + 1 < j && j + 1 < |s| && s[i] == '@' && s[j] == '.' &&
        LimpioEntre(s, 0, i) && LimpioEntre(s, i + 1, j) && LimpioEntre(s, j + 1, |s|);
      forall k | 0 <= k < |s| && k != i
        ensures Limpio(s[k])
      {
        if k == j {
          assert s[k] == '.';
        }
      }
    }
  }

  /** An accepted address has exactly one '@' and no white space. */
  lemma ValidEmailShape(s: string, i: nat)
    requires ValidateEmail(s) && i < |s| && s[i] == '@'
    ensures forall k :: 0 <= k < |s| && s[k] == '@' ==> k == i
    ensures forall k :: 0 <= k < |s| ==> !IsSpace(s[k])
    ensures 0 < i
  {
  }

  // ---------------------------------------------------------------------------
  // Password
  // ---------------------------------------------------------------------------

  /** The special characters of `[!@#$%^&*()_+\-=\[\]{};':"\\|,.<>\/?]`. */
  const Especiales: string := "!@#$%^&*()_+-=[]{};':\"\\|,.<>/?"

  predicate HayCon(s: string, p: char -> bool) {
    exists k :: 0 <= k < |s| && p(s[k])
  }

  predicate EsEspecial(c: char) {
    c in Especiales
  }

  /** The five flags of `validatePassword`. */
  datatype Validacion = Validacion(length: bool, lowercase: bool, uppercase: bool,
                                   number: bool, special: bool)

  function ValidatePassword(password: string): (v: Validacion)
    ensures v.length <==> |password| >= 8
    ensures v.lowercase <==> exists k :: 0 <= k < |password| && 'a' <= password[k] <= 'z'
    ensures v.uppercase <==> exists k :: 0 <= k < |password| && 'A' <= password[k] <= 'Z'
    ensures v.number <==> exists k :: 0 <= k < |password| && '0' <= password[k] <= '9'
    ensures v.special <==> exists k :: 0 <= k < |password| && password[k] in Especiales
  {
    Validacion(|password| >= 8, HayCon(password, IsAsciiLower), HayCon(password, IsAsciiUpper),
               HayCon(password, IsDigit), HayCon(password, EsEspecial))
  }

  /** `Object.values(validation).every(Boolean)`. */
  predicate IsPasswordValid(v: Validacion) {
    v.length && v.lowercase && v.uppercase && v.number && v.special
  }

  /** A password is accepted exactly when it is eight or more long and holds a lower-case
      letter, an upper-case letter, a digit and a special character. */
  lemma IsPasswordValidIff(password: string)
    ensures IsPasswordValid(ValidatePassword(password)) <==>
      |password| >= 8 &&
      (exists k :: 0 <= k < |password| && IsAsciiLower(password[k])) &&
      (exists k :: 0 <= k < |password| && IsAsciiUpper(password[k])) &&
      (exists k :: 0 <= k < |password| && IsDigit(password[k])) &&
      (exists k :: 0 <= k < |password| && EsEspecial(password[k]))
  {
  }

  /** For instance, "Abcdef1!" is accepted. */
  lemma AcceptedExample()
    ensures IsPasswordValid(ValidatePassword("Abcdef1!"))
  {
    var p := "Abcdef1!";
    assert IsAsciiLower(p[1]) && IsAsciiUpper(p[0]) && IsDigit(p[6]) && EsEspecial(p[7]);
  }

  // ---------------------------------------------------------------------------
  // Handlers
  // ---------------------------------------------------------------------------

  const ErrorEmail: string := "Por favor, ingresa un correo electrónico válido"
  const ErrorPassword: string := "La contraseña no cumple con todos los requisitos de seguridad"
  const ErrorDuplicado: string := "Este correo electrónico ya está registrado. Intenta con otro."
  const ErrorGenerico: string := "Error en el registro. Inténtalo de nuevo."

  datatype Formulario = Formulario(email: string, password: string, emailError: string,
                                   registerError: string, passwordValidation: Validacion,
                                   loading: bool)

  /** `handleEmailChange`: an empty field shows no error; a non-empty one is checked at once. */
  function HandleEmailChange(f: Formulario, value: string): (g: Formulario)
    ensures g.email == value && g.registerError == ""
    ensures g.emailError == "" <==> value == "" || ValidateEmail(value)
    ensures g.emailError != "" ==> g.emailError == ErrorEmail
    ensures g.password == f.password && g.passwordValidation == f.passwordValidation
  {
    f.(email := value, registerError := "",
       emailError := if value != "" && !ValidateEmail(value) then ErrorEmail else "")
  }

  /** `handlePasswordChange`: the flags always describe the current password. */
  function HandlePasswordChange(f: Formulario, value: string): (g: Formulario)
    ensures g.password == value && g.passwordValidation == ValidatePassword(value)
    ensures g.registerError == "" && g.email == f.email && g.emailError == f.emailError
  {
    f.(password := value, registerError := "", passwordValidation := ValidatePassword(value))
  }

  /** The rejection of `POST /auth/register`: the HTTP status and the `mensaje` and `message`
      fields of the body, each possibly missing. */
  datatype Rechazo = Rechazo(status: Option<int>, mensaje: Option<string>, message: Option<string>)

  /** The error shown for a rejected registration. */
  function ErrorRegistro(r: Rechazo): (e: string)
    ensures r.status == Some(409) ==> e == ErrorDuplicado
    ensures r.status != Some(409) && Truthy(r.mensaje) ==> e == r.mensaje.value
    ensures r.status != Some(409) && !Truthy(r.mensaje) && Truthy(r.message) ==> e == r.message.value
    ensures r.status != Some(409) && !Truthy(r.mensaje) && !Truthy(r.message) ==> e == ErrorGenerico
    ensures e != ""
  {
    if r.status == Some(409) then ErrorDuplicado
    else OrDefault(Some(OrDefault(r.mensaje, OrDefault(r.message, ""))), ErrorGenerico)
  }

  /** The outcome of the request: success, or a rejection. */
  datatype Resultado = Registrado | Rechazado(rechazo: Rechazo)

  /** `handleSubmit`: the e-mail is checked, then the password; only then is the request sent,
      and on success the user is taken to the login page. Returns the new form, whether the
      request was sent and whether the page navigates away. */
  function HandleSubmit(f: Formulario, resultado: Resultado): (r: (Formulario, bool, bool))
    ensures r.1 <==> ValidateEmail(f.email) && IsPasswordValid(ValidatePassword(f.password))
    ensures !ValidateEmail(f.email) ==> r.0 == f.(emailError := ErrorEmail)
    ensures ValidateEmail(f.email) && !IsPasswordValid(ValidatePassword(f.password)) ==>
      r.0 == f.(registerError := ErrorPassword)
    ensures r.1 ==>
      !r.0.loading && r.0.emailError == "" &&
      r.0.registerError == (if resultado.Registrado? then "" else ErrorRegistro(resultado.rechazo))
    ensures r.2 <==> r.1 && resultado.Registrado?
  {
    if !ValidateEmail(f.email) then (f.(emailError := ErrorEmail), false, false)
    else if !IsPasswordValid(ValidatePassword(f.password)) then (f.(registerError := ErrorPassword), false, false)
    else
      var errorFinal := if resultado.Registrado? then "" else ErrorRegistro(resultado.rechazo);
      (f.(loading := false, emailError := "", registerError := errorFinal), true, resultado.Registrado?)
  }
}
