/** The second-factor login screen: the five-minute countdown and its `m:ss` display, the two
    code sanitizers, and the guard, payload and failure handling of verification. */
module TwoFactorLogin {
  import opened Js

  // ---------------------------------------------------------------------------
  // m:ss
  // ---------------------------------------------------------------------------

  /** `padStart(2, '0')`. */
  function Pad2(s: string): (r: string)
    ensures |s| < 2 ==> r == "0" + s
    ensures |s| >= 2 ==> r == s
  {
    if |s| < 2 then "0" + s else s
  }

  /** `formatTime`: whole minutes, a colon, and the remaining seconds on two digits. */
  function FormatTime(seconds: nat): (r: string)
  {
    NatToString(seconds / 60) + ":" + Pad2(NatToString(seconds % 60))
  }

  predicate Digitos(s: string) {
    forall i :: 0 <= i < |s| ==> IsDigit(s[i])
  }

  /** Reads an `m:ss` text back as a number of seconds: decimal minutes, a colon and two
      decimal digits. */
  function ParseTime(t: string): (r: Option<nat>)
  {
    if |t| < 4 || t[|t| - 3] != ':' || !Digitos(t[..|t| - 3]) || !Digitos(t[|t| - 2..]) then None
    else Some(DecValue(t[..|t| - 3]) * 60 + DecValue(t[|t| - 2..]))
  }

  /** The two-digit seconds field reads back as the seconds it shows. */
  lemma ParsePadded(ss: nat)
    requires ss < 60
    ensures |Pad2(NatToString(ss))| == 2
    ensures Digitos(Pad2(NatToString(ss))) && DecValue(Pad2(NatToString(ss))) == ss
  {
    var p := Pad2(NatToString(ss));
    if ss < 10 {
      var d := DigitChar(ss);
      assert NatToString(ss) == [d];
      assert p == ['0', d];
      assert p[..1] == ['0'];
      assert DecValue(['0']) == 0;
    } else {
      assert NatToString(ss / 10) == [DigitChar(ss / 10)];
    }
  }

  /** `m:ss` splits at the third character from the end. */
  lemma SplitJoin(m: string, ss: string)
    requires |m| >= 1 && |ss| == 2
    ensures var t := m + ":" + ss;
      |t| >= 4 && t[|t| - 3] == ':' && t[..|t| - 3] == m && t[|t| - 2..] == ss
  {
  }

  /** The display shows exactly the time left: minutes × 60 + seconds gives it back. */
  lemma FormatTimeRoundTrip(seconds: nat)
    ensures ParseTime(FormatTime(seconds)) == Some(seconds)
  {
    var m := NatToString(seconds / 60);
    var ss := Pad2(NatToString(seconds % 60));
    ParsePadded(seconds % 60);
    SplitJoin(m, ss);
    assert Digitos(m);
  }

  // ---------------------------------------------------------------------------
  // Sanitizers
  // ---------------------------------------------------------------------------

  /** `value.replace(/\D/g, '').slice(0, 6)`. */
  function SanitizarCodigo(value: string): (r: string)
    ensures |r| <= 6 && forall i :: 0 <= i < |r| ==> IsDigit(r[i])
  {
    Prefix(KeepWhere(value, IsDigit), 6)
  }

  /** `value.replace(/[^a-zA-Z0-9]/g, '').slice(0, 8).toUpperCase()`. */
  function SanitizarRespaldo(value: string): (r: string)
    ensures |r| <= 8 && forall i :: 0 <= i < |r| ==> IsAsciiUpper(r[i]) || IsDigit(r[i])
  {
    ToUpperAscii(Prefix(KeepWhere(value, IsAsciiAlnum), 8))
  }

  lemma SanitizarCodigoIdempotent(value: string)
    ensures SanitizarCodigo(SanitizarCodigo(value)) == SanitizarCodigo(value)
  {
    var r := SanitizarCodigo(value);
    assert KeepWhere(r, IsDigit) == r;
  }

  lemma SanitizarRespaldoIdempotent(value: string)
    ensures SanitizarRespaldo(SanitizarRespaldo(value)) == SanitizarRespaldo(value)
  {
    var r := SanitizarRespaldo(value);
    assert forall i :: 0 <= i < |r| ==> IsAsciiAlnum(r[i]);
    assert KeepWhere(r, IsAsciiAlnum) == r;
    assert Prefix(r, 8) == r;
    assert ToUpperAscii(r) == r;
  }

  // ---------------------------------------------------------------------------
  // Verification
  // ---------------------------------------------------------------------------

  const TiempoInicial: nat := 300
  const LongitudCodigo: nat := 6
  const LongitudRespaldo: nat := 8

  /** The guard of `handleVerification`. */
  predicate CodigoAceptable(code: string, isBackupCode: bool) {
    code != "" && |code| == (if isBackupCode then LongitudRespaldo else LongitudCodigo)
  }

  /** The body of `POST /auth/complete-2fa-login`; `None` is `null`. */
  datatype Solicitud = Solicitud(tempToken: Option<string>, token: Option<string>,
                                 backupCode: Option<string>)

  function CrearSolicitud(tempToken: Option<string>, code: string, isBackupCode: bool): (s: Solicitud)
    ensures s.tempToken == tempToken
    ensures s.token.Some? != s.backupCode.Some?
    ensures isBackupCode ==> s.backupCode == Some(code)
    ensures !isBackupCode ==> s.token == Some(code)
  {
    if isBackupCode then Solicitud(tempToken, None, Some(code))
    else Solicitud(tempToken, Some(code), None)
  }

  const ErrorVerificacion: string := "Error en la verificación"

  /** The toast shown for a failed verification. */
  function MensajeFallo(mensaje: Option<string>): (m: string)
    ensures Truthy(mensaje) ==> m == mensaje.value
    ensures !Truthy(mensaje) ==> m == ErrorVerificacion
  {
    OrDefault(mensaje, ErrorVerificacion)
  }

  class Pantalla {
    var tempToken: Option<string>
    var timeLeft: nat
    /** Whether the interval is still running. */
    var activo: bool
    var verificationCode: string
    var backupCode: string
    var isVerifying: bool

    predicate Valid()
      reads this
    {
      timeLeft <= TiempoInicial && (!activo ==> timeLeft == 0)
    }

    constructor (token: Option<string>)
      ensures tempToken == token && timeLeft == TiempoInicial && activo
      ensures verificationCode == "" && backupCode == "" && !isVerifying
      ensures Valid()
    {
      tempToken := token;
      timeLeft := TiempoInicial;
      activo := true;
      verificationCode := "";
      backupCode := "";
      isVerifying := false;
    }

    /** One second of the interval. At 1 or below the timer stops at 0 and the screen is
        left; the result says whether that happened on this tick. */
    method Tick() returns (expira: bool)
      requires Valid()
      modifies this
      ensures Valid()
      ensures old(activo) && old(timeLeft) <= 1 ==> timeLeft == 0 && !activo && expira
      ensures old(activo) && old(timeLeft) > 1 ==> timeLeft == old(timeLeft) - 1 && activo && !expira
      ensures !old(activo) ==> timeLeft == old(timeLeft) && !activo && !expira
      ensures verificationCode == old(verificationCode) && backupCode == old(backupCode)
      ensures tempToken == old(tempToken) && isVerifying == old(isVerifying)
    {
      expira := false;
      if activo {
        if timeLeft <= 1 {
          timeLeft := 0;
          activo := false;
          expira := true;
        } else {
          timeLeft := timeLeft - 1;
        }
      }
    }

    /** `severity={timeLeft < 60 ? 'warning' : 'info'}`. */
    predicate Advertencia()
      reads this
    {
      timeLeft < 60
    }

    method CambiarCodigo(value: string)
      modifies this
      ensures verificationCode == SanitizarCodigo(value)
      ensures backupCode == old(backupCode) && timeLeft == old(timeLeft) && activo == old(activo)
      ensures tempToken == old(tempToken) && isVerifying == old(isVerifying)
    {
      verificationCode := SanitizarCodigo(value);
    }

    method CambiarRespaldo(value: string)
      modifies this
      ensures backupCode == SanitizarRespaldo(value)
      ensures verificationCode == old(verificationCode) && timeLeft == old(timeLeft) && activo == old(activo)
      ensures tempToken == old(tempToken) && isVerifying == old(isVerifying)
    {
      backupCode := SanitizarRespaldo(value);
    }

    /** `handleCodeSubmit` / `handleBackupCodeSubmit`: the field in use is checked and, if it
        passes, sent. `exito` is whether the server accepted it; on failure only the field
        that was used is cleared. */
    method HandleVerification(isBackupCode: bool, exito: bool) returns (enviada: Option<Solicitud>)
      modifies this
      ensures var code := if isBackupCode then old(backupCode) else old(verificationCode);
        enviada.Some? <==> CodigoAceptable(code, isBackupCode)
      ensures var code := if isBackupCode then old(backupCode) else old(verificationCode);
        enviada.Some? ==> enviada.value == CrearSolicitud(tempToken, code, isBackupCode)
      ensures enviada.None? || exito ==>
        verificationCode == old(verificationCode) && backupCode == old(backupCode)
      ensures enviada.Some? && !exito && isBackupCode ==>
        backupCode == "" && verificationCode == old(verificationCode)
      ensures enviada.Some? && !exito && !isBackupCode ==>
        verificationCode == "" && backupCode == old(backupCode)
      ensures !isVerifying == (enviada.Some? || !old(isVerifying))
      ensures timeLeft == old(timeLeft) && activo == old(activo) && tempToken == old(tempToken)
    {
      var code := if isBackupCode then backupCode else verificationCode;
      if !CodigoAceptable(code, isBackupCode) {
        return None;
      }
      isVerifying := true;
      enviada := Some(CrearSolicitud(tempToken, code, isBackupCode));
      if !exito {
        if isBackupCode {
          backupCode := "";
        } else {
          verificationCode := "";
        }
      }
      isVerifying := false;
    }
  }
}
