/** The 2FA set-up card: a four-step wizard (generate the secret, configure the app, verify a
    code, keep the backup codes) shown while 2FA is off, and the disable and regenerate
    dialogs shown while it is on. */
module TwoFactorSetup {
  import opened Js
  import TwoFactorLogin

  /** `GET /2fa/status`. */
  datatype Estado = Estado(enabled: bool, setupDate: Option<string>)

  /** The secret returned by `POST /2fa/generate`. */
  datatype Secreto = Secreto(qrCode: string, manualEntryKey: string)

  /** The edges of the wizard: generate, "Ya configuré", "Volver", a successful enable and
      "Finalizar"; a successful disable goes back to the start from anywhere. */
  predicate Arista(de: nat, a: nat) {
    (de, a) in {(0, 1), (1, 2), (2, 1), (2, 3), (3, 0)} || a == 0
  }

  /** Every field of the card's state at one moment, so that a handler can say in one line
      which fields it changes. */
  datatype Foto = Foto(status: Estado, loading: bool, setupStep: nat, qrCode: string,
                       manualKey: string, verificationCode: string, backupCodes: seq<string>,
                       showBackupCodes: bool, isEnabling: bool, isDisabling: bool,
                       showDisableDialog: bool, showRegenerateDialog: bool,
                       disablePassword: string, disableToken: string, regenerateToken: string)

  class Asistente {
    var status: Estado
    var loading: bool
    var setupStep: nat
    var qrCode: string
    var manualKey: string
    var verificationCode: string
    var backupCodes: seq<string>
    var showBackupCodes: bool
    var isEnabling: bool
    var isDisabling: bool
    var showDisableDialog: bool
    var showRegenerateDialog: bool
    var disablePassword: string
    var disableToken: string
    var regenerateToken: string

    /** The step stays within the four steps; step 3 is only reached by enabling, and while
        enabled the wizard is either untouched or on step 3. */
    predicate Valid()
      reads this
    {
      setupStep <= 3 &&
      (setupStep == 3 ==> status.enabled) &&
      (status.enabled ==> setupStep == 0 || setupStep == 3) &&
      (loading ==> setupStep == 0 && !status.enabled)
    }

    constructor ()
      ensures status == Estado(false, None) && loading && setupStep == 0
      ensures qrCode == "" && manualKey == "" && verificationCode == "" && backupCodes == []
      ensures !showBackupCodes && !isEnabling && !isDisabling
      ensures !showDisableDialog && !showRegenerateDialog
      ensures disablePassword == "" && disableToken == "" && regenerateToken == ""
      ensures Valid()
    {
      status := Estado(false, None);
      loading := true;
      setupStep := 0;
      qrCode := "";
      manualKey := "";
      verificationCode := "";
      backupCodes := [];
      showBackupCodes := false;
      isEnabling := false;
      isDisabling := false;
      showDisableDialog := false;
      showRegenerateDialog := false;
      disablePassword := "";
      disableToken := "";
      regenerateToken := "";
    }

    function Ahora(): Foto
      reads this
    {
      Foto(status, loading, setupStep, qrCode, manualKey, verificationCode, backupCodes,
           showBackupCodes, isEnabling, isDisabling, showDisableDialog, showRegenerateDialog,
           disablePassword, disableToken, regenerateToken)
    }

    /** `onConfigurationChange(setupStep > 0)`. */
    predicate Configurando()
      reads this
    {
      setupStep > 0
    }

    /** The wizard panel: rendered only while 2FA is off and the status has loaded. */
    predicate EnPaso(paso: nat)
      reads this
    {
      !loading && !status.enabled && setupStep == paso
    }

    /** The enabled panel with its three buttons. */
    predicate PanelHabilitado()
      reads this
    {
      !loading && status.enabled
    }

    /** Step 3, with its "Finalizar" button, is never on screen: reaching it sets `enabled`,
        which hides the wizard behind the enabled panel. */
    lemma PasoFinalOculto()
      requires Valid()
      ensures !EnPaso(3)
      ensures setupStep == 3 ==> PanelHabilitado() || loading
    {
    }

    /** `fetchTwoFactorStatus`, run once while the spinner shows; `None` is a failed request. */
    method CargarEstado(respuesta: Option<Estado>)
      requires Valid() && loading
      modifies this
      ensures Valid()
      ensures !loading && setupStep == 0
      ensures Ahora() == old(Ahora()).(loading := false,
                                       status := if respuesta.Some? then respuesta.value else old(status))
    {
      if respuesta.Some? {
        status := respuesta.value;
      }
      loading := false;
    }

    /** `generateSecret`, offered on step 0; `None` is a failed request, which leaves the
        wizard where it was. */
    method GenerarSecreto(respuesta: Option<Secreto>)
      requires Valid() && EnPaso(0)
      modifies this
      ensures Valid() && (Arista(old(setupStep), setupStep) || setupStep == old(setupStep))
      ensures respuesta.Some? ==> Ahora() == old(Ahora()).(setupStep := 1, qrCode := respuesta.value.qrCode,
        manualKey := respuesta.value.manualEntryKey, isEnabling := false)
      ensures respuesta.None? ==> Ahora() == old(Ahora()).(isEnabling := false)
    {
      isEnabling := true;
      if respuesta.Some? {
        qrCode := respuesta.value.qrCode;
        manualKey := respuesta.value.manualEntryKey;
        setupStep := 1;
      }
      isEnabling := false;
    }

    /** "Ya configuré mi aplicación", on step 1. */
    method Continuar()
      requires Valid() && EnPaso(1)
      modifies this
      ensures Valid() && Arista(old(setupStep), setupStep)
      ensures Ahora() == old(Ahora()).(setupStep := 2)
    {
      setupStep := 2;
    }

    /** "Volver", on step 2. */
    method Volver()
      requires Valid() && EnPaso(2)
      modifies this
      ensures Valid() && Arista(old(setupStep), setupStep)
      ensures Ahora() == old(Ahora()).(setupStep := 1)
    {
      setupStep := 1;
    }

    /** The code field of step 2: digits only, at most six. */
    method CambiarCodigo(value: string)
      modifies this
      ensures Ahora() == old(Ahora()).(verificationCode := TwoFactorLogin.SanitizarCodigo(value))
      ensures |verificationCode| <= 6
    {
      verificationCode := TwoFactorLogin.SanitizarCodigo(value);
    }

    /** The "Verificar y habilitar" button is disabled unless the code has six characters. */
    predicate PuedeHabilitar()
      reads this
    {
      !isEnabling && |verificationCode| == 6
    }

    /** `enableTwoFactor`, on step 2. Nothing is sent unless the code has six characters; the
        result says whether it was. `respuesta` holds the backup codes of a successful
        request, and `fecha` is the time it completed. */
    method Habilitar(respuesta: Option<seq<string>>, fecha: string) returns (enviada: bool)
      requires Valid() && EnPaso(2)
      modifies this
      ensures Valid() && (Arista(old(setupStep), setupStep) || setupStep == old(setupStep))
      ensures enviada <==> verificationCode != "" && |verificationCode| == 6
      ensures enviada && respuesta.Some? ==> Ahora() == old(Ahora()).(backupCodes := respuesta.value,
        status := Estado(true, Some(fecha)), setupStep := 3, isEnabling := false)
      ensures enviada && respuesta.None? ==> Ahora() == old(Ahora()).(isEnabling := false)
      ensures !enviada ==> Ahora() == old(Ahora())
    {
      if verificationCode == "" || |verificationCode| != 6 {
        return false;
      }
      enviada := true;
      isEnabling := true;
      if respuesta.Some? {
        backupCodes := respuesta.value;
        status := Estado(true, Some(fecha));
        setupStep := 3;
      }
      isEnabling := false;
    }

    /** A click on the enabled button always gets past the guard inside the handler. */
    lemma BotonHabilitarPasaGuarda()
      requires PuedeHabilitar()
      ensures verificationCode != "" && |verificationCode| == 6
    {
    }

    /** "Finalizar", on step 3 (which `PasoFinalOculto` shows is never on screen): back to the start with the secret and the code cleared; the
        backup codes are kept. */
    method Finalizar()
      requires EnPaso(3)
      modifies this
      ensures Valid() && Arista(old(setupStep), setupStep)
      ensures Ahora() == old(Ahora()).(setupStep := 0, qrCode := "", manualKey := "", verificationCode := "")
    {
      setupStep := 0;
      qrCode := "";
      manualKey := "";
      verificationCode := "";
    }

    /** "Deshabilitar 2FA" on the enabled panel opens the dialog. */
    method AbrirDeshabilitar()
      requires PanelHabilitado()
      modifies this
      ensures Ahora() == old(Ahora()).(showDisableDialog := true)
    {
      showDisableDialog := true;
    }

    /** Closing or cancelling the disable dialog clears both of its fields. */
    method CerrarDeshabilitar()
      modifies this
      ensures Ahora() == old(Ahora()).(showDisableDialog := false, disablePassword := "", disableToken := "")
    {
      showDisableDialog := false;
      disablePassword := "";
      disableToken := "";
    }

    method CambiarDisablePassword(value: string)
      modifies this
      ensures Ahora() == old(Ahora()).(disablePassword := value)
    {
      disablePassword := value;
    }

    method CambiarDisableToken(value: string)
      modifies this
      ensures Ahora() == old(Ahora()).(disableToken := value)
    {
      disableToken := value;
    }

    /** The dialog's confirm button is disabled without a password, without a six-character
        token, or while a request is running. */
    predicate PuedeDeshabilitar()
      reads this
    {
      disablePassword != "" && |disableToken| == 6 && !isDisabling
    }

    /** `disableTwoFactor`, from the open dialog; `exito` is whether the request succeeded.
        Success resets the status, the wizard, the secret, the code, the backup codes and the
        dialog. */
    method Deshabilitar(exito: bool)
      requires Valid() && showDisableDialog && PuedeDeshabilitar()
      modifies this
      ensures Valid() && (setupStep == 0 || setupStep == old(setupStep))
      ensures exito ==> Ahora() == old(Ahora()).(status := Estado(false, None), setupStep := 0,
        qrCode := "", manualKey := "", verificationCode := "", backupCodes := [],
        showDisableDialog := false, disablePassword := "", disableToken := "", isDisabling := false)
      ensures !exito ==> Ahora() == old(Ahora()).(isDisabling := false)
    {
      if exito {
        status := Estado(false, None);
        setupStep := 0;
        qrCode := "";
        manualKey := "";
        verificationCode := "";
        backupCodes := [];
        showDisableDialog := false;
        disablePassword := "";
        disableToken := "";
      }
      isDisabling := false;
    }

    /** "Regenerar códigos" on the enabled panel opens its dialog. */
    method AbrirRegenerar()
      requires PanelHabilitado()
      modifies this
      ensures Ahora() == old(Ahora()).(showRegenerateDialog := true)
    {
      showRegenerateDialog := true;
    }

    /** Closing or cancelling the regenerate dialog clears its field. */
    method CerrarRegenerar()
      modifies this
      ensures Ahora() == old(Ahora()).(showRegenerateDialog := false, regenerateToken := "")
    {
      showRegenerateDialog := false;
      regenerateToken := "";
    }

    method CambiarRegenerateToken(value: string)
      modifies this
      ensures Ahora() == old(Ahora()).(regenerateToken := value)
    {
      regenerateToken := value;
    }

    /** Its confirm button is disabled unless the token has six characters. */
    predicate PuedeRegenerar()
      reads this
    {
      |regenerateToken| == 6
    }

    /** `regenerateBackupCodes`; `respuesta` holds the new codes of a successful request, which
        are then shown. A failure changes nothing. */
    method Regenerar(respuesta: Option<seq<string>>)
      requires Valid() && showRegenerateDialog && PuedeRegenerar()
      modifies this
      ensures Valid()
      ensures respuesta.Some? ==> Ahora() == old(Ahora()).(backupCodes := respuesta.value,
        showBackupCodes := true, showRegenerateDialog := false, regenerateToken := "")
      ensures respuesta.None? ==> Ahora() == old(Ahora())
    {
      if respuesta.Some? {
        backupCodes := respuesta.value;
        showBackupCodes := true;
        showRegenerateDialog := false;
        regenerateToken := "";
      }
    }

    /** "Ver códigos de respaldo" and the dialog's close button. */
    method MostrarRespaldo(visible: bool)
      modifies this
      ensures Ahora() == old(Ahora()).(showBackupCodes := visible)
    {
      showBackupCodes := visible;
    }
  }
}
