/** The page where an interviewer records the manual verdict on one interview: the guard on
    the route id, the checks on the verdict and comment before they are sent, the gating of
    the confirm button, and the 80/60 colour of the IPG chip. */
module EvaluacionDetailPage {
  import opened Js

  const ErrorId: string := "ID de entrevista no válido"
  const ErrorCampos: string := "Por favor completa todos los campos"
  const ErrorLongitud: string := "Los comentarios deben tener al menos 10 caracteres"
  const MinComentario: nat := 10

  /** `!id || id === 'undefined'`, negated: the route id can be used in a request. */
  predicate IdValido(id: Option<string>) {
    Truthy(id) && id.value != "undefined"
  }

  /** The id check of `cargarDatosEntrevista` and `generarInformeIA`: the error it reports,
      or `None` when the request goes ahead. */
  function ErrorDeId(id: Option<string>): (e: Option<string>)
    ensures e.None? <==> IdValido(id)
    ensures e.Some? ==> e.value == ErrorId
  {
    if !Truthy(id) || id.value == "undefined" then Some(ErrorId) else None
  }

  /** What `handleSubmitEvaluacion` does: shows an error, or posts the verdict with the
      trimmed comment. */
  datatype Envio = Rechazado(mensaje: string) | Enviado(decision: string, comentarios: string)

  function HandleSubmitEvaluacion(decision: string, comentarios: string, id: Option<string>): (r: Envio)
    ensures decision == "" || Trim(comentarios) == "" ==> r == Rechazado(ErrorCampos)
    ensures decision != "" && Trim(comentarios) != "" && |Trim(comentarios)| < MinComentario ==>
      r == Rechazado(ErrorLongitud)
    ensures decision != "" && |Trim(comentarios)| >= MinComentario && !IdValido(id) ==>
      r == Rechazado(ErrorId)
    ensures r.Enviado? <==> decision != "" && |Trim(comentarios)| >= MinComentario && IdValido(id)
    ensures r.Enviado? ==> r.decision == decision && r.comentarios == Trim(comentarios)
  {
    var limpio := Trim(comentarios);
    if decision == "" || limpio == "" then Rechazado(ErrorCampos)
    else if |limpio| < MinComentario then Rechazado(ErrorLongitud)
    else if !IdValido(id) then Rechazado(ErrorId)
    else Enviado(decision, limpio)
  }

  /** The "Finalizar Evaluación" button is enabled: the same two field checks. */
  predicate PuedeConfirmar(decision: string, comentarios: string) {
    decision != "" && Trim(comentarios) != "" && |Trim(comentarios)| >= MinComentario
  }

  /** The button is enabled exactly when the submission would get past both field checks: it
      is then sent unless the route id is bad. */
  lemma ConfirmarIff(decision: string, comentarios: string, id: Option<string>)
    ensures PuedeConfirmar(decision, comentarios) <==> decision != "" && |Trim(comentarios)| >= MinComentario
    ensures PuedeConfirmar(decision, comentarios) && IdValido(id) <==>
      HandleSubmitEvaluacion(decision, comentarios, id).Enviado?
    ensures !PuedeConfirmar(decision, comentarios) ==>
      HandleSubmitEvaluacion(decision, comentarios, id) in {Rechazado(ErrorCampos), Rechazado(ErrorLongitud)}
  {
  }

  /** The sent comment is already trimmed: trimming it again changes nothing. */
  lemma ComentarioEnviadoLimpio(decision: string, comentarios: string, id: Option<string>)
    requires HandleSubmitEvaluacion(decision, comentarios, id).Enviado?
    ensures var c := HandleSubmitEvaluacion(decision, comentarios, id).comentarios;
      Trim(c) == c && |c| >= MinComentario
  {
    TrimIdempotent(comentarios);
  }

  /** `getChipColor`: 80 or more, then 60 or more, then the rest. The same cut is made by
      `EvaluacionManualPage` and by the completed-interview card. */
  function GetChipColor(ipg: real): (c: string)
    ensures c == "success" <==> ipg >= 80.0
    ensures c == "warning" <==> 60.0 <= ipg < 80.0
    ensures c == "error" <==> ipg < 60.0
  {
    if ipg >= 80.0 then "success"
    else if ipg >= 60.0 then "warning"
    else "error"
  }

  /** A higher IPG never gets a worse colour. */
  lemma GetChipColorMonotone(ipg: real, otro: real)
    requires ipg <= otro
    ensures GetChipColor(ipg) == "success" ==> GetChipColor(otro) == "success"
    ensures GetChipColor(otro) == "error" ==> GetChipColor(ipg) == "error"
  {
  }

  /** `entrevista?.ipg_final || 0`. */
  function IpgMostrado(ipgFinal: Option<real>): (r: real)
    ensures ipgFinal.None? ==> r == 0.0
    ensures ipgFinal.Some? ==> r == ipgFinal.value
  {
    if ipgFinal.Some? && ipgFinal.value != 0.0 then ipgFinal.value else 0.0
  }
}
