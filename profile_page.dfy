/** The interviewer's profile page: the three IPG colour bands, the recent-task list built
    from the completed interviews, and the status chip of each task. */
module ProfilePage {
  import opened Js

  /** The three bands of the IPG: below 50, from 50 to below 75, and 75 or more. */
  datatype Banda = BajoMedia | EnMedia | SobreMedia

  function BandaIPG(ipg: real): (b: Banda)
    ensures b == BajoMedia <==> ipg < 50.0
    ensures b == EnMedia <==> 50.0 <= ipg < 75.0
    ensures b == SobreMedia <==> ipg >= 75.0
  {
    if ipg < 50.0 then BajoMedia
    else if ipg >= 50.0 && ipg < 75.0 then EnMedia
    else SobreMedia
  }

  function NombrePaleta(b: Banda): string {
    match b
    case BajoMedia => "error"
    case EnMedia => "warning"
    case SobreMedia => "success"
  }

  /** `getIPGColor`. */
  function GetIPGColor(ipg: real): (c: string)
    ensures c == NombrePaleta(BandaIPG(ipg))
    ensures c in {"error", "warning", "success"}
  {
    if ipg < 50.0 then "error"
    else if ipg >= 50.0 && ipg < 75.0 then "warning"
    else "success"
  }

  /** `getIPGBackgroundColor`. */
  function GetIPGBackgroundColor(ipg: real): (c: string)
    ensures c == NombrePaleta(BandaIPG(ipg)) + ".main"
  {
    if ipg < 50.0 then "error.main"
    else if ipg >= 50.0 && ipg < 75.0 then "warning.main"
    else "success.main"
  }

  /** Both colour functions cut at the same places: the background is the text colour's main
      shade, and a higher IPG never gets a lower band. */
  lemma MismasBandas(ipg: real, otro: real)
    ensures GetIPGBackgroundColor(ipg) == GetIPGColor(ipg) + ".main"
    ensures ipg <= otro && GetIPGColor(ipg) == "success" ==> GetIPGColor(otro) == "success"
    ensures ipg <= otro && GetIPGColor(otro) == "error" ==> GetIPGColor(ipg) == "error"
  {
  }

  /** `estadisticas.promedioCalificacion || 0`: a missing average is shown in the lowest band. */
  function PromedioMostrado(promedio: Option<real>): (r: real)
    ensures promedio.None? ==> r == 0.0 && GetIPGColor(r) == "error"
    ensures promedio.Some? ==> r == promedio.value
  {
    if promedio.Some? && promedio.value != 0.0 then promedio.value else 0.0
  }

  // ---------------------------------------------------------------------------
  // Recent tasks
  // ---------------------------------------------------------------------------

  /** The fields of a completed interview the page reads. */
  datatype Completada = Completada(id: int, candidatoNombre: string, plantillaTitulo: string,
                                   fechaCompletada: Option<string>,
                                   evaluacionManualEstado: Option<string>, ipgFinal: Option<real>)

  datatype Tarea = Tarea(id: int, tipo: string, titulo: string, descripcion: string,
                         fecha: Option<string>, estado: string, evaluacionEstado: Option<string>,
                         ipg: Option<real>)

  const MaxTareas: nat := 5

  /** The task shown for one completed interview. Only a pending manual evaluation is pending;
      approved, rejected and anything else are completed. */
  function TareaDe(e: Completada): (t: Tarea)
    ensures t.estado == "pendiente" <==> e.evaluacionManualEstado == Some("pendiente")
    ensures t.tipo == "evaluacion_pendiente" <==> e.evaluacionManualEstado == Some("pendiente")
    ensures t.estado != "pendiente" ==> t.estado == "completado" && t.tipo == "evaluacion_completada"
    ensures t.id == e.id && t.evaluacionEstado == e.evaluacionManualEstado && t.ipg == e.ipgFinal
    ensures t.fecha == e.fechaCompletada
    ensures t.titulo == "Evaluación de " + e.candidatoNombre
    ensures t.descripcion == "Entrevista para " + e.plantillaTitulo
  {
    var pendiente := e.evaluacionManualEstado == Some("pendiente");
    Tarea(e.id,
          if pendiente then "evaluacion_pendiente" else "evaluacion_completada",
          "Evaluación de " + e.candidatoNombre,
          "Entrevista para " + e.plantillaTitulo,
          e.fechaCompletada,
          if pendiente then "pendiente" else "completado",
          e.evaluacionManualEstado,
          e.ipgFinal)
  }

  /** `(entrevistasCompletadas || []).slice(0, 5).map(...)`. */
  function TareasReales(entrevistasCompletadas: Option<seq<Completada>>): (ts: seq<Tarea>)
    ensures entrevistasCompletadas.None? ==> ts == []
    ensures entrevistasCompletadas.Some? ==>
      |ts| == (if |entrevistasCompletadas.value| < MaxTareas then |entrevistasCompletadas.value| else MaxTareas) &&
      forall i :: 0 <= i < |ts| ==> ts[i] == TareaDe(entrevistasCompletadas.value[i])
  {
    var lista := if entrevistasCompletadas.Some? then entrevistasCompletadas.value else [];
    var primeras := Prefix(lista, MaxTareas);
    seq(|primeras|, i requires 0 <= i < |primeras| => TareaDe(primeras[i]))
  }

  /** The label of a task's status chip. */
  function EtiquetaChip(evaluacionEstado: Option<string>): (l: string)
    ensures evaluacionEstado == Some("pendiente") ==> l == "Pendiente Evaluación"
    ensures evaluacionEstado == Some("aprobado") ==> l == "Aprobado"
    ensures evaluacionEstado == Some("rechazado") ==> l == "Rechazado"
    ensures evaluacionEstado !in {Some("pendiente"), Some("aprobado"), Some("rechazado")} ==> l == "Completado"
  {
    if evaluacionEstado == Some("pendiente") then "Pendiente Evaluación"
    else if evaluacionEstado == Some("aprobado") then "Aprobado"
    else if evaluacionEstado == Some("rechazado") then "Rechazado"
    else "Completado"
  }

  /** The colour of the same chip. */
  function ColorChip(evaluacionEstado: Option<string>): (c: string)
    ensures evaluacionEstado == Some("pendiente") ==> c == "warning"
    ensures evaluacionEstado == Some("aprobado") ==> c == "success"
    ensures evaluacionEstado == Some("rechazado") ==> c == "error"
    ensures evaluacionEstado !in {Some("pendiente"), Some("aprobado"), Some("rechazado")} ==> c == "default"
  {
    if evaluacionEstado == Some("pendiente") then "warning"
    else if evaluacionEstado == Some("aprobado") then "success"
    else if evaluacionEstado == Some("rechazado") then "error"
    else "default"
  }

  /** A task is pending exactly when its chip says so. */
  lemma ChipCoincideConEstado(e: Completada)
    ensures TareaDe(e).estado == "pendiente" <==> EtiquetaChip(TareaDe(e).evaluacionEstado) == "Pendiente Evaluación"
  {
  }
}
