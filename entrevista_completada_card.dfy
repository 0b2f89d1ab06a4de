/** The card of a completed interview: its evaluation chip, the IPG chip and its colour, and
    the optional "Evaluada" line. */
module EntrevistaCompletadaCard {
  import opened Js
  import EvaluacionDetailPage
  import EvaluacionManualPage

  /** The fields of a completed interview the card reads. */
  datatype Entrevista = Entrevista(plantillaTitulo: Option<string>, fechaCompletada: Option<string>,
                                   evaluacionManualFecha: Option<string>,
                                   evaluacionManualEstado: Option<string>, ipg: Option<real>)

  /** What the card shows, dates left unformatted. */
  datatype Tarjeta = Tarjeta(plantilla: string, completada: Option<string>, evaluada: Option<string>,
                             estado: EvaluacionManualPage.EstadoEvaluacion, ipg: real, colorIpg: string)

  /** The card for `entrevista`, or for a missing one. A missing IPG is shown and coloured as
      0; the "Evaluada" line appears only with an evaluation date. */
  function Render(entrevista: Option<Entrevista>): (t: Tarjeta)
    ensures entrevista.None? ==>
      t == Tarjeta("No disponible", None, None, EvaluacionManualPage.EstadoEvaluacion("Pendiente", "warning"),
                   0.0, "error")
    ensures entrevista.Some? ==>
      t.estado == EvaluacionManualPage.GetEstadoEvaluacion(entrevista.value.evaluacionManualEstado) &&
      t.plantilla == OrDefault(entrevista.value.plantillaTitulo, "No disponible") &&
      (t.evaluada.Some? <==> Truthy(entrevista.value.evaluacionManualFecha)) &&
      (t.completada.Some? <==> Truthy(entrevista.value.fechaCompletada))
    ensures t.ipg == (if entrevista.Some? && entrevista.value.ipg.Some? then entrevista.value.ipg.value else 0.0)
    ensures t.colorIpg == EvaluacionDetailPage.GetChipColor(t.ipg)
  {
    match entrevista
    case None =>
      Tarjeta("No disponible", None, None, EvaluacionManualPage.GetEstadoEvaluacion(None), 0.0,
              EvaluacionDetailPage.GetChipColor(0.0))
    case Some(e) =>
      var ipg := EvaluacionDetailPage.IpgMostrado(e.ipg);
      Tarjeta(OrDefault(e.plantillaTitulo, "No disponible"),
              if Truthy(e.fechaCompletada) then e.fechaCompletada else None,
              if Truthy(e.evaluacionManualFecha) then e.evaluacionManualFecha else None,
              EvaluacionManualPage.GetEstadoEvaluacion(e.evaluacionManualEstado),
              ipg, EvaluacionDetailPage.GetChipColor(ipg))
  }

  /** An interview with no IPG is always shown in red. */
  lemma SinIpgEnRojo(e: Entrevista)
    requires e.ipg.None?
    ensures Render(Some(e)).colorIpg == "error"
  {
  }
}
