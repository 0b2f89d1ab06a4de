/** The KPI panel of the statistics page: the no-data guard, the trend label, icon and colour,
    and the variability bands of the standard deviation. The figures themselves come from the
    server and are only displayed. */
module MetricasKPI {
  import opened Js

  /** `!metricas || !promedioIPG`: a missing average and an average of 0 are both falsy. */
  predicate SinDatos(hayMetricas: bool, promedioIPG: Option<real>)
  {
    !hayMetricas || promedioIPG.None? || promedioIPG.value == 0.0
  }

  lemma SinDatosCases(hayMetricas: bool, promedioIPG: Option<real>)
    ensures hayMetricas && promedioIPG == Some(0.0) ==> SinDatos(hayMetricas, promedioIPG)
    ensures hayMetricas && promedioIPG.Some? && promedioIPG.value != 0.0 ==> !SinDatos(hayMetricas, promedioIPG)
  {
  }

  // ---------------------------------------------------------------------------
  // Trend
  // ---------------------------------------------------------------------------

  datatype Icono = FlechaArriba | FlechaAbajo | Guion

  /** `getTendenciaIcon(tendenciaTemporal?.tendencia)`. */
  function TendenciaIcon(tendencia: Option<string>): Icono {
    if tendencia == Some("creciente") then FlechaArriba
    else if tendencia == Some("decreciente") then FlechaAbajo
    else Guion
  }

  /** `getTendenciaColor`. */
  function TendenciaColor(tendencia: Option<string>): string {
    if tendencia == Some("creciente") then "text-green-600 bg-green-50 border-green-200"
    else if tendencia == Some("decreciente") then "text-red-600 bg-red-50 border-red-200"
    else "text-gray-600 bg-gray-50 border-gray-200"
  }

  /** `getTendenciaTexto`. */
  function TendenciaTexto(tendencia: Option<string>): (t: string)
    ensures t == "Tendencia Positiva" <==> tendencia == Some("creciente")
    ensures t == "Tendencia Negativa" <==> tendencia == Some("decreciente")
    ensures t == "Tendencia Estable" <==> tendencia != Some("creciente") && tendencia != Some("decreciente")
  {
    if tendencia == Some("creciente") then "Tendencia Positiva"
    else if tendencia == Some("decreciente") then "Tendencia Negativa"
    else "Tendencia Estable"
  }

  /** The three switches split the values the same way: the icon and the colour follow the
      text. */
  lemma TendenciaConsistent(tendencia: Option<string>)
    ensures TendenciaTexto(tendencia) == "Tendencia Positiva" <==> TendenciaIcon(tendencia) == FlechaArriba
    ensures TendenciaTexto(tendencia) == "Tendencia Negativa" <==> TendenciaIcon(tendencia) == FlechaAbajo
    ensures TendenciaIcon(tendencia) == FlechaArriba <==>
      TendenciaColor(tendencia) == "text-green-600 bg-green-50 border-green-200"
    ensures TendenciaIcon(tendencia) == FlechaAbajo <==>
      TendenciaColor(tendencia) == "text-red-600 bg-red-50 border-red-200"
  {
  }

  // ---------------------------------------------------------------------------
  // Variability bands
  // ---------------------------------------------------------------------------

  datatype Banda = Baja | Moderada | Alta

  /** The bands rendered for `metricas.desviacionEstandar`, top to bottom; an undefined value
      fails every comparison and renders none. */
  function Bandas(desviacion: Option<real>): (bs: seq<Banda>)
    ensures desviacion.None? ==> bs == []
    ensures desviacion.Some? ==> |bs| == 1
    ensures desviacion.Some? && desviacion.value <= 10.0 ==> bs == [Baja]
    ensures desviacion.Some? && 10.0 < desviacion.value <= 20.0 ==> bs == [Moderada]
    ensures desviacion.Some? && desviacion.value > 20.0 ==> bs == [Alta]
  {
    match desviacion
    case None => []
    case Some(d) =>
      (if d <= 10.0 then [Baja] else []) +
      (if d > 10.0 && d <= 20.0 then [Moderada] else []) +
      (if d > 20.0 then [Alta] else [])
  }
}
