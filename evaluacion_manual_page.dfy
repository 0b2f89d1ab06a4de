/** The manual-evaluation overview: the lists of pending and evaluated interviews, the three
    counters above them, and the status chip of an evaluated candidate. */
module EvaluacionManualPage {
  import opened Js

  /** The label and colour of a manual-evaluation status. */
  datatype EstadoEvaluacion = EstadoEvaluacion(etiqueta: string, color: string)

  /** `getEstadoEvaluacion`: only 'aprobado' and 'rechazado' are decided; anything else,
      including a missing status, is pending. */
  function GetEstadoEvaluacion(estado: Option<string>): (e: EstadoEvaluacion)
    ensures estado == Some("aprobado") ==> e == EstadoEvaluacion("Aprobado", "success")
    ensures estado == Some("rechazado") ==> e == EstadoEvaluacion("Rechazado", "error")
    ensures estado != Some("aprobado") && estado != Some("rechazado") ==>
      e == EstadoEvaluacion("Pendiente", "warning")
  {
    if estado == Some("aprobado") then EstadoEvaluacion("Aprobado", "success")
    else if estado == Some("rechazado") then EstadoEvaluacion("Rechazado", "error")
    else EstadoEvaluacion("Pendiente", "warning")
  }

  /** The three labels are distinct, so the chip tells the three cases apart. */
  lemma EstadoEvaluacionInyectiva(a: Option<string>, b: Option<string>)
    requires GetEstadoEvaluacion(a) == GetEstadoEvaluacion(b)
    ensures a == Some("aprobado") <==> b == Some("aprobado")
    ensures a == Some("rechazado") <==> b == Some("rechazado")
  {
  }

  /** An evaluated candidate, as far as the counters read it. */
  datatype Evaluado = Evaluado(id: int, evaluacionManualEstado: Option<string>)

  /** `data.pendientes || []` and `data.evaluados || []`. */
  function OVacia<T>(lista: Option<seq<T>>): (r: seq<T>)
    ensures lista.None? ==> r == []
    ensures lista.Some? ==> r == lista.value
  {
    if lista.Some? then lista.value else []
  }

  /** `evaluados.filter(c => c?.evaluacion_manual_estado === estado).length`. */
  function Contar(evaluados: seq<Evaluado>, estado: string): (n: nat)
    ensures n <= |evaluados|
  {
    if evaluados == [] then 0
    else
      Contar(evaluados[..|evaluados| - 1], estado) +
      (if evaluados[|evaluados| - 1].evaluacionManualEstado == Some(estado) then 1 else 0)
  }

  /** The counter is the number of positions holding that status. */
  lemma {:induction false} ContarSpec(evaluados: seq<Evaluado>, estado: string)
    ensures Contar(evaluados, estado) == |set i | 0 <= i < |evaluados| && evaluados[i].evaluacionManualEstado == Some(estado)|
  {
    if evaluados != [] {
      var n := |evaluados| - 1;
      var init := evaluados[..n];
      ContarSpec(init, estado);
      var a := set i | 0 <= i < n && init[i].evaluacionManualEstado == Some(estado);
      var b := set i | 0 <= i < |evaluados| && evaluados[i].evaluacionManualEstado == Some(estado);
      if evaluados[n].evaluacionManualEstado == Some(estado) {
        assert b == a + {n};
      } else {
        assert b == a;
      }
    }
  }

  /** Approved plus rejected never exceeds the evaluated total. */
  lemma {:induction false} AprobadosMasRechazados(evaluados: seq<Evaluado>)
    ensures Contar(evaluados, "aprobado") + Contar(evaluados, "rechazado") <= |evaluados|
  {
    if evaluados != [] {
      AprobadosMasRechazados(evaluados[..|evaluados| - 1]);
    }
  }
}
