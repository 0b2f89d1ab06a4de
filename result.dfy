/** The manual evaluation screen: eight 0..2 scores chosen by the interviewer, their total
    and verdict, and the eight records saved for the interview. */
module Result {
  import opened Js

  const NumPreguntas: nat := 8
  const UmbralApto: int := 12

  /** A manual score as held in state: the result of `parseInt`, where `None` is `NaN`. */
  type Score = Option<int>

  /** `manualScores.reduce((a, b) => a + b, 0)`: a single `NaN` makes the sum `NaN`. */
  function Total(scores: seq<Score>): (t: Score)
    ensures t.None? <==> exists i :: 0 <= i < |scores| && scores[i].None?
  {
    if scores == [] then Some(0)
    else
      var rest := Total(scores[..|scores| - 1]);
      var last := scores[|scores| - 1];
      if rest.None? || last.None? then None else Some(rest.value + last.value)
  }

  predicate InRange(scores: seq<Score>) {
    forall i :: 0 <= i < |scores| ==> scores[i].Some? && 0 <= scores[i].value <= 2
  }

  /** With every score one of the selectable 0, 1, 2 the total is a number in 0..2n. */
  lemma {:induction false} TotalRange(scores: seq<Score>)
    requires InRange(scores)
    ensures Total(scores).Some?
    ensures 0 <= Total(scores).value <= 2 * |scores|
  {
    if scores != [] {
      TotalRange(scores[..|scores| - 1]);
    }
  }

  datatype Veredicto = Apto | Revision

  /** `total >= 12 ? APTO : revision`; `NaN >= 12` is false. */
  function Resultado(total: Score): (v: Veredicto)
    ensures v == Apto <==> total.Some? && total.value >= UmbralApto
  {
    if total.Some? && total.value >= UmbralApto then Apto else Revision
  }

  function TextoResultado(v: Veredicto): string {
    match v
    case Apto => "✅ APTO para la siguiente fase."
    case Revision => "⚠️ Revisión recomendada."
  }

  /** The values offered by the score selector. */
  const Opciones: seq<string> := ["0", "1", "2"]

  /** Every selector value parses back to the score it shows. */
  lemma OpcionesParse(k: nat)
    requires k < |Opciones|
    ensures ParseInt(Opciones[k]) == Some(k)
  {
    assert Opciones[k] == NatToString(k);
    ParseIntOfNatToString(k);
  }

  /** The manual scoring state of the screen. */
  class EvaluacionManual {
    var manualScores: seq<Score>

    /** `useState(Array(8).fill(0))`. */
    constructor ()
      ensures manualScores == seq(NumPreguntas, _ => Some(0))
      ensures Total(manualScores) == Some(0)
    {
      var zeros: seq<Score> := seq(NumPreguntas, _ => Some(0));
      InitialTotal(zeros);
      manualScores := zeros;
    }

    /** `handleManualScore`: copies the scores and writes `parseInt(value)` at `index`. */
    method HandleManualScore(index: nat, value: string)
      requires index < |manualScores|
      modifies this
      ensures manualScores == old(manualScores)[index := ParseInt(value)]
    {
      manualScores := manualScores[index := ParseInt(value)];
    }
  }

  lemma {:induction false} InitialTotal(scores: seq<Score>)
    requires forall i :: 0 <= i < |scores| ==> scores[i] == Some(0)
    ensures Total(scores) == Some(0)
  {
    if scores != [] {
      InitialTotal(scores[..|scores| - 1]);
    }
  }

  /** Choosing a selector value keeps every score within 0..2, so the total stays within
      0..16 for the eight questions. */
  lemma SelectKeepsRange(scores: seq<Score>, index: nat, k: nat)
    requires InRange(scores) && index < |scores| && k < |Opciones|
    ensures InRange(scores[index := ParseInt(Opciones[k])])
    ensures |scores| == NumPreguntas ==>
      0 <= Total(scores[index := ParseInt(Opciones[k])]).value <= 16
  {
    OpcionesParse(k);
    var s' := scores[index := ParseInt(Opciones[k])];
    assert InRange(s');
    TotalRange(s');
  }

  // ---------------------------------------------------------------------------
  // Saving
  // ---------------------------------------------------------------------------

  const SinAnalisis: string := "Sin análisis"

  /** `extractEvalDePregunta`: the whole analysis text, whatever the question. */
  function ExtractEvalDePregunta(analysis: Option<string>, preguntaId: nat): (r: string)
    ensures Truthy(analysis) ==> r == analysis.value
    ensures !Truthy(analysis) ==> r == SinAnalisis
    ensures r != ""
  {
    OrDefault(analysis, SinAnalisis)
  }

  /** One saved answer; the timestamp is left out. */
  datatype Registro = Registro(
    preguntaId: nat,
    texto: string,
    evaluacionAutomatica: string,
    puntajeManual: Score,
    comentarioManual: string)

  /** `answers[i]`, with an index past the end read as `undefined`. */
  function Answer(answers: seq<Option<string>>, i: nat): Option<string> {
    if i < |answers| then answers[i] else None
  }

  function Registrar(answers: seq<Option<string>>, analysis: Option<string>,
                     scores: seq<Score>, i: nat): Registro
    requires i < |scores|
  {
    Registro(i + 1, OrDefault(Answer(answers, i), ""),
             OrDefault(Some(ExtractEvalDePregunta(analysis, i + 1)), ""), scores[i], "")
  }

  /** The `questions.map` in `guardarEnBase`: exactly eight records, one per question. */
  function Registros(answers: seq<Option<string>>, analysis: Option<string>,
                     scores: seq<Score>): (rs: seq<Registro>)
    requires |scores| == NumPreguntas
    ensures |rs| == NumPreguntas
    ensures forall i :: 0 <= i < |rs| ==> rs[i].preguntaId == i + 1
    ensures forall i :: 0 <= i < |rs| ==> rs[i].puntajeManual == scores[i]
    ensures forall i :: 0 <= i < |rs| ==> rs[i].comentarioManual == ""
    ensures forall i :: 0 <= i < |rs| ==>
      rs[i].texto == (if i < |answers| && Truthy(answers[i]) then answers[i].value else "")
    ensures forall i :: 0 <= i < |rs| ==>
      rs[i].evaluacionAutomatica == ExtractEvalDePregunta(analysis, i + 1)
  {
    seq(NumPreguntas, i requires 0 <= i < NumPreguntas => Registrar(answers, analysis, scores, i))
  }
}
