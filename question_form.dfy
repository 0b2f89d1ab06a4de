/** The eight-question free-text form: keyword/length scoring of each answer, the 12-point
    pass rule, the text report, the blank-answer guard on submit and the answer edits. */
module QuestionForm {
  import opened Js

  /** Keyword set of each question, by position. */
  const PalabrasClave: seq<seq<string>> := [
    ["desarrollador", "tecnologías", "compromiso"],
    ["motivación", "creciendo", "aprendiendo"],
    ["logro", "liderar", "gestión", "proyecto"],
    ["presión", "calma", "priorizar", "planificación"],
    ["colaboración", "equipo", "soluciones"],
    ["objetivo", "liderazgo", "creciendo"],
    ["responsabilidad", "experiencia", "adapto", "confiable"],
    ["frameworks", "trabajado", "desarrolló"]
  ]

  const NumPreguntas: nat := 8

  /** Total from which an automatic evaluation is "APTO". */
  const UmbralApto: int := 12

  /** Trimmed length above which an answer earns the length point. */
  const LongitudMinima: nat := 50

  // ---------------------------------------------------------------------------
  // Scoring one answer
  // ---------------------------------------------------------------------------

  /** `claves.some(palabra => texto.includes(palabra))`. */
  predicate AlgunaClave(texto: string, claves: seq<string>)
  {
    claves != [] && (Contains(texto, claves[0]) || AlgunaClave(texto, claves[1..]))
  }

  /** Some keyword occurs somewhere in the text, as a plain substring. */
  lemma {:induction false} AlgunaClaveIff(texto: string, claves: seq<string>)
    ensures AlgunaClave(texto, claves) <==>
      exists j, k :: 0 <= j < |claves| && OccursAt(texto, claves[j], k)
  {
    if claves != [] {
      ContainsIff(texto, claves[0]);
      AlgunaClaveIff(texto, claves[1..]);
      if exists j, k :: 0 <= j < |claves| && OccursAt(texto, claves[j], k) {
        var j, k :| 0 <= j < |claves| && OccursAt(texto, claves[j], k);
        if j > 0 {
          assert claves[1..][j - 1] == claves[j];
        }
      }
      if AlgunaClave(texto, claves[1..]) {
        var j, k :| 0 <= j < |claves[1..]| && OccursAt(texto, claves[1..][j], k);
        assert claves[j + 1] == claves[1..][j];
      }
    }
  }

  predicate PuntoLongitud(respuesta: string) {
    |Trim(respuesta)| > LongitudMinima
  }

  /** The keyword test runs on the lower-cased, untrimmed answer. */
  predicate PuntoClave(respuesta: string, i: nat)
    requires i < |PalabrasClave|
  {
    AlgunaClave(ToLower(respuesta), PalabrasClave[i])
  }

  /** Score of answer `i`: one point for length, one for a keyword. */
  function Puntaje(respuesta: string, i: nat): (s: nat)
    requires i < |PalabrasClave|
    ensures s <= 2
    ensures s == 2 <==> PuntoLongitud(respuesta) && PuntoClave(respuesta, i)
    ensures s == 0 <==> !PuntoLongitud(respuesta) && !PuntoClave(respuesta, i)
  {
    (if PuntoLongitud(respuesta) then 1 else 0) + (if PuntoClave(respuesta, i) then 1 else 0)
  }

  /** The keyword point is earned exactly when some keyword of question `i` is a substring
      of the lower-cased answer. */
  lemma PuntoClaveIff(respuesta: string, i: nat)
    requires i < |PalabrasClave|
    ensures PuntoClave(respuesta, i) <==>
      exists j, k :: 0 <= j < |PalabrasClave[i]| && OccursAt(ToLower(respuesta), PalabrasClave[i][j], k)
  {
    var claves := PalabrasClave[i];
    AlgunaClaveIff(ToLower(respuesta), claves);
    assert PuntoClave(respuesta, i) == AlgunaClave(ToLower(respuesta), claves);
  }

  /** A white-space-only answer never earns the length point. */
  lemma BlankNoLengthPoint(respuesta: string)
    requires AllSpace(respuesta)
    ensures !PuntoLongitud(respuesta)
  {
    TrimEmptyIff(respuesta);
  }

  // ---------------------------------------------------------------------------
  // Scoring the form
  // ---------------------------------------------------------------------------

  /** `{ pregunta: i + 1, texto: respuesta, puntaje: score }`. */
  datatype Puntuacion = Puntuacion(pregunta: nat, texto: string, puntaje: nat)

  function Puntua(answers: seq<string>, i: nat): Puntuacion
    requires i < |answers| <= |PalabrasClave|
  {
    Puntuacion(i + 1, answers[i], Puntaje(answers[i], i))
  }

  function Puntuaciones(answers: seq<string>): (ps: seq<Puntuacion>)
    requires |answers| <= |PalabrasClave|
    ensures |ps| == |answers|
    ensures forall i :: 0 <= i < |ps| ==> ps[i] == Puntua(answers, i)
  {
    seq(|answers|, i requires 0 <= i < |answers| => Puntua(answers, i))
  }

  /** `puntuaciones.reduce((acc, p) => acc + p.puntaje, 0)`. */
  function Total(ps: seq<Puntuacion>): nat
  {
    if ps == [] then 0 else Total(ps[..|ps| - 1]) + ps[|ps| - 1].puntaje
  }

  lemma {:induction false} TotalBounds(ps: seq<Puntuacion>)
    requires forall i :: 0 <= i < |ps| ==> ps[i].puntaje <= 2
    ensures Total(ps) <= 2 * |ps|
  {
    if ps != [] {
      TotalBounds(ps[..|ps| - 1]);
    }
  }

  /** For the eight answers the automatic total lies in 0..16. */
  lemma AutomaticTotalRange(answers: seq<string>)
    requires |answers| == NumPreguntas
    ensures Total(Puntuaciones(answers)) <= 16
  {
    TotalBounds(Puntuaciones(answers));
  }

  datatype Veredicto = Apto | Revision

  /** `total >= 12 ? APTO : revision`. */
  function Clasificar(total: int): (v: Veredicto)
    ensures v == Apto <==> total >= UmbralApto
  {
    if total >= UmbralApto then Apto else Revision
  }

  function TextoVeredicto(v: Veredicto): string {
    match v
    case Apto => "✅ APTO para la siguiente fase."
    case Revision => "⚠️ Se recomienda una revisión más detallada."
  }

  const Encabezado: string := "📊 Evaluación automática:\n\n"

  function Linea(p: Puntuacion): string {
    "Pregunta " + NatToString(p.pregunta) + ": " + NatToString(p.puntaje) + "/2\n"
  }

  function Lineas(ps: seq<Puntuacion>): string {
    if ps == [] then "" else Lineas(ps[..|ps| - 1]) + Linea(ps[|ps| - 1])
  }

  /** The report text: header, one line per answer in order, then the verdict. */
  function Informe(ps: seq<Puntuacion>): string
  {
    Encabezado + Lineas(ps) + ResultadoFinal + TextoVeredicto(Clasificar(Total(ps)))
  }

  const ResultadoFinal: string := "\n➡️ Resultado final: "

  /** The `reduce` over the scores, written as the accumulating loop. */
  method SumarPuntajes(ps: seq<Puntuacion>) returns (total: nat)
    ensures total == Total(ps)
  {
    total := 0;
    var k := 0;
    while k < |ps|
      invariant 0 <= k <= |ps|
      invariant total == Total(ps[..k])
    {
      assert ps[..k + 1][..k] == ps[..k];
      total := total + ps[k].puntaje;
      k := k + 1;
    }
    assert ps[..|ps|] == ps;
  }

  /** The `forEach` that appends one line per answer to the report. */
  method EscribirLineas(ps: seq<Puntuacion>) returns (texto: string)
    ensures texto == Encabezado + Lineas(ps)
  {
    texto := Encabezado;
    var k := 0;
    while k < |ps|
      invariant 0 <= k <= |ps|
      invariant texto == Encabezado + Lineas(ps[..k])
    {
      assert ps[..k + 1][..k] == ps[..k];
      ghost var linea := Linea(ps[k]);
      assert Lineas(ps[..k + 1]) == Lineas(ps[..k]) + linea;
      AppendAssoc(Encabezado, Lineas(ps[..k]), linea);
      texto := texto + Linea(ps[k]);
      k := k + 1;
    }
    assert ps[..|ps|] == ps;
  }

  /** `evaluarRespuestas`: scores every answer and writes the report. */
  method EvaluarRespuestas(answers: seq<string>) returns (informe: string)
    requires |answers| <= |PalabrasClave|
    ensures informe == Informe(Puntuaciones(answers))
  {
    var ps := Puntuaciones(answers);
    var total := SumarPuntajes(ps);
    var texto := EscribirLineas(ps);
    informe := texto + ResultadoFinal + TextoVeredicto(Clasificar(total));
  }

  /** Number of answers that earned at least one point. */
  function Puntuadas(ps: seq<Puntuacion>): nat
  {
    if ps == [] then 0 else Puntuadas(ps[..|ps| - 1]) + (if ps[|ps| - 1].puntaje > 0 then 1 else 0)
  }

  lemma {:induction false} TotalAtMostTwicePuntuadas(ps: seq<Puntuacion>)
    requires forall i :: 0 <= i < |ps| ==> ps[i].puntaje <= 2
    ensures Total(ps) <= 2 * Puntuadas(ps)
  {
    if ps != [] {
      TotalAtMostTwicePuntuadas(ps[..|ps| - 1]);
    }
  }

  /** An "APTO" automatic verdict needs at least six answers that scored. */
  lemma AptoNeedsSixScoredAnswers(ps: seq<Puntuacion>)
    requires forall i :: 0 <= i < |ps| ==> ps[i].puntaje <= 2
    requires Clasificar(Total(ps)) == Apto
    ensures Puntuadas(ps) >= 6
  {
    TotalAtMostTwicePuntuadas(ps);
  }

  // ---------------------------------------------------------------------------
  // Submitting
  // ---------------------------------------------------------------------------

  /** The answer trims to the empty string. */
  predicate EnBlanco(answer: string) {
    Trim(answer) == ""
  }

  /** `answers.some(answer => answer.trim() === '')`. */
  predicate AlgunaVacia(answers: seq<string>)
  {
    Any(answers, EnBlanco)
  }

  /** The guard fires exactly when some answer trims to the empty string, which by
      `Js.TrimEmptyIff` means the answer is white space only. */
  lemma AlgunaVaciaIff(answers: seq<string>)
    ensures AlgunaVacia(answers) <==> exists i :: 0 <= i < |answers| && Trim(answers[i]) == ""
  {
    AnyIff(answers, EnBlanco);
  }

  const ErrorIncompleto: string := "Por favor, responde todas las preguntas."
  const ErrorEnvio: string := "❌ Hubo un error al enviar las respuestas."

  /** The form state: the eight answers and the error message shown under the form. */
  class Formulario {
    var answers: seq<string>
    var error: Option<string>

    constructor ()
      ensures answers == seq(NumPreguntas, _ => "") && error == None
    {
      answers := seq(NumPreguntas, _ => "");
      error := None;
    }

    /** `handleInputChange`: copies the answers and overwrites slot `index`. */
    method HandleInputChange(index: nat, value: string)
      requires index < |answers|
      modifies this
      ensures answers == old(answers)[index := value]
      ensures error == old(error)
    {
      answers := answers[index := value];
    }

    /** `handleSubmit`: a blank answer stops everything with the "answer all" message;
        otherwise the report is produced and handed on, and the status update (whose
        success is `patchOk`) decides the error message left on the form. */
    method HandleSubmit(patchOk: bool) returns (informe: Option<string>)
      requires |answers| <= |PalabrasClave|
      modifies this
      ensures answers == old(answers)
      ensures informe.None? <==> exists i :: 0 <= i < |answers| && Trim(answers[i]) == ""
      ensures informe.Some? ==> informe.value == Informe(Puntuaciones(answers))
      ensures informe.None? ==> error == Some(ErrorIncompleto)
      ensures informe.Some? ==> error == (if patchOk then None else Some(ErrorEnvio))
    {
      error := None;
      AlgunaVaciaIff(answers);
      if AlgunaVacia(answers) {
        error := Some(ErrorIncompleto);
        return None;
      }
      var r := EvaluarRespuestas(answers);
      informe := Some(r);
      if !patchOk {
        error := Some(ErrorEnvio);
      }
    }
  }
}
