/** The question generator: a duplicate-free list of competencies edited from a text input,
    the guards checked before the generation request, and the quantity field. */
module GeneradorPreguntasIA {
  import opened Js
  import PlantillaForm

  /** `agregarCompetencia`: the trimmed input is appended, and the input cleared, only when it
      is non-blank and not in the list yet; otherwise nothing changes. */
  function AgregarCompetencia(competencias: seq<string>, input: string): (r: (seq<string>, string))
    ensures var t := Trim(input);
      if t != "" && t !in competencias then r == (competencias + [t], "")
      else r == (competencias, input)
    ensures NoDup(competencias) ==> NoDup(r.0)
  {
    var t := Trim(input);
    if t != "" && t !in competencias then (competencias + [t], "") else (competencias, input)
  }

  /** `competencias.filter(c => c !== competencia)`. */
  function EliminarCompetencia(competencias: seq<string>, competencia: string): (r: seq<string>)
    ensures |r| <= |competencias|
  {
    if competencias == [] then []
    else
      var last := competencias[|competencias| - 1];
      EliminarCompetencia(competencias[..|competencias| - 1], competencia) +
        (if last != competencia then [last] else [])
  }

  predicate Distinta(competencia: string, x: string) {
    x != competencia
  }

  /** Removal takes out every copy of the competency and keeps the others, in order: the
      result is the list filtered on "is not `competencia`", holding exactly the other
      elements. */
  lemma {:induction false} EliminarCompetenciaSpec(competencias: seq<string>, competencia: string)
    ensures EliminarCompetencia(competencias, competencia) ==
      Filter(competencias, (x: string) => Distinta(competencia, x))
    ensures competencia !in EliminarCompetencia(competencias, competencia)
    ensures forall x :: x in EliminarCompetencia(competencias, competencia) <==>
      x in competencias && x != competencia
    ensures competencia !in competencias ==> EliminarCompetencia(competencias, competencia) == competencias
  {
    if competencias != [] {
      var init := competencias[..|competencias| - 1];
      EliminarCompetenciaSpec(init, competencia);
      assert competencias == init + [competencias[|competencias| - 1]];
    }
  }

  /** Removal keeps the list duplicate-free. */
  lemma {:induction false} EliminarCompetenciaNoDup(competencias: seq<string>, competencia: string)
    requires NoDup(competencias)
    ensures NoDup(EliminarCompetencia(competencias, competencia))
  {
    if competencias != [] {
      var init := competencias[..|competencias| - 1];
      var last := competencias[|competencias| - 1];
      EliminarCompetenciaNoDup(init, competencia);
      EliminarCompetenciaSpec(init, competencia);
      assert last !in init by {
        forall i | 0 <= i < |init|
          ensures init[i] != last
        {
          assert competencias[i] == init[i];
        }
      }
    }
  }

  /** `parseInt(e.target.value) || 10`. */
  function Cantidad(entrada: string): (n: int)
    ensures ParseInt(entrada).Some? && ParseInt(entrada).value != 0 ==> n == ParseInt(entrada).value
    ensures ParseInt(entrada).None? || ParseInt(entrada).value == 0 ==> n == 10
    ensures n != 0
  {
    ParseIntOr(entrada, 10)
  }

  const ErrorPuesto: string := "El puesto es requerido"
  const ErrorCompetencias: string := "Debe agregar al menos una competencia"
  const ErrorGeneracion: string := "Error al generar preguntas con IA"

  /** The guards of `generarPreguntas`, in order: the position, then the competencies. */
  function ErrorValidacion(puesto: string, competencias: seq<string>): (e: Option<string>)
    ensures e.None? <==> Trim(puesto) != "" && |competencias| > 0
    ensures Trim(puesto) == "" ==> e == Some(ErrorPuesto)
    ensures Trim(puesto) != "" && |competencias| == 0 ==> e == Some(ErrorCompetencias)
  {
    if Trim(puesto) == "" then Some(ErrorPuesto)
    else if |competencias| == 0 then Some(ErrorCompetencias)
    else None
  }

  /** The outcome of the POST: the questions of a successful response (`None` when the field
      is missing) or a failure. */
  datatype Respuesta = Exito(preguntas: Option<seq<PlantillaForm.PreguntaIA>>) | Fallo

  /** The state `generarPreguntas` leaves: whether the request was sent, the error shown and the
      generated questions. */
  datatype Generacion = Generacion(enviada: bool, error: string,
                                   preguntas: seq<PlantillaForm.PreguntaIA>)

  function GenerarPreguntas(puesto: string, competencias: seq<string>, respuesta: Respuesta,
                            previas: seq<PlantillaForm.PreguntaIA>): (g: Generacion)
    ensures g.enviada <==> ErrorValidacion(puesto, competencias).None?
    ensures !g.enviada ==> g.error == ErrorValidacion(puesto, competencias).value && g.preguntas == previas
    ensures g.enviada && respuesta.Fallo? ==> g.error == ErrorGeneracion && g.preguntas == previas
    ensures g.enviada && respuesta.Exito? ==>
      g.error == "" &&
      g.preguntas == (if respuesta.preguntas.Some? then respuesta.preguntas.value else [])
  {
    var e := ErrorValidacion(puesto, competencias);
    if e.Some? then Generacion(false, e.value, previas)
    else match respuesta
      case Fallo => Generacion(true, ErrorGeneracion, previas)
      case Exito(ps) => Generacion(true, "", if ps.Some? then ps.value else [])
  }
}
