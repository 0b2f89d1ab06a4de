/** The template editor: a title and a list of questions, each with a module and a list of
    scored options, edited in place by the form's handlers and validated in a fixed order
    before it is sent. */
module PlantillaForm {
  import opened Js

  datatype Opcion = Opcion(textoOpcion: string, puntos: int)
  datatype Pregunta = Pregunta(texto: string, modulo: string, opciones: seq<Opcion>)

  const ModuloPorDefecto: string := "Personalidad"
  const OpcionVacia: Opcion := Opcion("", 0)
  /** The question added by `agregarPregunta` and held initially. */
  const PreguntaNueva: Pregunta := Pregunta("", ModuloPorDefecto, [OpcionVacia])

  /** A template being edited: every question has at least one option and there is at
      least one question. The delete buttons are disabled at length 1 to keep this. */
  predicate Completa(preguntas: seq<Pregunta>) {
    |preguntas| >= 1 && forall i :: 0 <= i < |preguntas| ==> |preguntas[i].opciones| >= 1
  }

  /** `Array.prototype.splice(index, 1)`: an index past the end removes nothing. */
  function Splice<T>(s: seq<T>, index: nat): (r: seq<T>)
    ensures index < |s| ==> |r| == |s| - 1
    ensures index >= |s| ==> r == s
    ensures forall j :: 0 <= j < |r| ==> r[j] == if j < index then s[j] else s[j + 1]
  {
    if index < |s| then s[..index] + s[index + 1..] else s
  }

  /** `parseInt(e.target.value) || 0` on the points field. */
  function PuntosDe(entrada: string): (p: int)
    ensures ParseInt(entrada).None? ==> p == 0
    ensures ParseInt(entrada).Some? ==> p == ParseInt(entrada).value
  {
    ParseIntOr(entrada, 0)
  }

  // ---------------------------------------------------------------------------
  // Questions generated elsewhere
  // ---------------------------------------------------------------------------

  /** A question as returned by the generator: its module and options may be missing. */
  datatype PreguntaIA = PreguntaIA(texto: string, modulo: Option<string>,
                                   opciones: Option<seq<Opcion>>)

  /** The `preguntasIA.map` of `handlePreguntasGeneradas`. Any array of options, even an empty
      one, is truthy and kept. */
  function Formatear(preguntasIA: seq<PreguntaIA>): (ps: seq<Pregunta>)
    ensures |ps| == |preguntasIA|
    ensures forall i :: 0 <= i < |ps| ==>
      ps[i].texto == preguntasIA[i].texto &&
      ps[i].modulo == OrDefault(preguntasIA[i].modulo, ModuloPorDefecto) &&
      ps[i].opciones == (if preguntasIA[i].opciones.Some? then preguntasIA[i].opciones.value
                         else [OpcionVacia])
  {
    seq(|preguntasIA|, i requires 0 <= i < |preguntasIA| =>
      Pregunta(preguntasIA[i].texto, OrDefault(preguntasIA[i].modulo, ModuloPorDefecto),
               if preguntasIA[i].opciones.Some? then preguntasIA[i].opciones.value
               else [OpcionVacia]))
  }

  // ---------------------------------------------------------------------------
  // Validation
  // ---------------------------------------------------------------------------

  datatype ErrorValidacion = TituloVacio | SinPreguntas | PreguntaVacia(i: nat) | SinOpciones(i: nat)

  function Mensaje(e: ErrorValidacion): string {
    match e
    case TituloVacio => "El título es obligatorio"
    case SinPreguntas => "Debe agregar al menos una pregunta"
    case PreguntaVacia(i) => "La pregunta " + NatToString(i + 1) + " no puede estar vacía"
    case SinOpciones(i) =>
      "La pregunta " + NatToString(i + 1) + " debe tener al menos una opción de respuesta"
  }

  /** The option has text once trimmed. */
  predicate TieneTexto(o: Opcion) {
    Trim(o.textoOpcion) != ""
  }

  /** `opciones.filter(op => op.texto_opcion.trim())`. */
  function OpcionesValidas(opciones: seq<Opcion>): (r: seq<Opcion>)
    ensures |r| <= |opciones|
  {
    Filter(opciones, TieneTexto)
  }

  /** An option list passes exactly when some option has text once trimmed. */
  lemma OpcionesValidasEmptyIff(opciones: seq<Opcion>)
    ensures |OpcionesValidas(opciones)| == 0 <==>
      forall k :: 0 <= k < |opciones| ==> Trim(opciones[k].textoOpcion) == ""
  {
    FilterEmptyIff(opciones, TieneTexto);
  }

  /** The two checks made on question `i` inside the loop, in order. */
  function FalloPregunta(p: Pregunta, i: nat): (r: Option<ErrorValidacion>)
    ensures r.Some? ==> Indice(r.value) == i
  {
    if Trim(p.texto) == "" then Some(PreguntaVacia(i))
    else if |OpcionesValidas(p.opciones)| == 0 then Some(SinOpciones(i))
    else None
  }

  /** An empty text is reported before missing options; a question passes only when it has
      both. */
  lemma FalloPreguntaIff(p: Pregunta, i: nat)
    ensures FalloPregunta(p, i) == Some(PreguntaVacia(i)) <==> Trim(p.texto) == ""
    ensures FalloPregunta(p, i) == Some(SinOpciones(i)) <==>
      Trim(p.texto) != "" && |OpcionesValidas(p.opciones)| == 0
    ensures FalloPregunta(p, i).None? <==>
      Trim(p.texto) != "" && |OpcionesValidas(p.opciones)| > 0
  {
  }

  function Indice(e: ErrorValidacion): nat {
    match e
    case PreguntaVacia(i) => i
    case SinOpciones(i) => i
    case _ => 0
  }

  /** The outcome of the checks on each question, by index. */
  function Fallos(ps: seq<Pregunta>): (fs: seq<Option<ErrorValidacion>>)
    ensures |fs| == |ps|
  {
    seq(|ps|, j requires 0 <= j < |ps| => FalloPregunta(ps[j], j))
  }

  lemma FallosAt(ps: seq<Pregunta>, j: nat)
    requires j < |ps|
    ensures Fallos(ps)[j] == FalloPregunta(ps[j], j)
  {
  }

  lemma FallosIndexados(ps: seq<Pregunta>)
    ensures Indexados(Fallos(ps))
  {
    forall j | 0 <= j < |ps| && Fallos(ps)[j].Some?
      ensures Indice(Fallos(ps)[j].value) == j
    {
      FallosAt(ps, j);
    }
  }

  /** Each failure names the index of the question that produced it. */
  predicate Indexados(fs: seq<Option<ErrorValidacion>>) {
    forall j :: 0 <= j < |fs| && fs[j].Some? ==> Indice(fs[j].value) == j
  }

  /** The first failure among the outcomes from `desde` on, scanning upwards. */
  function PrimerFallo(fs: seq<Option<ErrorValidacion>>, desde: nat): Option<ErrorValidacion>
    decreases |fs| - desde
  {
    if desde >= |fs| then None
    else if fs[desde].Some? then fs[desde]
    else PrimerFallo(fs, desde + 1)
  }

  /** The error `handleSubmit` stops at, if any: the title, then the question count, then the
      questions in order. */
  function Validar(titulo: string, ps: seq<Pregunta>): Option<ErrorValidacion> {
    if Trim(titulo) == "" then Some(TituloVacio)
    else if |ps| == 0 then Some(SinPreguntas)
    else PrimerFallo(Fallos(ps), 0)
  }

  /** The scan finds nothing exactly when every outcome from `desde` on is a pass. */
  lemma {:induction false} PrimerFalloNoneIff(fs: seq<Option<ErrorValidacion>>, desde: nat)
    decreases |fs| - desde
    ensures PrimerFallo(fs, desde).None? <==> forall j :: desde <= j < |fs| ==> fs[j].None?
  {
    if desde < |fs| && fs[desde].None? {
      PrimerFalloNoneIff(fs, desde + 1);
    }
  }

  /** The scan reports the lowest failing index: every earlier outcome is a pass. */
  lemma {:induction false} PrimerFalloSome(fs: seq<Option<ErrorValidacion>>, desde: nat)
    decreases |fs| - desde
    requires Indexados(fs) && PrimerFallo(fs, desde).Some?
    ensures var i := Indice(PrimerFallo(fs, desde).value);
      desde <= i < |fs| && fs[i] == PrimerFallo(fs, desde) &&
      forall j :: desde <= j < i ==> fs[j].None?
  {
    if fs[desde].None? {
      PrimerFalloSome(fs, desde + 1);
    }
  }

  /** A template is accepted exactly when its title, its question count and every question
      pass. */
  lemma ValidarNoneIff(titulo: string, ps: seq<Pregunta>)
    ensures Validar(titulo, ps).None? <==>
      Trim(titulo) != "" && |ps| > 0 && forall j :: 0 <= j < |ps| ==> FalloPregunta(ps[j], j).None?
  {
    if Trim(titulo) != "" && |ps| > 0 {
      PasanIff(ps);
    }
  }

  lemma PasanIff(ps: seq<Pregunta>)
    ensures PrimerFallo(Fallos(ps), 0).None? <==>
      forall j :: 0 <= j < |ps| ==> FalloPregunta(ps[j], j).None?
  {
    var fs := Fallos(ps);
    PrimerFalloNoneIff(fs, 0);
    forall j | 0 <= j < |ps|
      ensures fs[j] == FalloPregunta(ps[j], j)
    {
      FallosAt(ps, j);
    }
  }

  /** A question passes when its text and at least one option's text are non-blank. */
  lemma TodasPasanIff(ps: seq<Pregunta>)
    ensures (forall j :: 0 <= j < |ps| ==> FalloPregunta(ps[j], j).None?) <==>
      forall j :: 0 <= j < |ps| ==> Trim(ps[j].texto) != "" && |OpcionesValidas(ps[j].opciones)| > 0
  {
    forall j | 0 <= j < |ps|
      ensures FalloPregunta(ps[j], j).None? <==>
        Trim(ps[j].texto) != "" && |OpcionesValidas(ps[j].opciones)| > 0
    {
      FalloPreguntaIff(ps[j], j);
    }
  }

  /** A rejected question is the first one that fails, and it fails in the way reported. */
  lemma ValidarReportsFirst(titulo: string, ps: seq<Pregunta>)
    requires Trim(titulo) != "" && |ps| > 0 && Validar(titulo, ps).Some?
    ensures var i := Indice(Validar(titulo, ps).value);
      i < |ps| && FalloPregunta(ps[i], i) == Validar(titulo, ps) &&
      forall j :: 0 <= j < i ==> FalloPregunta(ps[j], j).None?
  {
    var fs := Fallos(ps);
    FallosIndexados(ps);
    PrimerFalloSome(fs, 0);
    FallosAt(ps, Indice(Validar(titulo, ps).value));
    forall j | 0 <= j < Indice(Validar(titulo, ps).value)
      ensures FalloPregunta(ps[j], j).None?
    {
      FallosAt(ps, j);
    }
  }

  /** The `for` loop of `handleSubmit`: questions are checked in order and the loop stops at the
      first failure. */
  method RevisarPreguntas(ps: seq<Pregunta>) returns (fallo: Option<ErrorValidacion>)
    ensures fallo == PrimerFallo(Fallos(ps), 0)
  {
    ghost var fs := Fallos(ps);
    var i := 0;
    while i < |ps|
      invariant 0 <= i <= |ps|
      invariant PrimerFallo(fs, 0) == PrimerFallo(fs, i)
    {
      FallosAt(ps, i);
      if Trim(ps[i].texto) == "" {
        assert fs[i] == Some(PreguntaVacia(i));
        return Some(PreguntaVacia(i));
      }
      var validas := OpcionesValidas(ps[i].opciones);
      if |validas| == 0 {
        assert fs[i] == Some(SinOpciones(i));
        return Some(SinOpciones(i));
      }
      assert fs[i].None?;
      i := i + 1;
    }
    return None;
  }

  /** The checks of `handleSubmit` in their order: the title, then that there are questions,
      then each question. */
  method ValidarPlantilla(titulo: string, ps: seq<Pregunta>) returns (fallo: Option<ErrorValidacion>)
    ensures fallo == Validar(titulo, ps)
  {
    if Trim(titulo) == "" {
      return Some(TituloVacio);
    }
    if |ps| == 0 {
      return Some(SinPreguntas);
    }
    fallo := RevisarPreguntas(ps);
  }

  const ErrorGuardar: string := "Error al guardar la plantilla"

  /** A template as loaded for editing. */
  datatype Plantilla = Plantilla(titulo: string, preguntas: Option<seq<Pregunta>>)

  /** The form's state. */
  class Formulario {
    var titulo: string
    var preguntas: seq<Pregunta>
    var error: string
    var mostrarGeneradorIA: bool

    constructor ()
      ensures titulo == "" && preguntas == [PreguntaNueva] && error == "" && !mostrarGeneradorIA
      ensures Completa(preguntas)
    {
      titulo := "";
      preguntas := [PreguntaNueva];
      error := "";
      mostrarGeneradorIA := false;
    }

    /** The edit-mode effect: the title is taken, the questions only when there are some. */
    method CargarExistente(existente: Option<Plantilla>)
      modifies this
      ensures existente.None? ==> titulo == old(titulo) && preguntas == old(preguntas)
      ensures existente.Some? ==> titulo == existente.value.titulo
      ensures existente.Some? && existente.value.preguntas.Some? && |existente.value.preguntas.value| > 0
        ==> preguntas == existente.value.preguntas.value
      ensures existente.Some? && (existente.value.preguntas.None? || |existente.value.preguntas.value| == 0)
        ==> preguntas == old(preguntas)
      ensures error == old(error) && mostrarGeneradorIA == old(mostrarGeneradorIA)
    {
      if existente.Some? {
        titulo := existente.value.titulo;
        var ps := existente.value.preguntas;
        if ps.Some? && |ps.value| > 0 {
          preguntas := ps.value;
        }
      }
    }

    /** `setTitulo(e.target.value)`. */
    method CambiarTitulo(value: string)
      modifies this
      ensures titulo == value
      ensures preguntas == old(preguntas) && error == old(error) && mostrarGeneradorIA == old(mostrarGeneradorIA)
    {
      titulo := value;
    }

    /** `handlePreguntaChange(index, 'texto', value)`. */
    method CambiarTextoPregunta(index: nat, value: string)
      requires index < |preguntas|
      modifies this
      ensures preguntas == old(preguntas)[index := old(preguntas)[index].(texto := value)]
      ensures titulo == old(titulo) && error == old(error) && mostrarGeneradorIA == old(mostrarGeneradorIA)
    {
      preguntas := preguntas[index := preguntas[index].(texto := value)];
    }

    /** `handlePreguntaChange(index, 'modulo', value)`. */
    method CambiarModulo(index: nat, value: string)
      requires index < |preguntas|
      modifies this
      ensures preguntas == old(preguntas)[index := old(preguntas)[index].(modulo := value)]
      ensures titulo == old(titulo) && error == old(error) && mostrarGeneradorIA == old(mostrarGeneradorIA)
    {
      preguntas := preguntas[index := preguntas[index].(modulo := value)];
    }

    /** `handleOpcionChange(pregIndex, opcIndex, 'texto_opcion', value)`. */
    method CambiarTextoOpcion(pregIndex: nat, opcIndex: nat, value: string)
      requires pregIndex < |preguntas| && opcIndex < |preguntas[pregIndex].opciones|
      modifies this
      ensures var p := old(preguntas)[pregIndex];
        preguntas == old(preguntas)[pregIndex :=
          p.(opciones := p.opciones[opcIndex := p.opciones[opcIndex].(textoOpcion := value)])]
      ensures titulo == old(titulo) && error == old(error) && mostrarGeneradorIA == old(mostrarGeneradorIA)
    {
      var p := preguntas[pregIndex];
      preguntas := preguntas[pregIndex :=
        p.(opciones := p.opciones[opcIndex := p.opciones[opcIndex].(textoOpcion := value)])];
    }

    /** `handleOpcionChange(pregIndex, opcIndex, 'puntos', parseInt(value) || 0)`. */
    method CambiarPuntos(pregIndex: nat, opcIndex: nat, value: string)
      requires pregIndex < |preguntas| && opcIndex < |preguntas[pregIndex].opciones|
      modifies this
      ensures var p := old(preguntas)[pregIndex];
        preguntas == old(preguntas)[pregIndex :=
          p.(opciones := p.opciones[opcIndex := p.opciones[opcIndex].(puntos := PuntosDe(value))])]
      ensures titulo == old(titulo) && error == old(error) && mostrarGeneradorIA == old(mostrarGeneradorIA)
    {
      var p := preguntas[pregIndex];
      preguntas := preguntas[pregIndex :=
        p.(opciones := p.opciones[opcIndex := p.opciones[opcIndex].(puntos := PuntosDe(value))])];
    }

    /** `agregarPregunta`. */
    method AgregarPregunta()
      modifies this
      ensures preguntas == old(preguntas) + [PreguntaNueva]
      ensures old(Completa(preguntas)) ==> Completa(preguntas)
      ensures titulo == old(titulo) && error == old(error) && mostrarGeneradorIA == old(mostrarGeneradorIA)
    {
      preguntas := preguntas + [PreguntaNueva];
    }

    /** `eliminarPregunta(index)`; the button is enabled only while there are two or more
      questions, and then the form keeps at least one. */
    method EliminarPregunta(index: nat)
      modifies this
      ensures preguntas == Splice(old(preguntas), index)
      ensures old(Completa(preguntas)) && old(|preguntas|) != 1 ==> Completa(preguntas)
      ensures titulo == old(titulo) && error == old(error) && mostrarGeneradorIA == old(mostrarGeneradorIA)
    {
      preguntas := Splice(preguntas, index);
    }

    /** `agregarOpcion(pregIndex)`. */
    method AgregarOpcion(pregIndex: nat)
      requires pregIndex < |preguntas|
      modifies this
      ensures var p := old(preguntas)[pregIndex];
        preguntas == old(preguntas)[pregIndex := p.(opciones := p.opciones + [OpcionVacia])]
      ensures old(Completa(preguntas)) ==> Completa(preguntas)
      ensures titulo == old(titulo) && error == old(error) && mostrarGeneradorIA == old(mostrarGeneradorIA)
    {
      var p := preguntas[pregIndex];
      preguntas := preguntas[pregIndex := p.(opciones := p.opciones + [OpcionVacia])];
    }

    /** `eliminarOpcion(pregIndex, opcIndex)`; enabled only while the question has two or more
      options, and then it keeps at least one. */
    method EliminarOpcion(pregIndex: nat, opcIndex: nat)
      requires pregIndex < |preguntas|
      modifies this
      ensures var p := old(preguntas)[pregIndex];
        preguntas == old(preguntas)[pregIndex := p.(opciones := Splice(p.opciones, opcIndex))]
      ensures old(Completa(preguntas)) && old(|preguntas[pregIndex].opciones|) != 1 ==> Completa(preguntas)
      ensures titulo == old(titulo) && error == old(error) && mostrarGeneradorIA == old(mostrarGeneradorIA)
    {
      var p := preguntas[pregIndex];
      preguntas := preguntas[pregIndex := p.(opciones := Splice(p.opciones, opcIndex))];
    }

    /** `handlePreguntasGeneradas`: the generated questions replace the current ones and the
      generator closes. */
    method HandlePreguntasGeneradas(preguntasIA: seq<PreguntaIA>)
      modifies this
      ensures preguntas == Formatear(preguntasIA) && !mostrarGeneradorIA
      ensures titulo == old(titulo) && error == old(error)
    {
      preguntas := Formatear(preguntasIA);
      mostrarGeneradorIA := false;
    }

    /** `handleSubmit`: the checks run in order and the first failure is shown; only a template
      that passes them all is sent, and `guardadoOk` is whether the request succeeded. */
    method HandleSubmit(guardadoOk: bool) returns (enviada: Option<(string, seq<Pregunta>)>)
      modifies this
      ensures enviada.Some? <==> Validar(titulo, preguntas).None?
      ensures enviada.Some? ==> enviada.value == (titulo, preguntas)
      ensures Validar(titulo, preguntas).Some? ==> error == Mensaje(Validar(titulo, preguntas).value)
      ensures enviada.Some? ==> error == (if guardadoOk then "" else ErrorGuardar)
      ensures titulo == old(titulo) && preguntas == old(preguntas)
      ensures mostrarGeneradorIA == old(mostrarGeneradorIA)
    {
      var fallo := ValidarPlantilla(titulo, preguntas);
      if fallo.Some? {
        error := Mensaje(fallo.value);
        return None;
      }
      enviada := Some((titulo, preguntas));
      error := if guardadoOk then "" else ErrorGuardar;
    }
  }
}
