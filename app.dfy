/** The top-level screen machine of the legacy app: which screen is shown and what the
    interviewer session and the current candidate's analysis hold. */
module App {
  import opened Js

  datatype Pantalla = Login | Registro | Dashboard | Formulario | Resultado | Historial

  /** The one component `App` renders for each screen. */
  datatype Componente = LoginForm | RegistroEntrevistador | DashboardView | QuestionForm | ResultView | HistorialView

  function ComponenteDe(p: Pantalla): (c: Componente)
    ensures p == Login <==> c == LoginForm
    ensures p == Resultado <==> c == ResultView
  {
    match p
    case Login => LoginForm
    case Registro => RegistroEntrevistador
    case Dashboard => DashboardView
    case Formulario => QuestionForm
    case Resultado => ResultView
    case Historial => HistorialView
  }

  class Aplicacion {
    var pantalla: Pantalla
    var entrevistadorId: Option<int>
    var nombreEntrevistador: string
    var postulanteId: Option<int>
    var analysis: string
    var answers: seq<string>

    constructor ()
      ensures pantalla == Login && entrevistadorId.None? && nombreEntrevistador == ""
      ensures postulanteId.None? && analysis == "" && answers == []
    {
      pantalla := Login;
      entrevistadorId := None;
      nombreEntrevistador := "";
      postulanteId := None;
      analysis := "";
      answers := [];
    }

    /** The session header (name, sign-out and history) shows for a truthy interviewer id. */
    predicate MuestraSesion()
      reads this
    {
      entrevistadorId.Some? && entrevistadorId.value != 0
    }

    /** `handleLogin`. */
    method HandleLogin(id: int, nombre: string)
      modifies this
      ensures pantalla == Dashboard && entrevistadorId == Some(id) && nombreEntrevistador == nombre
      ensures postulanteId == old(postulanteId) && analysis == old(analysis) && answers == old(answers)
      ensures MuestraSesion() <==> id != 0
    {
      entrevistadorId := Some(id);
      nombreEntrevistador := nombre;
      pantalla := Dashboard;
    }

    /** `handleInicio`. */
    method HandleInicio(postId: int)
      modifies this
      ensures pantalla == Formulario && postulanteId == Some(postId)
      ensures entrevistadorId == old(entrevistadorId) && nombreEntrevistador == old(nombreEntrevistador)
      ensures analysis == old(analysis) && answers == old(answers)
    {
      postulanteId := Some(postId);
      pantalla := Formulario;
    }

    /** `handleFormSubmit`. */
    method HandleFormSubmit(result: string, respuestasUsuario: seq<string>)
      modifies this
      ensures pantalla == Resultado && analysis == result && answers == respuestasUsuario
      ensures entrevistadorId == old(entrevistadorId) && nombreEntrevistador == old(nombreEntrevistador)
      ensures postulanteId == old(postulanteId)
    {
      analysis := result;
      answers := respuestasUsuario;
      pantalla := Resultado;
    }

    /** `handleBack`: the candidate is dropped, the interviewer stays. */
    method HandleBack()
      modifies this
      ensures pantalla == Dashboard && analysis == "" && answers == [] && postulanteId.None?
      ensures entrevistadorId == old(entrevistadorId) && nombreEntrevistador == old(nombreEntrevistador)
    {
      analysis := "";
      answers := [];
      postulanteId := None;
      pantalla := Dashboard;
    }

    /** `cerrarSesion`: the session and the candidate go; the last analysis and answers stay. */
    method CerrarSesion()
      modifies this
      ensures pantalla == Login && entrevistadorId.None? && nombreEntrevistador == "" && postulanteId.None?
      ensures analysis == old(analysis) && answers == old(answers)
      ensures !MuestraSesion()
    {
      entrevistadorId := None;
      nombreEntrevistador := "";
      postulanteId := None;
      pantalla := Login;
    }

    /** The buttons that only change the screen: "Ver historial", "Volver" of the history and
        of registration, and the link to registration. */
    method IrA(destino: Pantalla)
      modifies this
      ensures pantalla == destino
      ensures entrevistadorId == old(entrevistadorId) && nombreEntrevistador == old(nombreEntrevistador)
      ensures postulanteId == old(postulanteId) && analysis == old(analysis) && answers == old(answers)
    {
      pantalla := destino;
    }
  }

  /** Every screen has its own component: no two screens render the same thing, so exactly
      one component is on the page at a time. */
  lemma ComponentePorPantalla(p: Pantalla, q: Pantalla)
    ensures ComponenteDe(p) == ComponenteDe(q) <==> p == q
  {
  }
}
