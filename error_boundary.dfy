/** The error boundary: the state it keeps about a caught render error, the retry that clears
    it, the bounded `app_errors` log, and the choice between the children, a custom fallback
    and the default one. */
module ErrorBoundary {
  import opened Js

  const MaxErrores: nat := 10

  /** The fields of a thrown error the boundary reads. */
  datatype ErrorJs = ErrorJs(message: string, stack: Option<string>)

  /** An entry of the `app_errors` log. Its time, user agent and URL come from the environment
      and are not modelled. */
  datatype Registro = Registro(errorId: string, message: string, stack: Option<string>,
                               componentStack: string)

  /** What `render` returns. The custom fallback receives the captured state; the default one
      shows the error id when there is one and, in development, the error message. */
  datatype Vista =
    | Hijos
    | Personalizado(componente: string, error: Option<ErrorJs>, errorInfo: Option<string>,
                    errorId: Option<string>)
    | PorDefecto(idMostrado: Option<string>, detalle: Option<string>)

  class Boundary {
    var hasError: bool
    var error: Option<ErrorJs>
    /** `errorInfo.componentStack`. */
    var errorInfo: Option<string>
    var errorId: Option<string>
    /** `localStorage.app_errors`. */
    var appErrors: seq<Registro>

    /** The four fields of the initial state. */
    predicate Limpio()
      reads this
    {
      !hasError && error.None? && errorInfo.None? && errorId.None?
    }

    predicate Valid()
      reads this
    {
      |appErrors| <= MaxErrores
    }

    constructor (erroresGuardados: seq<Registro>)
      requires |erroresGuardados| <= MaxErrores
      ensures Limpio() && appErrors == erroresGuardados && Valid()
    {
      hasError := false;
      error := None;
      errorInfo := None;
      errorId := None;
      appErrors := erroresGuardados;
    }

    /** `getDerivedStateFromError`: only `hasError` changes. */
    method GetDerivedStateFromError()
      modifies this
      ensures hasError
      ensures error == old(error) && errorInfo == old(errorInfo) && errorId == old(errorId)
      ensures appErrors == old(appErrors)
    {
      hasError := true;
    }

    /** `logErrorToService`: push the entry, then drop the oldest beyond ten. */
    method LogErrorToService(registro: Registro)
      requires Valid()
      modifies this
      ensures Valid()
      ensures appErrors == KeepLast(old(appErrors) + [registro], MaxErrores)
      ensures appErrors[|appErrors| - 1] == registro
      ensures hasError == old(hasError) && error == old(error)
      ensures errorInfo == old(errorInfo) && errorId == old(errorId)
    {
      var existentes := appErrors + [registro];
      if |existentes| > MaxErrores {
        existentes := existentes[|existentes| - MaxErrores..];
      }
      appErrors := existentes;
      KeepLastAppendNewest(old(appErrors), registro, MaxErrores);
    }

    /** `componentDidCatch`: the error, the component stack and a fresh id are stored, and in
        production the entry is logged. */
    method ComponentDidCatch(e: ErrorJs, componentStack: string, nuevoId: string, produccion: bool)
      requires Valid()
      modifies this
      ensures Valid()
      ensures error == Some(e) && errorInfo == Some(componentStack) && errorId == Some(nuevoId)
      ensures hasError == old(hasError)
      ensures appErrors == if produccion then
          KeepLast(old(appErrors) + [Registro(nuevoId, e.message, e.stack, componentStack)], MaxErrores)
        else old(appErrors)
    {
      error := Some(e);
      errorInfo := Some(componentStack);
      errorId := Some(nuevoId);
      if produccion {
        LogErrorToService(Registro(nuevoId, e.message, e.stack, componentStack));
      }
    }

    /** `handleRetry`: back to exactly the initial state; the log is kept. */
    method HandleRetry()
      modifies this
      ensures Limpio()
      ensures appErrors == old(appErrors)
    {
      hasError := false;
      error := None;
      errorInfo := None;
      errorId := None;
    }

    /** `render`, given the `fallback` prop and whether this is a development build. */
    function Render(fallback: Option<string>, desarrollo: bool): (v: Vista)
      reads this
      ensures v.Hijos? <==> !hasError
      ensures hasError && fallback.Some? ==> v == Personalizado(fallback.value, error, errorInfo, errorId)
      ensures hasError && fallback.None? ==> v.PorDefecto?
      ensures v.PorDefecto? ==> v.idMostrado == (if Truthy(errorId) then errorId else None)
      ensures v.PorDefecto? ==> (v.detalle.Some? <==> desarrollo && error.Some?)
    {
      if !hasError then Hijos
      else if fallback.Some? then Personalizado(fallback.value, error, errorInfo, errorId)
      else
        PorDefecto(if Truthy(errorId) then errorId else None,
                   if desarrollo && error.Some? then Some(error.value.message) else None)
    }

    /** After a retry the children are rendered again, whatever fallback is configured. */
    lemma RetryMuestraHijos(fallback: Option<string>, desarrollo: bool)
      requires Limpio()
      ensures Render(fallback, desarrollo) == Hijos
    {
    }
  }
}
