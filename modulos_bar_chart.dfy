/** The per-module donut chart of one interview: the `puntajes_por_modulo` payload becomes one
    chart row per module, with a display name, a rounded value and a colour; the chart is
    shown only when some rounded value is positive. */
module ModulosBarChart {
  import opened Js

  /** `Math.round`: the nearest integer, halves rounded up. */
  function Redondear(x: real): (r: int)
    ensures x - 0.5 < r as real <= x + 0.5
  {
    (x + 0.5).Floor
  }

  /** Rounding leaves integers alone and never reverses an order. */
  lemma RedondearProps(x: real, y: real, n: int)
    ensures Redondear(n as real) == n
    ensures x <= y ==> Redondear(x) <= Redondear(y)
  {
  }

  /** A rounded value is positive exactly when the score is at least one half. */
  lemma RedondearPositivoIff(x: real)
    ensures Redondear(x) > 0 <==> x >= 0.5
  {
  }

  /** The six keys that get a display name of their own. */
  const Renombrados: set<string> := {"gestion_estres", "resolucion_problemas", "trabajo_equipo",
                                     "comunicacion", "adaptabilidad", "Logica"}

  /** The if-chain that turns a module key into its display name. */
  function NombreModulo(modulo: string): (n: string)
    ensures modulo !in Renombrados ==> n == modulo
    ensures modulo in Renombrados ==> n != modulo
  {
    if modulo == "gestion_estres" then "Gestión Estrés"
    else if modulo == "resolucion_problemas" then "Resolución Problemas"
    else if modulo == "trabajo_equipo" then "Trabajo Equipo"
    else if modulo == "comunicacion" then "Comunicación"
    else if modulo == "adaptabilidad" then "Adaptabilidad"
    else if modulo == "Logica" then "Lógica"
    else modulo
  }

  /** `coloresModulos[modulo]`: the colour stored under each of the nine keys of the object
      literal, and nothing for any other key. */
  function ColorGuardado(modulo: string): (c: Option<string>)
    ensures c.Some? ==> c.value != ""
  {
    if modulo == "adaptabilidad" then Some("#1976D2")
    else if modulo == "comunicacion" then Some("#388E3C")
    else if modulo == "gestion_estres" then Some("#F57C00")
    else if modulo == "resolucion_problemas" then Some("#7B1FA2")
    else if modulo == "trabajo_equipo" then Some("#D32F2F")
    else if modulo == "Personalidad" then Some("#1976D2")
    else if modulo == "Logica" then Some("#388E3C")
    else if modulo == "Competencias" then Some("#F57C00")
    else if modulo == "Integridad" then Some("#7B1FA2")
    else None
  }

  const ColorPorDefecto: string := "#757575"

  /** `coloresModulos[modulo] || '#757575'`, looked up by the raw key (every stored colour is
      a non-empty string, so the fallback applies only to unknown keys). */
  function ColorModulo(modulo: string): (c: string)
    ensures ColorGuardado(modulo).Some? ==> c == ColorGuardado(modulo).value
    ensures ColorGuardado(modulo).None? ==> c == ColorPorDefecto
    ensures c != ""
  {
    var stored := ColorGuardado(modulo);
    if stored.Some? && stored.value != "" then stored.value else ColorPorDefecto
  }

  /** Every renamed key has a colour of its own, so the grey default only ever falls on a
      module shown under its raw key. */
  lemma RenamedKeysHaveColour(modulo: string)
    requires NombreModulo(modulo) != modulo
    ensures ColorModulo(modulo) != ColorPorDefecto
  {
  }

  /** One chart row. */
  datatype Fila = Fila(name: string, value: int, color: string)

  function FilaDe(entrada: (string, real)): Fila {
    Fila(NombreModulo(entrada.0), Redondear(entrada.1), ColorModulo(entrada.0))
  }

  /** `Object.entries(puntajes_por_modulo).map(...)`: one row per entry, in entry order. */
  function Filas(puntajes: seq<(string, real)>): (fs: seq<Fila>)
    ensures |fs| == |puntajes|
    ensures forall i :: 0 <= i < |fs| ==> fs[i] == FilaDe(puntajes[i])
  {
    seq(|puntajes|, i requires 0 <= i < |puntajes| => FilaDe(puntajes[i]))
  }

  /** `datos.some(item => item.value > 0)`. */
  predicate AlgunValorPositivo(fs: seq<Fila>) {
    exists i :: 0 <= i < |fs| && fs[i].value > 0
  }

  /** The outcome of `obtenerPuntajesPorModulo`: a failed request, or a payload whose
      `puntajes_por_modulo` field is missing (`None`) or an object. */
  datatype Respuesta = Fallo | Payload(puntajesPorModulo: Option<seq<(string, real)>>)

  /** The data the effect leaves in state for a request that ran. */
  function Datos(respuesta: Respuesta): (d: Option<seq<Fila>>)
    ensures respuesta.Fallo? ==> d.None?
    ensures respuesta.Payload? && respuesta.puntajesPorModulo.None? ==> d == Some([])
    ensures respuesta.Payload? && respuesta.puntajesPorModulo.Some? ==>
      d == Some(Filas(respuesta.puntajesPorModulo.value))
  {
    match respuesta
    case Fallo => None
    case Payload(p) => if p.Some? then Some(Filas(p.value)) else Some([])
  }

  datatype Vista = Cargando | SinDatos | Dona(filas: seq<Fila>)

  /** What the component renders once its effect has settled. With a falsy `entrevistaId`
      the effect returns before clearing `loading`, so the spinner stays. */
  function Mostrar(entrevistaId: Option<string>, respuesta: Respuesta): (v: Vista)
    ensures !Truthy(entrevistaId) ==> v == Cargando
    ensures v.Dona? <==>
      Truthy(entrevistaId) && respuesta.Payload? && respuesta.puntajesPorModulo.Some? &&
      AlgunValorPositivo(Filas(respuesta.puntajesPorModulo.value))
    ensures v.Dona? ==> v.filas == Filas(respuesta.puntajesPorModulo.value)
  {
    if !Truthy(entrevistaId) then Cargando
    else
      var datos := Datos(respuesta);
      if respuesta.Fallo? || datos.None? || |datos.value| == 0 || !AlgunValorPositivo(datos.value)
      then SinDatos
      else Dona(datos.value)
  }

  /** The chart appears exactly when some module score rounds to a positive value, that is,
      when some score is at least one half. */
  lemma DonaIff(entrevistaId: Option<string>, puntajes: seq<(string, real)>)
    requires Truthy(entrevistaId)
    ensures Mostrar(entrevistaId, Payload(Some(puntajes))).Dona? <==>
      exists i :: 0 <= i < |puntajes| && puntajes[i].1 >= 0.5
  {
    var fs := Filas(puntajes);
    forall i | 0 <= i < |puntajes|
      ensures fs[i].value > 0 <==> puntajes[i].1 >= 0.5
    {
      RedondearPositivoIff(puntajes[i].1);
    }
  }
}
