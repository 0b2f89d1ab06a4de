/** The interviewer's dashboard: the template search, and the confirmation dialog through
    which a template is deleted. */
module DashboardPage {
  import opened Js

  datatype Plantilla = Plantilla(id: int, nombre: string, descripcion: string)

  /** `a` is `b` with some elements left out, the rest in their order. */
  ghost predicate Subsecuencia<T>(a: seq<T>, b: seq<T>)
    decreases |b|
  {
    if a == [] then true
    else if b == [] then false
    else (a[|a| - 1] == b[|b| - 1] && Subsecuencia(a[..|a| - 1], b[..|b| - 1]))
         || Subsecuencia(a, b[..|b| - 1])
  }

  // ---------------------------------------------------------------------------
  // Search
  // ---------------------------------------------------------------------------

  /** The template's name or description contains the term, both lower-cased. */
  predicate Coincide(p: Plantilla, term: string) {
    Contains(ToLower(p.nombre), ToLower(term)) || Contains(ToLower(p.descripcion), ToLower(term))
  }

  function Coincidentes(ps: seq<Plantilla>, term: string): seq<Plantilla>
  {
    if ps == [] then []
    else
      var init := Coincidentes(ps[..|ps| - 1], term);
      if Coincide(ps[|ps| - 1], term) then init + [ps[|ps| - 1]] else init
  }

  /** `plantillasFiltradas`: an empty term shows every template. */
  function Filtradas(ps: seq<Plantilla>, searchTerm: string): seq<Plantilla>
  {
    if searchTerm == "" then ps else Coincidentes(ps, searchTerm)
  }

  /** The matching templates are exactly those that contain the term, kept in their order. */
  lemma {:induction false} CoincidentesSpec(ps: seq<Plantilla>, term: string)
    ensures forall p :: p in Coincidentes(ps, term) <==> p in ps && Coincide(p, term)
    ensures Subsecuencia(Coincidentes(ps, term), ps)
  {
    if ps != [] {
      var init := ps[..|ps| - 1];
      CoincidentesSpec(init, term);
      assert ps == init + [ps[|ps| - 1]];
    }
  }

  /** Filtering what is already filtered changes nothing. */
  lemma {:induction false} CoincidentesIdempotent(ps: seq<Plantilla>, term: string)
    ensures Coincidentes(Coincidentes(ps, term), term) == Coincidentes(ps, term)
  {
    if ps != [] {
      var init := ps[..|ps| - 1];
      CoincidentesIdempotent(init, term);
      var r := Coincidentes(init, term);
      if Coincide(ps[|ps| - 1], term) {
        assert (r + [ps[|ps| - 1]])[..|r|] == r;
      }
    }
  }

  lemma FiltradasSpec(ps: seq<Plantilla>, searchTerm: string)
    ensures searchTerm == "" ==> Filtradas(ps, searchTerm) == ps
    ensures searchTerm != "" ==>
      forall p :: p in Filtradas(ps, searchTerm) <==> p in ps && Coincide(p, searchTerm)
    ensures Subsecuencia(Filtradas(ps, searchTerm), ps)
    ensures Filtradas(Filtradas(ps, searchTerm), searchTerm) == Filtradas(ps, searchTerm)
  {
    CoincidentesSpec(ps, searchTerm);
    CoincidentesIdempotent(ps, searchTerm);
    if searchTerm == "" {
      SubsecuenciaRefl(ps);
    }
  }

  lemma {:induction false} SubsecuenciaRefl<T>(s: seq<T>)
    ensures Subsecuencia(s, s)
  {
    if s != [] {
      SubsecuenciaRefl(s[..|s| - 1]);
    }
  }

  // ---------------------------------------------------------------------------
  // Deletion
  // ---------------------------------------------------------------------------

  /** `prev.filter(p => p?.id !== plantillaId)`. */
  function SinId(ps: seq<Plantilla>, id: int): seq<Plantilla>
  {
    if ps == [] then []
    else
      var init := SinId(ps[..|ps| - 1], id);
      if ps[|ps| - 1].id != id then init + [ps[|ps| - 1]] else init
  }

  /** Exactly the templates with that id go; the others stay, in their order. */
  lemma {:induction false} SinIdSpec(ps: seq<Plantilla>, id: int)
    ensures forall p :: p in SinId(ps, id) <==> p in ps && p.id != id
    ensures Subsecuencia(SinId(ps, id), ps)
  {
    if ps != [] {
      var init := ps[..|ps| - 1];
      SinIdSpec(init, id);
      assert ps == init + [ps[|ps| - 1]];
    }
  }

  /** Deleting an id no template has leaves the list as it is. */
  lemma {:induction false} SinIdAusente(ps: seq<Plantilla>, id: int)
    requires forall k :: 0 <= k < |ps| ==> ps[k].id != id
    ensures SinId(ps, id) == ps
  {
    if ps != [] {
      var init := ps[..|ps| - 1];
      SinIdAusente(init, id);
      assert ps == init + [ps[|ps| - 1]];
    }
  }

  /** `plantillas.find(p => p?.id === plantillaId)`. */
  function Buscar(ps: seq<Plantilla>, id: int): (r: Option<Plantilla>)
    ensures r.Some? ==> r.value in ps && r.value.id == id
    ensures r.None? <==> forall k :: 0 <= k < |ps| ==> ps[k].id != id
  {
    if ps == [] then None
    else if ps[0].id == id then Some(ps[0])
    else
      var r := Buscar(ps[1..], id);
      assert forall k :: 1 <= k < |ps| ==> ps[k] == ps[1..][k - 1];
      r
  }

  /** The found template is the first one with that id. */
  lemma {:induction false} BuscarPrimero(ps: seq<Plantilla>, id: int, i: nat)
    requires i < |ps| && ps[i].id == id && forall k :: 0 <= k < i ==> ps[k].id != id
    ensures Buscar(ps, id) == Some(ps[i])
  {
    if i > 0 {
      BuscarPrimero(ps[1..], id, i - 1);
    }
  }

  // ---------------------------------------------------------------------------
  // The confirmation dialog
  // ---------------------------------------------------------------------------

  datatype Dialogo = Dialogo(open: bool, plantillaId: Option<int>, plantillaNombre: string)

  const Cerrado: Dialogo := Dialogo(false, None, "")
  const NombrePorDefecto: string := "esta plantilla"

  /** A numeric id is falsy when missing or 0. */
  predicate IdPresente(id: Option<int>) {
    id.Some? && id.value != 0
  }

  /** `handleEliminar`: the dialog opens on that id, named after the first template with it. */
  function HandleEliminar(ps: seq<Plantilla>, plantillaId: int): (d: Dialogo)
    ensures d.open && d.plantillaId == Some(plantillaId)
    ensures (exists k :: 0 <= k < |ps| && ps[k].id == plantillaId) ==>
      d.plantillaNombre == Buscar(ps, plantillaId).value.nombre
    ensures (forall k :: 0 <= k < |ps| ==> ps[k].id != plantillaId) ==> d.plantillaNombre == NombrePorDefecto
  {
    var p := Buscar(ps, plantillaId);
    Dialogo(true, Some(plantillaId), if p.Some? then p.value.nombre else NombrePorDefecto)
  }

  /** `handleConfirmEliminar`; `exito` is whether the DELETE succeeded. Without an id nothing
      happens; a failure leaves the list and the dialog as they were. */
  function HandleConfirmEliminar(ps: seq<Plantilla>, d: Dialogo, exito: bool): (r: (seq<Plantilla>, Dialogo))
    ensures !IdPresente(d.plantillaId) || !exito ==> r == (ps, d)
    ensures IdPresente(d.plantillaId) && exito ==> r == (SinId(ps, d.plantillaId.value), Cerrado)
  {
    if !IdPresente(d.plantillaId) then (ps, d)
    else if exito then (SinId(ps, d.plantillaId.value), Cerrado)
    else (ps, d)
  }

  /** `handleCancelEliminar`. */
  function HandleCancelEliminar(d: Dialogo): (r: Dialogo)
    ensures r == Cerrado && !r.open
  {
    Cerrado
  }

  /** Opening the dialog on a template and confirming removes every template with its id and
      nothing else, and closes the dialog. */
  lemma EliminarTrasConfirmar(ps: seq<Plantilla>, plantillaId: int)
    requires plantillaId != 0
    ensures var r := HandleConfirmEliminar(ps, HandleEliminar(ps, plantillaId), true);
      r.1 == Cerrado &&
      (forall p :: p in r.0 <==> p in ps && p.id != plantillaId) &&
      Subsecuencia(r.0, ps)
  {
    SinIdSpec(ps, plantillaId);
  }
}
