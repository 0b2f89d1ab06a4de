/** The candidate's test page: the answer map keyed by question id, the answered count and
    progress derived from it, and the gating of the submit button. */
module EntrevistaPage {
  import opened Js

  /** The set of distinct ids in a list of questions. */
  function Ids(preguntas: seq<int>): set<int> {
    set k | k in preguntas
  }

  /** A list holds at least as many entries as it has distinct values. */
  lemma {:induction false} IdsCard(preguntas: seq<int>)
    ensures |Ids(preguntas)| <= |preguntas|
  {
    if preguntas != [] {
      var init := preguntas[..|preguntas| - 1];
      IdsCard(init);
      assert Ids(preguntas) == Ids(init) + {preguntas[|preguntas| - 1]};
    }
  }

  lemma SubsetCard(a: set<int>, b: set<int>)
    requires a <= b
    ensures |a| <= |b|
    ensures |a| == |b| ==> a == b
  {
    assert b == a + (b - a);
    assert a * (b - a) == {};
    assert |b| == |a| + |b - a|;
  }

  /** Without repeated ids, a list has exactly as many distinct ids as entries. */
  lemma {:induction false} IdsCardNoDup(preguntas: seq<int>)
    requires NoDup(preguntas)
    ensures |Ids(preguntas)| == |preguntas|
  {
    if preguntas != [] {
      var init := preguntas[..|preguntas| - 1];
      var last := preguntas[|preguntas| - 1];
      assert NoDup(init) by {
        forall i, j | 0 <= i < j < |init|
          ensures init[i] != init[j]
        {
          assert init[i] == preguntas[i] && init[j] == preguntas[j];
        }
      }
      IdsCardNoDup(init);
      assert last !in Ids(init) by {
        forall i | 0 <= i < |init|
          ensures init[i] != last
        {
          assert init[i] == preguntas[i];
        }
      }
      assert Ids(preguntas) == Ids(init) + {last};
    }
  }

  /** The respuestasIniciales loop: every question id is written once with `null`. */
  method RespuestasIniciales(preguntas: seq<int>) returns (m: map<int, Option<int>>)
    ensures m.Keys == Ids(preguntas)
    ensures forall k :: k in m ==> m[k].None?
  {
    m := map[];
    for i := 0 to |preguntas|
      invariant m.Keys == Ids(preguntas[..i])
      invariant forall k :: k in m ==> m[k].None?
    {
      assert Ids(preguntas[..i + 1]) == Ids(preguntas[..i]) + {preguntas[i]} by {
        assert preguntas[..i + 1] == preguntas[..i] + [preguntas[i]];
      }
      m := m[preguntas[i] := None];
    }
    assert preguntas[..|preguntas|] == preguntas;
  }

  /** `Object.values(respuestas).filter(r => r !== null).length`. */
  function Contestadas(respuestas: map<int, Option<int>>): (n: nat)
    ensures n <= |respuestas.Keys|
  {
    var answered := set k | k in respuestas && respuestas[k].Some?;
    SubsetCard(answered, respuestas.Keys);
    |answered|
  }

  /** No question is answered in a freshly initialised map. */
  lemma ContestadasIniciales(m: map<int, Option<int>>)
    requires forall k :: k in m ==> m[k].None?
    ensures Contestadas(m) == 0
  {
    var answered := set k | k in m && m[k].Some?;
    assert forall k :: k !in answered;
    assert answered == {};
  }

  /** `totalPreguntas > 0 ? (preguntasRespondidas / totalPreguntas) * 100 : 0`. */
  function Progreso(contestadas: nat, total: nat): (p: real)
    ensures total == 0 ==> p == 0.0
    ensures contestadas <= total ==> 0.0 <= p <= 100.0
    ensures total > 0 && contestadas == total ==> p == 100.0
  {
    if total > 0 then (contestadas as real / total as real) * 100.0 else 0.0
  }

  const ErrorCarga: string := "No se pudo cargar el test."
  const ErrorEnvio: string := "No se pudieron enviar las respuestas."

  /** The outcome of `GET /entrevistas/:enlace`: the ids of its questions, or a failure with
      the server's optional message. */
  datatype Carga = Cargada(preguntas: seq<int>) | Fallida(mensaje: Option<string>)

  class Pagina {
    /** The question ids of the loaded interview, `None` before it loads. */
    var entrevista: Option<seq<int>>
    var loading: bool
    var error: string
    var respuestas: map<int, Option<int>>
    var enviado: bool
    var enviando: bool

    /** Answers are only ever kept for questions of the loaded interview. */
    predicate Valid()
      reads this
    {
      if entrevista.Some? then respuestas.Keys <= Ids(entrevista.value) else respuestas == map[]
    }

    constructor ()
      ensures entrevista.None? && loading && error == "" && respuestas == map[]
      ensures !enviado && !enviando
      ensures Valid()
    {
      entrevista := None;
      loading := true;
      error := "";
      respuestas := map[];
      enviado := false;
      enviando := false;
    }

    /** `entrevista?.preguntas?.length || 0`. */
    function TotalPreguntas(): nat
      reads this
    {
      if entrevista.Some? then |entrevista.value| else 0
    }

    function PreguntasRespondidas(): nat
      reads this
    {
      Contestadas(respuestas)
    }

    /** The answered count never exceeds the number of questions, so progress stays within
        0..100. */
    lemma RespondidasAtMostTotal()
      requires Valid()
      ensures PreguntasRespondidas() <= TotalPreguntas()
      ensures 0.0 <= Progreso(PreguntasRespondidas(), TotalPreguntas()) <= 100.0
    {
      if entrevista.Some? {
        SubsetCard(respuestas.Keys, Ids(entrevista.value));
        IdsCard(entrevista.value);
      }
    }

    /** `disabled={enviando || preguntasRespondidas < totalPreguntas}`, negated. */
    predicate PuedeEnviar()
      reads this
    {
      !enviando && PreguntasRespondidas() >= TotalPreguntas()
    }

    /** Every question in the list has a chosen option. */
    predicate TodasContestadas(preguntas: seq<int>)
      reads this
    {
      forall id :: id in preguntas ==> id in respuestas && respuestas[id].Some?
    }

    /** The submit button is enabled only when nothing is being sent and every question of
        the interview has a chosen option; when the question ids are distinct, that is also
        enough to enable it. */
    lemma PuedeEnviarIff()
      requires Valid()
      ensures PuedeEnviar() ==> !enviando
      ensures PuedeEnviar() && entrevista.Some? ==> TodasContestadas(entrevista.value)
      ensures !enviando && entrevista.Some? && NoDup(entrevista.value) && TodasContestadas(entrevista.value) ==>
        PuedeEnviar()
    {
      if entrevista.Some? {
        var ids := Ids(entrevista.value);
        var answered := set k | k in respuestas && respuestas[k].Some?;
        IdsCard(entrevista.value);
        SubsetCard(answered, respuestas.Keys);
        SubsetCard(respuestas.Keys, ids);
        SubsetCard(answered, ids);
        if PuedeEnviar() {
          assert |answered| >= |entrevista.value| >= |ids|;
          forall id | id in entrevista.value
            ensures id in respuestas && respuestas[id].Some?
          {
            assert id in ids;
          }
        }
        if NoDup(entrevista.value) && TodasContestadas(entrevista.value) {
          IdsCardNoDup(entrevista.value);
          forall id | id in ids
            ensures id in answered
          {
            assert id in entrevista.value;
          }
          SubsetCard(ids, answered);
        }
      }
    }

    /** The "answer every question" hint. */
    predicate MostrarAviso()
      reads this
    {
      PreguntasRespondidas() < TotalPreguntas()
    }

    /** The effect: nothing happens without a link; otherwise the interview is loaded and
        every one of its question ids maps to `null`, or the error is shown. */
    method CargarEntrevista(enlaceUnico: Option<string>, carga: Carga)
      requires Valid()
      modifies this
      ensures Valid()
      ensures !Truthy(enlaceUnico) ==>
        loading == old(loading) && entrevista == old(entrevista) && respuestas == old(respuestas) && error == old(error)
      ensures Truthy(enlaceUnico) ==> !loading
      ensures Truthy(enlaceUnico) && carga.Cargada? ==>
        entrevista == Some(carga.preguntas) && respuestas.Keys == Ids(carga.preguntas) &&
        PreguntasRespondidas() == 0 && error == old(error)
      ensures Truthy(enlaceUnico) && carga.Fallida? ==>
        error == OrDefault(carga.mensaje, ErrorCarga) && entrevista == old(entrevista) && respuestas == old(respuestas)
      ensures enviado == old(enviado) && enviando == old(enviando)
    {
      if Truthy(enlaceUnico) {
        if carga.Cargada? {
          entrevista := Some(carga.preguntas);
          var m := RespuestasIniciales(carga.preguntas);
          ContestadasIniciales(m);
          respuestas := m;
        } else {
          error := OrDefault(carga.mensaje, ErrorCarga);
        }
        loading := false;
      }
    }

    /** `handleRespuestaChange`: sets only `preguntaId`. */
    method HandleRespuestaChange(preguntaId: int, opcionId: int)
      requires Valid() && entrevista.Some? && preguntaId in entrevista.value
      modifies this
      ensures respuestas == old(respuestas)[preguntaId := Some(opcionId)]
      ensures forall k :: k in old(respuestas) && k != preguntaId ==> k in respuestas && respuestas[k] == old(respuestas)[k]
      ensures Valid()
      ensures entrevista == old(entrevista) && loading == old(loading) && error == old(error)
      ensures enviado == old(enviado) && enviando == old(enviando)
    {
      respuestas := respuestas[preguntaId := Some(opcionId)];
    }

    /** `handleSubmit`, with `exito` whether the POST succeeded. */
    method HandleSubmit(exito: bool, mensaje: Option<string>)
      modifies this
      ensures !enviando
      ensures enviado == (old(enviado) || exito)
      ensures error == if exito then old(error) else OrDefault(mensaje, ErrorEnvio)
      ensures entrevista == old(entrevista) && respuestas == old(respuestas) && loading == old(loading)
    {
      enviando := true;
      if exito {
        enviado := true;
      } else {
        error := OrDefault(mensaje, ErrorEnvio);
      }
      enviando := false;
    }
  }
}
