/** Anomaly statistics of an interview: the severity-weighted risk level and the per-severity
    and per-category tallies built from the detected anomalies. */
module DeteccionAnomalias {
  import opened Js

  /** One detected anomaly, reduced to the two fields the statistics read. */
  datatype Anomalia = Anomalia(severidad: Option<string>, categoria: Option<string>)

  // ---------------------------------------------------------------------------
  // Risk level
  // ---------------------------------------------------------------------------

  /** `puntajes[anomalia.severidad] || 1`. */
  function Peso(severidad: Option<string>): (w: nat)
    ensures 1 <= w <= 3
    ensures w == 3 <==> severidad == Some("Alta")
    ensures w == 2 <==> severidad == Some("Media")
  {
    if severidad == Some("Alta") then 3
    else if severidad == Some("Media") then 2
    else 1
  }

  function SumaPesos(xs: seq<Anomalia>): nat
  {
    if xs == [] then 0 else SumaPesos(xs[..|xs| - 1]) + Peso(xs[|xs| - 1].severidad)
  }

  /** Every weight lies in 1..3, so the sum lies between the count and three times it. */
  lemma {:induction false} SumaPesosBounds(xs: seq<Anomalia>)
    ensures |xs| <= SumaPesos(xs) <= 3 * |xs|
  {
    if xs != [] {
      SumaPesosBounds(xs[..|xs| - 1]);
    }
  }

  lemma {:induction false} SumaPesosAppend(xs: seq<Anomalia>, ys: seq<Anomalia>)
    ensures SumaPesos(xs + ys) == SumaPesos(xs) + SumaPesos(ys)
    decreases |ys|
  {
    if ys != [] {
      var zs := ys[..|ys| - 1];
      assert (xs + ys)[..|xs + ys| - 1] == xs + zs;
      SumaPesosAppend(xs, zs);
    } else {
      assert xs + ys == xs;
    }
  }

  datatype NivelRiesgo = Bajo | Medio | Alto
  {
    function Rango(): nat {
      match this
      case Bajo => 0
      case Medio => 1
      case Alto => 2
    }

    function Texto(): string {
      match this
      case Bajo => "Bajo"
      case Medio => "Medio"
      case Alto => "Alto"
    }
  }

  function Nivel(puntajeTotal: int): (n: NivelRiesgo)
    ensures n == Alto <==> puntajeTotal >= 10
    ensures n == Medio <==> 5 <= puntajeTotal < 10
    ensures n == Bajo <==> puntajeTotal < 5
  {
    if puntajeTotal >= 10 then Alto
    else if puntajeTotal >= 5 then Medio
    else Bajo
  }

  /** `calcularNivelRiesgo`. Ten anomalies of any severity already make the risk high, and a
      low risk means fewer than five anomalies. */
  function CalcularNivelRiesgo(xs: seq<Anomalia>): (n: NivelRiesgo)
    ensures xs == [] ==> n == Bajo
    ensures |xs| >= 10 ==> n == Alto
    ensures n == Bajo ==> |xs| < 5
    ensures n == Alto ==> |xs| >= 4
  {
    SumaPesosBounds(xs);
    Nivel(SumaPesos(xs))
  }

  /** More anomalies never lower the risk level, since every weight is positive. */
  lemma NivelMonotone(xs: seq<Anomalia>, ys: seq<Anomalia>)
    ensures CalcularNivelRiesgo(xs).Rango() <= CalcularNivelRiesgo(xs + ys).Rango()
  {
    SumaPesosAppend(xs, ys);
  }

  // ---------------------------------------------------------------------------
  // Tallies: `acc[k] = (acc[k] || 0) + 1`
  // ---------------------------------------------------------------------------

  type Tabla = seq<(string, nat)>

  function SumaConteos(m: Tabla): nat
  {
    if m == [] then 0 else m[0].1 + SumaConteos(m[1..])
  }

  function Claves(m: Tabla): set<string>
  {
    set i | 0 <= i < |m| :: m[i].0
  }

  lemma ClavesCons(h: (string, nat), t: Tabla)
    ensures Claves([h] + t) == {h.0} + Claves(t)
  {
    var r := [h] + t;
    forall x | x in Claves(r) ensures x in {h.0} + Claves(t) {
      var i :| 0 <= i < |r| && r[i].0 == x;
      if i > 0 {
        assert t[i - 1] == r[i];
      }
    }
    forall x | x in Claves(t) ensures x in Claves(r) {
      var i :| 0 <= i < |t| && t[i].0 == x;
      assert r[i + 1] == t[i];
    }
    assert r[0] == h;
  }

  /** One accumulator step: bump an existing key in place, or add the key with count 1 at
      the end (the insertion order `Object.entries` reports). */
  function Sumar(acc: Tabla, k: string): Tabla
  {
    if acc == [] then [(k, 1)]
    else if acc[0].0 == k then [(k, acc[0].1 + 1)] + acc[1..]
    else [acc[0]] + Sumar(acc[1..], k)
  }

  /** A step adds one to the total count and `k` to the keys, and nothing else. */
  lemma {:induction false} SumarSpec(acc: Tabla, k: string)
    ensures SumaConteos(Sumar(acc, k)) == SumaConteos(acc) + 1
    ensures Claves(Sumar(acc, k)) == Claves(acc) + {k}
  {
    if acc != [] {
      var r := Sumar(acc, k);
      assert acc == [acc[0]] + acc[1..];
      ClavesCons(acc[0], acc[1..]);
      if acc[0].0 == k {
        assert r[1..] == acc[1..];
        ClavesCons(r[0], acc[1..]);
      } else {
        var t := Sumar(acc[1..], k);
        SumarSpec(acc[1..], k);
        assert r == [acc[0]] + t;
        assert r[1..] == t;
        ClavesCons(acc[0], t);
      }
    }
  }

  /** The bumped key reads one more than before (1 when new); every other key is unchanged. */
  lemma {:induction false} SumarLookup(acc: Tabla, k: string, j: string)
    ensures Lookup(Sumar(acc, k), j) ==
      if j == k then Some(match Lookup(acc, k) case None => 1 case Some(c) => c + 1)
      else Lookup(acc, j)
  {
    if acc != [] {
      var r := Sumar(acc, k);
      if acc[0].0 != k {
        SumarLookup(acc[1..], k, j);
        assert r[1..] == Sumar(acc[1..], k);
      } else {
        assert r[1..] == acc[1..];
      }
    }
  }

  lemma {:induction false} SumarDistinct(acc: Tabla, k: string)
    requires DistinctKeys(acc)
    ensures DistinctKeys(Sumar(acc, k))
  {
    if acc != [] && acc[0].0 != k {
      var t := Sumar(acc[1..], k);
      SumarDistinct(acc[1..], k);
      SumarSpec(acc[1..], k);
      forall i | 0 <= i < |t| ensures t[i].0 != acc[0].0 {
        assert t[i].0 in Claves(t);
        if t[i].0 != k {
          var j :| 0 <= j < |acc[1..]| && acc[1..][j].0 == t[i].0;
          assert acc[1..][j] == acc[j + 1];
        }
      }
      assert Sumar(acc, k) == [acc[0]] + t;
    } else if acc != [] {
      var r := Sumar(acc, k);
      assert forall i :: 0 <= i < |r| ==> r[i].0 == acc[i].0;
    }
  }

  /** The `reduce` that counts every key of `keys`. */
  function Tally(keys: seq<string>): Tabla
  {
    if keys == [] then [] else Sumar(Tally(keys[..|keys| - 1]), keys[|keys| - 1])
  }

  /** Each key is stored once, with the number of times it occurs. */
  lemma {:induction false} TallyLookup(keys: seq<string>, k: string)
    ensures Lookup(Tally(keys), k) == if k in keys then Some(multiset(keys)[k]) else None
  {
    if keys != [] {
      var init := keys[..|keys| - 1];
      var last := keys[|keys| - 1];
      assert keys == init + [last];
      assert multiset(keys)[k] == multiset(init)[k] + (if last == k then 1 else 0);
      assert k in keys <==> k in init || k == last;
      TallyLookup(init, k);
      SumarLookup(Tally(init), last, k);
    }
  }

  lemma {:induction false} TallyShape(keys: seq<string>)
    ensures DistinctKeys(Tally(keys))
    ensures SumaConteos(Tally(keys)) == |keys|
  {
    if keys != [] {
      TallyShape(keys[..|keys| - 1]);
      SumarDistinct(Tally(keys[..|keys| - 1]), keys[|keys| - 1]);
      SumarSpec(Tally(keys[..|keys| - 1]), keys[|keys| - 1]);
    }
  }

  /** The imperative accumulator loop behind each `reduce`. */
  method Contar(keys: seq<string>) returns (acc: Tabla)
    ensures acc == Tally(keys)
  {
    acc := [];
    for k := 0 to |keys|
      invariant acc == Tally(keys[..k])
    {
      assert keys[..k + 1][..k] == keys[..k];
      acc := Sumar(acc, keys[k]);
    }
    assert keys[..|keys|] == keys;
  }

  // ---------------------------------------------------------------------------
  // Statistics
  // ---------------------------------------------------------------------------

  function Severidad(a: Anomalia): string { OrDefault(a.severidad, "Baja") }
  function Categoria(a: Anomalia): string { OrDefault(a.categoria, "General") }

  function Severidades(xs: seq<Anomalia>): (ks: seq<string>)
    ensures |ks| == |xs| && forall i :: 0 <= i < |xs| ==> ks[i] == Severidad(xs[i])
  {
    seq(|xs|, i requires 0 <= i < |xs| => Severidad(xs[i]))
  }

  function Categorias(xs: seq<Anomalia>): (ks: seq<string>)
    ensures |ks| == |xs| && forall i :: 0 <= i < |xs| ==> ks[i] == Categoria(xs[i])
  {
    seq(|xs|, i requires 0 <= i < |xs| => Categoria(xs[i]))
  }

  /** The `anomalias` field of the response: falsy (missing, null, ...), a truthy value that is
      not an array, or an array. */
  datatype Campo = Falsy | NoLista | Lista(items: seq<Anomalia>)

  datatype Estadisticas = Estadisticas(
    totalAnomalias: nat,
    severidades: Tabla,
    categorias: Tabla,
    nivelRiesgo: NivelRiesgo)

  function Items(campo: Campo): seq<Anomalia> {
    if campo.Lista? then campo.items else []
  }

  /** What `calcularEstadisticasAnomalias` stores; `None` when it returns early. */
  function EstadisticasDe(data: Option<Campo>): Option<Estadisticas>
  {
    if data.None? || data.value.Falsy? then None
    else
      var xs := Items(data.value);
      Some(Estadisticas(|xs|, Tally(Severidades(xs)), Tally(Categorias(xs)), CalcularNivelRiesgo(xs)))
  }

  /** `calcularEstadisticasAnomalias`, with the two accumulator loops. */
  method CalcularEstadisticasAnomalias(data: Option<Campo>) returns (r: Option<Estadisticas>)
    ensures r == EstadisticasDe(data)
  {
    if data.None? || data.value.Falsy? {
      return None;
    }
    var xs := if data.value.Lista? then data.value.items else [];
    var sev := Contar(Severidades(xs));
    var cat := Contar(Categorias(xs));
    r := Some(Estadisticas(|xs|, sev, cat, CalcularNivelRiesgo(xs)));
  }

  /** No statistics without a truthy `anomalias` field; a non-array counts as no anomalies. */
  lemma EstadisticasCases(data: Option<Campo>)
    ensures EstadisticasDe(data).None? <==> data.None? || data.value.Falsy?
    ensures data == Some(NoLista) ==>
      EstadisticasDe(data) == Some(Estadisticas(0, [], [], Bajo))
  {
    if data == Some(NoLista) {
      assert Severidades([]) == [] && Categorias([]) == [];
    }
  }

  /** Both tallies account for every anomaly exactly once, each key once. */
  lemma EstadisticasTotals(data: Option<Campo>)
    requires EstadisticasDe(data).Some?
    ensures var e := EstadisticasDe(data).value;
      SumaConteos(e.severidades) == e.totalAnomalias &&
      SumaConteos(e.categorias) == e.totalAnomalias &&
      DistinctKeys(e.severidades) && DistinctKeys(e.categorias)
  {
    var xs := Items(data.value);
    TallyShape(Severidades(xs));
    TallyShape(Categorias(xs));
  }

  /** Number of anomalies that count under severity `s`. */
  function ContarSeveridad(xs: seq<Anomalia>, s: string): nat
  {
    if xs == [] then 0
    else ContarSeveridad(xs[..|xs| - 1], s) + (if Severidad(xs[|xs| - 1]) == s then 1 else 0)
  }

  lemma {:induction false} ContarSeveridadMultiset(xs: seq<Anomalia>, s: string)
    ensures ContarSeveridad(xs, s) == multiset(Severidades(xs))[s]
  {
    if xs != [] {
      var init := xs[..|xs| - 1];
      ContarSeveridadMultiset(init, s);
      assert Severidades(xs) == Severidades(init) + [Severidad(xs[|xs| - 1])];
    }
  }

  /** The count stored under 'Baja' covers the anomalies marked 'Baja' and those with a
      missing or empty severity. */
  lemma BajaIncludesMissing(xs: seq<Anomalia>, i: nat)
    requires i < |xs| && !Truthy(xs[i].severidad)
    ensures Lookup(Tally(Severidades(xs)), "Baja") == Some(ContarSeveridad(xs, "Baja"))
    ensures ContarSeveridad(xs, "Baja") >= 1
  {
    assert Severidades(xs)[i] == "Baja";
    TallyLookup(Severidades(xs), "Baja");
    ContarSeveridadMultiset(xs, "Baja");
  }
}
