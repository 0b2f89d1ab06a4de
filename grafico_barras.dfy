/** The bar chart of module results: per-module totals and counts accumulated over every
    interview, the averages sorted from best to worst, and the plain label/value branch. */
module GraficoBarras {
  import opened Js

  datatype ResultadoModulo = ResultadoModulo(modulo: string, puntos: real)

  /** One element of `datos`, with the fields either branch reads; `resultados` is `None`
      when it is falsy. */
  datatype Dato = Dato(
    resultados: Option<seq<ResultadoModulo>>,
    labelValue: Option<string>,
    nombre: Option<string>,
    valor: Option<real>,
    puntos: Option<real>)

  /** `{ total, count }` of one module. */
  datatype Stat = Stat(total: real, count: nat)

  /** `modulosStats` as `Object.entries` reports it. */
  type Stats = seq<(string, Stat)>

  /** The results the nested loops visit, in order; interviews without `resultados` add
      nothing. */
  function Visitados(datos: seq<Dato>): seq<ResultadoModulo>
  {
    if datos == [] then []
    else
      var d := datos[|datos| - 1];
      Visitados(datos[..|datos| - 1]) + (if d.resultados.Some? then d.resultados.value else [])
  }

  // ---------------------------------------------------------------------------
  // Accumulation
  // ---------------------------------------------------------------------------

  /** One inner step: create `{ total: 0, count: 0 }` when the module is new (at the end), then
      add the points and one to the count. */
  function Acumular(stats: Stats, r: ResultadoModulo): (s: Stats)
    ensures |s| == |stats| || |s| == |stats| + 1
  {
    if stats == [] then [(r.modulo, Stat(0.0 + r.puntos, 0 + 1))]
    else if stats[0].0 == r.modulo then
      [(r.modulo, Stat(stats[0].1.total + r.puntos, stats[0].1.count + 1))] + stats[1..]
    else [stats[0]] + Acumular(stats[1..], r)
  }

  function StatsOf(rs: seq<ResultadoModulo>): Stats
  {
    if rs == [] then [] else Acumular(StatsOf(rs[..|rs| - 1]), rs[|rs| - 1])
  }

  /** Sum of the points of module `m` among `rs`. */
  function SumaPuntos(rs: seq<ResultadoModulo>, m: string): real
  {
    if rs == [] then 0.0
    else SumaPuntos(rs[..|rs| - 1], m) + (if rs[|rs| - 1].modulo == m then rs[|rs| - 1].puntos else 0.0)
  }

  /** Number of results of module `m` among `rs`. */
  function Cuenta(rs: seq<ResultadoModulo>, m: string): nat
  {
    if rs == [] then 0
    else Cuenta(rs[..|rs| - 1], m) + (if rs[|rs| - 1].modulo == m then 1 else 0)
  }

  lemma {:induction false} AcumularLookup(stats: Stats, r: ResultadoModulo, m: string)
    ensures Lookup(Acumular(stats, r), m) ==
      if m != r.modulo then Lookup(stats, m)
      else match Lookup(stats, m)
        case None => Some(Stat(r.puntos, 1))
        case Some(st) => Some(Stat(st.total + r.puntos, st.count + 1))
  {
    if stats != [] {
      var s := Acumular(stats, r);
      if stats[0].0 != r.modulo {
        AcumularLookup(stats[1..], r, m);
        assert s[1..] == Acumular(stats[1..], r);
      } else {
        assert s[1..] == stats[1..];
      }
    }
  }

  /** Every module that occurs is stored with the sum of its points and its number of
      occurrences; no other key is stored. */
  lemma {:induction false} StatsLookup(rs: seq<ResultadoModulo>, m: string)
    ensures Lookup(StatsOf(rs), m) ==
      if Cuenta(rs, m) == 0 then None else Some(Stat(SumaPuntos(rs, m), Cuenta(rs, m)))
  {
    if rs != [] {
      var init := rs[..|rs| - 1];
      var r := rs[|rs| - 1];
      var before := StatsOf(init);
      StatsLookup(init, m);
      AcumularLookup(before, r, m);
      assert StatsOf(rs) == Acumular(before, r);
      if r.modulo != m {
        assert Cuenta(rs, m) == Cuenta(init, m);
        assert SumaPuntos(rs, m) == SumaPuntos(init, m);
      } else {
        assert Cuenta(rs, m) == Cuenta(init, m) + 1;
        assert SumaPuntos(rs, m) == SumaPuntos(init, m) + r.puntos;
        if Cuenta(init, m) == 0 {
          CuentaZero(init, m);
          assert Lookup(before, m) == None;
        } else {
          assert Lookup(before, m) == Some(Stat(SumaPuntos(init, m), Cuenta(init, m)));
        }
      }
    }
  }

  lemma {:induction false} CuentaZero(rs: seq<ResultadoModulo>, m: string)
    ensures Cuenta(rs, m) == 0 ==> SumaPuntos(rs, m) == 0.0
  {
    if rs != [] {
      CuentaZero(rs[..|rs| - 1], m);
    }
  }

  predicate PositiveCounts(stats: Stats) {
    forall i :: 0 <= i < |stats| ==> stats[i].1.count >= 1
  }

  lemma {:induction false} AcumularShape(stats: Stats, r: ResultadoModulo)
    requires PositiveCounts(stats) && DistinctKeys(stats)
    ensures PositiveCounts(Acumular(stats, r)) && DistinctKeys(Acumular(stats, r))
    ensures forall i :: 0 <= i < |Acumular(stats, r)| ==>
      Acumular(stats, r)[i].0 == r.modulo || exists j :: 0 <= j < |stats| && stats[j].0 == Acumular(stats, r)[i].0
  {
    if stats != [] {
      var s := Acumular(stats, r);
      if stats[0].0 != r.modulo {
        var t := Acumular(stats[1..], r);
        AcumularShape(stats[1..], r);
        assert s == [stats[0]] + t;
        forall i | 0 <= i < |t| ensures t[i].0 != stats[0].0 {
          if t[i].0 != r.modulo {
            var j :| 0 <= j < |stats[1..]| && stats[1..][j].0 == t[i].0;
            assert stats[1..][j] == stats[j + 1];
          }
        }
        forall i | 1 <= i < |s| ensures s[i].0 == r.modulo || exists j :: 0 <= j < |stats| && stats[j].0 == s[i].0 {
          assert s[i] == t[i - 1];
          if s[i].0 != r.modulo {
            var j :| 0 <= j < |stats[1..]| && stats[1..][j].0 == t[i - 1].0;
            assert stats[1..][j] == stats[j + 1];
          }
        }
      } else {
        assert forall i :: 1 <= i < |s| ==> s[i] == stats[i];
      }
    }
  }

  /** Each module is stored once and every stored count is at least 1, so no average divides
      by zero. */
  lemma {:induction false} StatsShape(rs: seq<ResultadoModulo>)
    ensures PositiveCounts(StatsOf(rs)) && DistinctKeys(StatsOf(rs))
  {
    if rs != [] {
      StatsShape(rs[..|rs| - 1]);
      AcumularShape(StatsOf(rs[..|rs| - 1]), rs[|rs| - 1]);
    }
  }

  function SumaConteos(stats: Stats): nat
  {
    if stats == [] then 0 else stats[0].1.count + SumaConteos(stats[1..])
  }

  lemma {:induction false} AcumularSuma(stats: Stats, r: ResultadoModulo)
    ensures SumaConteos(Acumular(stats, r)) == SumaConteos(stats) + 1
  {
    if stats != [] && stats[0].0 != r.modulo {
      AcumularSuma(stats[1..], r);
      assert Acumular(stats, r)[1..] == Acumular(stats[1..], r);
    } else if stats != [] {
      assert Acumular(stats, r)[1..] == stats[1..];
    }
  }

  /** The counts add up to the number of results visited. */
  lemma {:induction false} StatsSuma(rs: seq<ResultadoModulo>)
    ensures SumaConteos(StatsOf(rs)) == |rs|
  {
    if rs != [] {
      StatsSuma(rs[..|rs| - 1]);
      AcumularSuma(StatsOf(rs[..|rs| - 1]), rs[|rs| - 1]);
    }
  }

  /** The nested `forEach` loops over the interviews and their results. */
  method AcumularModulos(datos: seq<Dato>) returns (stats: Stats)
    ensures stats == StatsOf(Visitados(datos))
  {
    stats := [];
    for i := 0 to |datos|
      invariant stats == StatsOf(Visitados(datos[..i]))
    {
      assert datos[..i + 1][..i] == datos[..i];
      ghost var before := Visitados(datos[..i]);
      if datos[i].resultados.Some? {
        var rs := datos[i].resultados.value;
        assert before + rs[..0] == before;
        for j := 0 to |rs|
          invariant stats == StatsOf(before + rs[..j])
        {
          assert (before + rs[..j + 1])[..|before + rs[..j + 1]| - 1] == before + rs[..j];
          stats := Acumular(stats, rs[j]);
        }
        assert rs[..|rs|] == rs;
      } else {
        assert before + [] == before;
      }
    }
    assert datos[..|datos|] == datos;
  }

  // ---------------------------------------------------------------------------
  // Averages and their order
  // ---------------------------------------------------------------------------

  /** `{ modulo, promedio: total / count }` per stored module. */
  function Promedios(stats: Stats): (rows: seq<(string, real)>)
    requires PositiveCounts(stats)
    ensures |rows| == |stats|
    ensures forall i :: 0 <= i < |rows| ==>
      rows[i] == (stats[i].0, stats[i].1.total / stats[i].1.count as real)
  {
    seq(|stats|, i requires 0 <= i < |stats| => (stats[i].0, stats[i].1.total / stats[i].1.count as real))
  }

  function PromedioOf(row: (string, real)): real { row.1 }

  /** The rows in chart order: `.sort((a, b) => b.promedio - a.promedio)`. */
  function Ordenados(datos: seq<Dato>): seq<(string, real)>
  {
    var rs := Visitados(datos);
    StatsShape(rs);
    SortDesc(Promedios(StatsOf(rs)), PromedioOf)
  }

  /** The chart rows are best-first, and each one is a module that occurs, paired with the
      mean of its points. */
  lemma OrdenadosSpec(datos: seq<Dato>)
    ensures SortedDesc(Ordenados(datos), PromedioOf)
    ensures forall i :: 0 <= i < |Ordenados(datos)| ==>
      var m := Ordenados(datos)[i].0;
      Cuenta(Visitados(datos), m) >= 1 &&
      Ordenados(datos)[i].1 == SumaPuntos(Visitados(datos), m) / Cuenta(Visitados(datos), m) as real
  {
    var rs := Visitados(datos);
    var stats := StatsOf(rs);
    StatsShape(rs);
    var rows := Promedios(stats);
    SortDescSpec(rows, PromedioOf);
    var o := Ordenados(datos);
    forall i | 0 <= i < |o|
      ensures Cuenta(rs, o[i].0) >= 1 && o[i].1 == SumaPuntos(rs, o[i].0) / Cuenta(rs, o[i].0) as real
    {
      assert o[i] in multiset(rows);
      var j :| 0 <= j < |rows| && rows[j] == o[i];
      LookupDistinct(stats, j);
      StatsLookup(rs, stats[j].0);
    }
  }

  /** Every module that occurs gets a row. */
  lemma OrdenadosComplete(datos: seq<Dato>, m: string)
    requires Cuenta(Visitados(datos), m) >= 1
    ensures exists i :: 0 <= i < |Ordenados(datos)| && Ordenados(datos)[i].0 == m
  {
    var rs := Visitados(datos);
    var stats := StatsOf(rs);
    StatsShape(rs);
    StatsLookup(rs, m);
    LookupSpec(stats, m);
    var j :| 0 <= j < |stats| && stats[j] == (m, Stat(SumaPuntos(rs, m), Cuenta(rs, m)));
    var rows := Promedios(stats);
    SortDescSpec(rows, PromedioOf);
    assert rows[j] in multiset(Ordenados(datos));
    var i :| 0 <= i < |Ordenados(datos)| && Ordenados(datos)[i] == rows[j];
  }

  // ---------------------------------------------------------------------------
  // The component
  // ---------------------------------------------------------------------------

  datatype Vista = SinDatos | Barras(labels: seq<string>, dataPoints: seq<real>)

  /** `item.valor || item.puntos || 0` (0 is falsy). */
  function ValorOr(v: Option<real>, d: real): real {
    if v.Some? && v.value != 0.0 then v.value else d
  }

  function Etiqueta(d: Dato): string {
    OrDefault(d.labelValue, OrDefault(d.nombre, "Sin nombre"))
  }

  function Valor(d: Dato): real {
    ValorOr(d.valor, ValorOr(d.puntos, 0.0))
  }

  /** The component for `tipo === "modulos"` (`porModulos`) or any other type. */
  function Mostrar(datos: Option<seq<Dato>>, porModulos: bool): (v: Vista)
    ensures v.SinDatos? <==> datos.None? || datos.value == []
    ensures v.Barras? ==> |v.labels| == |v.dataPoints|
    ensures v.Barras? && !porModulos ==>
      |v.labels| == |datos.value| &&
      forall i :: 0 <= i < |v.labels| ==>
        v.labels[i] == Etiqueta(datos.value[i]) && v.dataPoints[i] == Valor(datos.value[i])
    ensures v.Barras? && porModulos ==>
      |v.labels| == |Ordenados(datos.value)| &&
      forall i :: 0 <= i < |v.labels| ==>
        (v.labels[i], v.dataPoints[i]) == Ordenados(datos.value)[i]
  {
    if datos.None? || datos.value == [] then SinDatos
    else if porModulos then
      var o := Ordenados(datos.value);
      Barras(seq(|o|, i requires 0 <= i < |o| => o[i].0), seq(|o|, i requires 0 <= i < |o| => o[i].1))
    else
      var ds := datos.value;
      Barras(seq(|ds|, i requires 0 <= i < |ds| => Etiqueta(ds[i])),
             seq(|ds|, i requires 0 <= i < |ds| => Valor(ds[i])))
  }

  /** The label falls back label, then nombre, then 'Sin nombre'; the value falls back valor,
      then puntos, then 0. */
  lemma FallbackSpec(d: Dato)
    ensures Truthy(d.labelValue) ==> Etiqueta(d) == d.labelValue.value
    ensures !Truthy(d.labelValue) && Truthy(d.nombre) ==> Etiqueta(d) == d.nombre.value
    ensures !Truthy(d.labelValue) && !Truthy(d.nombre) ==> Etiqueta(d) == "Sin nombre"
    ensures d.valor.Some? && d.valor.value != 0.0 ==> Valor(d) == d.valor.value
    ensures (d.valor.None? || d.valor.value == 0.0) && d.puntos.Some? && d.puntos.value != 0.0 ==>
      Valor(d) == d.puntos.value
    ensures (d.valor.None? || d.valor.value == 0.0) && (d.puntos.None? || d.puntos.value == 0.0) ==>
      Valor(d) == 0.0
  {
  }
}
