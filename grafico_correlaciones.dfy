/** The module-correlation chart: modules extracted from `"a_b"` keys, the N×N matrix with a
    unit diagonal, the strength label and the list of the strongest correlations. */
module GraficoCorrelaciones {
  import opened Js

  /** A correlation map as `Object.entries` reports it: keys in insertion order, each once. */
  type Correlaciones = seq<(string, real)>

  /** A module name taken from a key; `Undef` is the `undefined` that destructuring yields when
      a key has no `_`. */
  datatype Mod = Named(name: string) | Undef

  /** The module as a template string renders it. */
  function Render(m: Mod): string {
    if m.Named? then m.name else "undefined"
  }

  /** `\`${m1}_${m2}\``. */
  function Key(m1: Mod, m2: Mod): string {
    Render(m1) + "_" + Render(m2)
  }

  /** The part of `s` before its first `_`, or all of `s`. */
  function UpToUnderscore(s: string): (r: string)
    ensures |r| <= |s| && r == s[..|r|] && '_' !in r
    ensures |r| < |s| ==> s[|r|] == '_'
  {
    if s == [] || s[0] == '_' then [] else [s[0]] + UpToUnderscore(s[1..])
  }

  /** `const [m1, m2] = key.split('_')`: the first two pieces, the second `undefined` when the
      key holds no `_`. */
  function SplitKey(key: string): (Mod, Mod)
  {
    var a := UpToUnderscore(key);
    if |a| == |key| then (Named(key), Undef)
    else (Named(a), Named(UpToUnderscore(key[|a| + 1..])))
  }

  lemma {:induction false} UpToUnderscoreOfJoin(a: string, b: string)
    requires '_' !in a
    ensures UpToUnderscore(a + "_" + b) == a
  {
    if a != [] {
      assert (a + "_" + b)[1..] == a[1..] + "_" + b;
      UpToUnderscoreOfJoin(a[1..], b);
    }
  }

  lemma {:induction false} UpToUnderscoreOfPlain(a: string)
    requires '_' !in a
    ensures UpToUnderscore(a) == a
  {
    if a != [] {
      UpToUnderscoreOfPlain(a[1..]);
    }
  }

  /** Splitting inverts the key format for module names without `_`. */
  lemma SplitKeyOfKey(a: string, b: string)
    requires '_' !in a && '_' !in b
    ensures SplitKey(Key(Named(a), Named(b))) == (Named(a), Named(b))
  {
    var key := a + "_" + b;
    UpToUnderscoreOfJoin(a, b);
    assert key[|a| + 1..] == b;
    UpToUnderscoreOfPlain(b);
  }

  // ---------------------------------------------------------------------------
  // The module set
  // ---------------------------------------------------------------------------

  /** `Set.add`: appends unless already present, keeping insertion order. */
  function Add(s: seq<Mod>, m: Mod): (r: seq<Mod>)
  {
    if m in s then s else s + [m]
  }

  /** The two halves of each key of the map, in order. */
  function Partes(c: Correlaciones): (ps: seq<(Mod, Mod)>)
    ensures |ps| == |c| && forall i :: 0 <= i < |c| ==> ps[i] == SplitKey(c[i].0)
  {
    seq(|c|, i requires 0 <= i < |c| => SplitKey(c[i].0))
  }

  /** Both halves of every key, added key by key. */
  function Modulos(ps: seq<(Mod, Mod)>): seq<Mod>
  {
    if ps == [] then [] else Add(Add(Modulos(ps[..|ps| - 1]), ps[|ps| - 1].0), ps[|ps| - 1].1)
  }

  lemma AddNoDup(s: seq<Mod>, m: Mod)
    requires NoDup(s)
    ensures NoDup(Add(s, m))
  {
  }

  /** `m` is one of the two halves of a key. */
  predicate HalfOf(m: Mod, p: (Mod, Mod)) {
    m == p.0 || m == p.1
  }

  /** The module list holds exactly the halves of the keys. */
  lemma {:induction false} ModulosMember(ps: seq<(Mod, Mod)>, m: Mod)
    ensures m in Modulos(ps) <==> exists i :: 0 <= i < |ps| && HalfOf(m, ps[i])
  {
    if ps != [] {
      var init := ps[..|ps| - 1];
      ModulosMember(init, m);
      assert m in Modulos(ps) <==> m in Modulos(init) || HalfOf(m, ps[|ps| - 1]);
      if m in Modulos(init) {
        var i :| 0 <= i < |init| && HalfOf(m, init[i]);
        assert ps[i] == init[i];
      }
      if exists i :: 0 <= i < |ps| && HalfOf(m, ps[i]) {
        var i :| 0 <= i < |ps| && HalfOf(m, ps[i]);
        if i < |init| {
          assert init[i] == ps[i];
        }
      }
    }
  }

  /** `Array.from(modulosSet)` has no duplicates. */
  lemma {:induction false} ModulosNoDup(ps: seq<(Mod, Mod)>)
    ensures NoDup(Modulos(ps))
  {
    if ps != [] {
      var init := ps[..|ps| - 1];
      ModulosNoDup(init);
      AddNoDup(Modulos(init), ps[|ps| - 1].0);
      AddNoDup(Add(Modulos(init), ps[|ps| - 1].0), ps[|ps| - 1].1);
    }
  }

  /** The `forEach` that splits each key and fills the module set. */
  method ExtraerModulos(c: Correlaciones) returns (modulos: seq<Mod>)
    ensures modulos == Modulos(Partes(c))
  {
    ghost var ps := Partes(c);
    modulos := [];
    for k := 0 to |c|
      invariant modulos == Modulos(ps[..k])
    {
      assert ps[..k + 1][..k] == ps[..k];
      var (m1, m2) := SplitKey(c[k].0);
      modulos := Add(modulos, m1);
      modulos := Add(modulos, m2);
    }
    assert ps[..|c|] == ps;
  }

  // ---------------------------------------------------------------------------
  // The matrix
  // ---------------------------------------------------------------------------

  /** `v || d` for a number read from the map (`undefined` and 0 are falsy). */
  function OrNum(v: Option<real>, d: real): real {
    if v.Some? && v.value != 0.0 then v.value else d
  }

  /** `m1 === m2 ? 1 : c[key1] || c[key2] || 0`. */
  function Celda(c: Correlaciones, m1: Mod, m2: Mod): real
  {
    if m1 == m2 then 1.0
    else OrNum(Lookup(c, Key(m1, m2)), OrNum(Lookup(c, Key(m2, m1)), 0.0))
  }

  function Matriz(c: Correlaciones, modulos: seq<Mod>): (mat: seq<seq<real>>)
    ensures |mat| == |modulos|
    ensures forall i :: 0 <= i < |mat| ==> |mat[i]| == |modulos|
    ensures forall i, j :: 0 <= i < |mat| && 0 <= j < |mat| ==>
      mat[i][j] == Celda(c, modulos[i], modulos[j])
    ensures forall i :: 0 <= i < |mat| ==> mat[i][i] == 1.0
    ensures NoDup(modulos) ==> forall i, j :: 0 <= i < |mat| && 0 <= j < |mat| && i != j ==>
      mat[i][j] == OrNum(Lookup(c, Key(modulos[i], modulos[j])),
                         OrNum(Lookup(c, Key(modulos[j], modulos[i])), 0.0))
  {
    seq(|modulos|, i requires 0 <= i < |modulos| =>
      seq(|modulos|, j requires 0 <= j < |modulos| => Celda(c, modulos[i], modulos[j])))
  }

  /** A stored 0 is falsy, so the reverse key is consulted. */
  lemma ZeroFallsThrough(c: Correlaciones, m1: Mod, m2: Mod)
    requires m1 != m2 && Lookup(c, Key(m1, m2)) == Some(0.0)
    ensures Celda(c, m1, m2) == OrNum(Lookup(c, Key(m2, m1)), 0.0)
  {
  }

  /** The matrix is symmetric at a pair when at most one orientation holds a non-zero value,
      or both hold the same value. */
  lemma CeldaSymmetric(c: Correlaciones, m1: Mod, m2: Mod)
    requires OrNum(Lookup(c, Key(m1, m2)), 0.0) == 0.0
          || OrNum(Lookup(c, Key(m2, m1)), 0.0) == 0.0
          || Lookup(c, Key(m1, m2)) == Lookup(c, Key(m2, m1))
    ensures Celda(c, m1, m2) == Celda(c, m2, m1)
  {
  }

  /** When both orientations are stored with different non-zero values, the lookup order
      makes the matrix asymmetric. */
  lemma AsymmetricWhenBothStored()
    ensures var c := [("a_b", 0.5), ("b_a", 0.7)];
      Celda(c, Named("a"), Named("b")) == 0.5 && Celda(c, Named("b"), Named("a")) == 0.7
  {
    var c := [("a_b", 0.5), ("b_a", 0.7)];
    assert Key(Named("a"), Named("b")) == "a_b";
    assert Key(Named("b"), Named("a")) == "b_a";
    assert "b_a" != "a_b";
  }

  // ---------------------------------------------------------------------------
  // Strength label and the significant list
  // ---------------------------------------------------------------------------

  function Abs(r: real): (a: real)
    ensures a >= 0.0 && (a == r || a == -r)
  {
    if r < 0.0 then -r else r
  }

  datatype Fuerza = MuyFuerte | Fuerte | Moderada | Debil | MuyDebil
  {
    function Texto(): string {
      match this
      case MuyFuerte => "Muy fuerte"
      case Fuerte => "Fuerte"
      case Moderada => "Moderada"
      case Debil => "Débil"
      case MuyDebil => "Muy débil"
    }
  }

  /** `getCorrelationText`: banded by the absolute value. */
  function CorrelationText(r: real): (f: Fuerza)
    ensures f == MuyFuerte <==> Abs(r) >= 0.8
    ensures f == Fuerte <==> 0.6 <= Abs(r) < 0.8
    ensures f == Moderada <==> 0.4 <= Abs(r) < 0.6
    ensures f == Debil <==> 0.2 <= Abs(r) < 0.4
    ensures f == MuyDebil <==> Abs(r) < 0.2
  {
    var a := Abs(r);
    if a >= 0.8 then MuyFuerte
    else if a >= 0.6 then Fuerte
    else if a >= 0.4 then Moderada
    else if a >= 0.2 then Debil
    else MuyDebil
  }

  lemma CorrelationTextSignFree(r: real)
    ensures CorrelationText(-r) == CorrelationText(r)
  {
    assert Abs(-r) == Abs(r);
  }

  const Umbral: real := 0.4
  const MaxSignificativas: nat := 5

  /** `.filter(([_, r]) => Math.abs(r) >= 0.4)`. */
  function Significativas(c: Correlaciones): (s: Correlaciones)
    ensures forall i :: 0 <= i < |s| ==> Abs(s[i].1) >= Umbral
  {
    if c == [] then []
    else if Abs(c[0].1) >= Umbral then [c[0]] + Significativas(c[1..])
    else Significativas(c[1..])
  }

  /** The filter keeps exactly the entries of strength at least 0.4, each as often as it
      occurs in the map. */
  lemma {:induction false} SignificativasMultiset(c: Correlaciones)
    ensures multiset(Significativas(c)) <= multiset(c)
    ensures forall e :: e in c && Abs(e.1) >= Umbral ==> e in Significativas(c)
  {
    if c != [] {
      SignificativasMultiset(c[1..]);
      assert c == [c[0]] + c[1..];
    }
  }

  function AbsOf(e: (string, real)): real {
    Abs(e.1)
  }

  /** `.sort((a, b) => Math.abs(b) - Math.abs(a))`, a stable sort by decreasing strength. */
  function SortByAbs(s: Correlaciones): (r: Correlaciones)
    ensures |r| == |s|
  {
    SortDesc(s, AbsOf)
  }

  /** The rendered list: significant entries, strongest first, at most five. */
  function Top(c: Correlaciones): Correlaciones {
    Prefix(SortByAbs(Significativas(c)), MaxSignificativas)
  }

  /** At most five entries are shown, all of strength at least 0.4, strongest first. */
  lemma TopSpec(c: Correlaciones)
    ensures |Top(c)| <= MaxSignificativas
    ensures forall i :: 0 <= i < |Top(c)| ==> Abs(Top(c)[i].1) >= Umbral
    ensures SortedDesc(Top(c), AbsOf)
  {
    var f := Significativas(c);
    var s := SortByAbs(f);
    var t := Top(c);
    SortDescSpec(f, AbsOf);
    forall i | 0 <= i < |t| ensures Abs(t[i].1) >= Umbral {
      assert t[i] == s[i];
      assert s[i] in multiset(f);
    }
  }

  /** The shown entries come from the map, and when fewer than five are shown they are all
      the significant ones. */
  lemma TopMultiset(c: Correlaciones)
    ensures multiset(Top(c)) <= multiset(c)
    ensures |Top(c)| == MaxSignificativas || multiset(Top(c)) == multiset(Significativas(c))
  {
    var f := Significativas(c);
    var s := SortByAbs(f);
    var t := Top(c);
    SignificativasMultiset(c);
    SortDescSpec(f, AbsOf);
    assert s == t + s[|t|..];
    assert multiset(s) == multiset(t) + multiset(s[|t|..]);
  }

  /** No entry left out of the list is stronger than one shown. */
  lemma TopIsStrongest(c: Correlaciones, i: nat, j: nat)
    requires i < |Top(c)| && |Top(c)| <= j < |SortByAbs(Significativas(c))|
    ensures Abs(Top(c)[i].1) >= Abs(SortByAbs(Significativas(c))[j].1)
  {
    SortDescSpec(Significativas(c), AbsOf);
  }

  /** The "none significant" message shows exactly when no entry reaches 0.4. */
  lemma NingunaIff(c: Correlaciones)
    ensures |Significativas(c)| == 0 <==> forall i :: 0 <= i < |c| ==> Abs(c[i].1) < Umbral
  {
    SignificativasMultiset(c);
    if |Significativas(c)| != 0 {
      var e := Significativas(c)[0];
      assert e in multiset(c);
      var i :| 0 <= i < |c| && c[i] == e;
    }
  }

  // ---------------------------------------------------------------------------
  // The component
  // ---------------------------------------------------------------------------

  datatype Vista =
    | SinDatos
    | Grafico(modulos: seq<Mod>, matriz: seq<seq<real>>, top: Correlaciones, ninguna: bool)

  /** `!correlaciones || Object.keys(correlaciones).length === 0` shows the no-data card. */
  function Mostrar(correlaciones: Option<Correlaciones>): (v: Vista)
    ensures v.SinDatos? <==> correlaciones.None? || correlaciones.value == []
    ensures v.Grafico? ==> |v.matriz| == |v.modulos| && NoDup(v.modulos)
    ensures v.Grafico? ==> forall i :: 0 <= i < |v.matriz| ==>
      |v.matriz[i]| == |v.matriz| && v.matriz[i][i] == 1.0
    ensures v.Grafico? ==> |v.top| <= MaxSignificativas
  {
    if correlaciones.None? || correlaciones.value == [] then SinDatos
    else
      var c := correlaciones.value;
      var ms := Modulos(Partes(c));
      ModulosNoDup(Partes(c));
      TopSpec(c);
      Grafico(ms, Matriz(c, ms), Top(c), |Significativas(c)| == 0)
  }
}
