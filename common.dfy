/** Shared JavaScript semantics used by every component model: optional values,
    `String.prototype.trim`, `includes`, `startsWith`, `replace` with a string pattern,
    `toLowerCase`/`toUpperCase`, `parseInt`, number-to-decimal rendering and the
    "push then splice to the last n" log trimming. */
module Js {

  datatype Option<T> = None | Some(value: T)

  /** A JavaScript string is falsy exactly when it is missing or empty. */
  predicate Truthy(s: Option<string>) {
    s.Some? && s.value != ""
  }

  /** `s || d` for an optional string. */
  function OrDefault(s: Option<string>, d: string): (r: string)
    ensures Truthy(s) ==> r == s.value
    ensures !Truthy(s) ==> r == d
  {
    if Truthy(s) then s.value else d
  }

  // ---------------------------------------------------------------------------
  // White space and trim
  // ---------------------------------------------------------------------------

  /** The characters removed by `trim` and matched by the regex class `\s`
      (ECMAScript WhiteSpace and LineTerminator). */
  predicate IsSpace(c: char) {
    c == '\t' || c == '\n' || c == '\U{000B}' || c == '\U{000C}' || c == '\r' || c == ' '
    || c == '\U{00A0}' || c == '\U{1680}' || ('\U{2000}' <= c <= '\U{200A}')
    || c == '\U{2028}' || c == '\U{2029}' || c == '\U{202F}' || c == '\U{205F}'
    || c == '\U{3000}' || c == '\U{FEFF}'
  }

  ghost predicate AllSpace(s: string) {
    forall i :: 0 <= i < |s| ==> IsSpace(s[i])
  }

  /** The number of white-space characters at the start of `s`. */
  function LeadingSpaces(s: string): (n: nat)
    ensures n <= |s|
    ensures forall i :: 0 <= i < n ==> IsSpace(s[i])
    ensures n < |s| ==> !IsSpace(s[n])
  {
    if s == [] || !IsSpace(s[0]) then 0 else 1 + LeadingSpaces(s[1..])
  }

  /** The number of white-space characters at the end of `s`. */
  function TrailingSpaces(s: string): (n: nat)
    ensures n <= |s|
    ensures forall i :: |s| - n <= i < |s| ==> IsSpace(s[i])
    ensures n < |s| ==> !IsSpace(s[|s| - n - 1])
  {
    if s == [] || !IsSpace(s[|s| - 1]) then 0 else 1 + TrailingSpaces(s[..|s| - 1])
  }

  function TrimStart(s: string): (r: string)
    ensures |r| <= |s| && r == s[|s| - |r|..]
    ensures AllSpace(s[..|s| - |r|])
    ensures r == "" || !IsSpace(r[0])
  {
    var n := LeadingSpaces(s);
    assert forall i :: 0 <= i < n ==> s[..n][i] == s[i];
    s[n..]
  }

  function TrimEnd(s: string): (r: string)
    ensures |r| <= |s| && r == s[..|r|]
    ensures AllSpace(s[|r|..])
    ensures r == "" || !IsSpace(r[|r| - 1])
  {
    var n := TrailingSpaces(s);
    s[..|s| - n]
  }

  /** `s.trim()`: the longest infix of `s` with white space removed at both ends. */
  function Trim(s: string): (r: string)
    ensures |r| <= |s|
    ensures r == "" || (!IsSpace(r[0]) && !IsSpace(r[|r| - 1]))
  {
    var a := TrimStart(s);
    var r := TrimEnd(a);
    assert r != "" ==> r[0] == a[0];
    r
  }

  lemma TrimStartEmptyIff(s: string)
    ensures TrimStart(s) == "" <==> AllSpace(s)
  {
    if TrimStart(s) != "" {
      assert !IsSpace(s[LeadingSpaces(s)]);
    }
  }

  lemma TrimEndEmptyIff(s: string)
    requires s == "" || !IsSpace(s[0])
    ensures TrimEnd(s) == "" <==> s == ""
  {
    assert s != "" ==> AllSpace(s[|TrimEnd(s)|..]);
  }

  /** `s.trim() === ''` exactly when `s` consists of white space only. */
  lemma TrimEmptyIff(s: string)
    ensures Trim(s) == "" <==> AllSpace(s)
  {
    TrimStartEmptyIff(s);
    TrimEndEmptyIff(TrimStart(s));
  }

  /** Trimming a trimmed string changes nothing. */
  lemma TrimIdempotent(s: string)
    ensures Trim(Trim(s)) == Trim(s)
  {
  }

  // ---------------------------------------------------------------------------
  // Substrings
  // ---------------------------------------------------------------------------

  /** `s.startsWith(p)`. */
  predicate StartsWith(s: string, p: string) {
    |p| <= |s| && s[..|p|] == p
  }

  /** `p` occurs in `s` starting at index `k`. */
  ghost predicate OccursAt(s: string, p: string, k: int) {
    0 <= k && k + |p| <= |s| && s[k..k + |p|] == p
  }

  /** `s.includes(p)`: a plain substring test, with no notion of word boundaries. */
  predicate Contains(s: string, p: string)
    decreases |s|
  {
    StartsWith(s, p) || (|s| > |p| && Contains(s[1..], p))
  }

  lemma OccursAtZeroIff(s: string, p: string)
    ensures OccursAt(s, p, 0) <==> StartsWith(s, p)
  {
    if |p| <= |s| {
      assert s[0..|p|] == s[..|p|];
    }
  }

  lemma OccursShiftIff(s: string, p: string, k: int)
    requires k >= 1 && s != []
    ensures OccursAt(s, p, k) <==> OccursAt(s[1..], p, k - 1)
  {
    if k + |p| <= |s| {
      assert s[1..][k - 1..k - 1 + |p|] == s[k..k + |p|];
    }
  }

  lemma {:induction false} ContainsIff(s: string, p: string)
    ensures Contains(s, p) <==> exists k :: OccursAt(s, p, k)
    decreases |s|
  {
    OccursAtZeroIff(s, p);
    if exists k :: OccursAt(s, p, k) {
      var k :| OccursAt(s, p, k);
      if k > 0 {
        OccursShiftIff(s, p, k);
        ContainsIff(s[1..], p);
      }
    }
    if Contains(s, p) && !StartsWith(s, p) {
      ContainsIff(s[1..], p);
      var k :| OccursAt(s[1..], p, k);
      OccursShiftIff(s, p, k + 1);
    }
  }

  /** Every string contains the empty string, as in JavaScript. */
  lemma ContainsEmpty(s: string)
    ensures Contains(s, "")
  {
  }

  /** Index of the first occurrence of `p` in `s`, if any. */
  function IndexOf(s: string, p: string): (r: Option<nat>)
    ensures r.Some? ==> OccursAt(s, p, r.value)
    ensures r.Some? ==> forall k :: 0 <= k < r.value ==> !OccursAt(s, p, k)
    ensures r.None? <==> !Contains(s, p)
    decreases |s|
  {
    OccursAtZeroIff(s, p);
    if StartsWith(s, p) then Some(0)
    else if |s| <= |p| then None
    else
      match IndexOf(s[1..], p)
      case None => None
      case Some(i) =>
        OccursShiftIff(s, p, i + 1);
        assert forall k :: 1 <= k < i + 1 ==> (OccursAt(s, p, k) <==> OccursAt(s[1..], p, k - 1)) by {
          forall k | 1 <= k < i + 1 ensures OccursAt(s, p, k) <==> OccursAt(s[1..], p, k - 1) {
            OccursShiftIff(s, p, k);
          }
        }
        Some(i + 1)
  }

  /** `s.replace(p, "")` with a non-empty string pattern: removes the first occurrence only. */
  function RemoveFirst(s: string, p: string): (r: string)
    requires p != ""
  {
    match IndexOf(s, p)
    case None => s
    case Some(i) => s[..i] + s[i + |p|..]
  }

  lemma RemoveFirstSpec(s: string, p: string)
    requires p != ""
    ensures (forall k :: !OccursAt(s, p, k)) ==> RemoveFirst(s, p) == s
    ensures (exists k :: OccursAt(s, p, k)) ==>
      exists i :: 0 <= i && i + |p| <= |s| && s == s[..i] + p + s[i + |p|..]
        && RemoveFirst(s, p) == s[..i] + s[i + |p|..]
        && (forall k :: 0 <= k < i ==> !OccursAt(s, p, k))
  {
    ContainsIff(s, p);
    match IndexOf(s, p)
    case None =>
    case Some(i) =>
      assert s == s[..i] + s[i..i + |p|] + s[i + |p|..];
  }

  // ---------------------------------------------------------------------------
  // Case mapping
  // ---------------------------------------------------------------------------

  /** Lower-casing of one character: ASCII A-Z and the Latin-1 capitals À..Þ (except ×).
      The full Unicode case mapping of `toLowerCase` is not modelled. */
  function LowerChar(c: char): (r: char)
    ensures ('A' <= c <= 'Z') ==> r as int == c as int + 32
  {
    if 'A' <= c <= 'Z' || ('\U{00C0}' <= c <= '\U{00DE}' && c != '\U{00D7}')
    then (c as int + 32) as char
    else c
  }

  function ToLower(s: string): (r: string)
    ensures |r| == |s| && forall i :: 0 <= i < |s| ==> r[i] == LowerChar(s[i])
  {
    if s == [] then [] else [LowerChar(s[0])] + ToLower(s[1..])
  }

  lemma {:induction false} LowerCharIdempotent(c: char)
    ensures LowerChar(LowerChar(c)) == LowerChar(c)
  {
  }

  lemma ToLowerIdempotent(s: string)
    ensures ToLower(ToLower(s)) == ToLower(s)
  {
    forall i | 0 <= i < |s| ensures ToLower(ToLower(s))[i] == ToLower(s)[i] {
      LowerCharIdempotent(s[i]);
    }
  }

  predicate IsAsciiLower(c: char) { 'a' <= c <= 'z' }
  predicate IsAsciiUpper(c: char) { 'A' <= c <= 'Z' }
  predicate IsDigit(c: char) { '0' <= c <= '9' }
  predicate IsAsciiAlnum(c: char) { IsAsciiLower(c) || IsAsciiUpper(c) || IsDigit(c) }

  function UpperAscii(c: char): (r: char)
    ensures IsAsciiLower(c) ==> IsAsciiUpper(r)
    ensures !IsAsciiLower(c) ==> r == c
  {
    if IsAsciiLower(c) then (c as int - 32) as char else c
  }

  /** `toUpperCase` restricted to the characters it is applied to here (ASCII letters and digits). */
  function ToUpperAscii(s: string): (r: string)
    ensures |r| == |s| && forall i :: 0 <= i < |s| ==> r[i] == UpperAscii(s[i])
  {
    if s == [] then [] else [UpperAscii(s[0])] + ToUpperAscii(s[1..])
  }

  /** `s.replace(/[^...]/g, '')`: keeps the characters satisfying `keep`, in order. */
  function KeepWhere(s: string, keep: char -> bool): (r: string)
    ensures |r| <= |s|
    ensures forall i :: 0 <= i < |r| ==> keep(r[i])
    ensures (forall i :: 0 <= i < |s| ==> keep(s[i])) ==> r == s
  {
    if s == [] then []
    else if keep(s[0]) then [s[0]] + KeepWhere(s[1..], keep)
    else KeepWhere(s[1..], keep)
  }

  lemma AppendAssoc<T>(a: seq<T>, b: seq<T>, c: seq<T>)
    ensures (a + b) + c == a + (b + c)
  {
  }

  /** `xs.filter(keep)`: the elements satisfying `keep`, in order. */
  function Filter<T>(xs: seq<T>, keep: T -> bool): (r: seq<T>)
    ensures |r| <= |xs|
  {
    if xs == [] then []
    else Filter(xs[..|xs| - 1], keep) + (if keep(xs[|xs| - 1]) then [xs[|xs| - 1]] else [])
  }

  /** The filter keeps nothing exactly when no element satisfies `keep`. */
  lemma {:induction false} FilterEmptyIff<T>(xs: seq<T>, keep: T -> bool)
    ensures |Filter(xs, keep)| == 0 <==> forall k :: 0 <= k < |xs| ==> !keep(xs[k])
  {
    if xs != [] {
      var init := xs[..|xs| - 1];
      FilterEmptyIff(init, keep);
      assert forall k :: 0 <= k < |init| ==> init[k] == xs[k];
    }
  }

  /** `xs.some(p)`, scanning from the front. */
  predicate Any<T>(xs: seq<T>, p: T -> bool) {
    xs != [] && (p(xs[0]) || Any(xs[1..], p))
  }

  /** `some` holds exactly when some element satisfies the test. */
  lemma {:induction false} AnyIff<T>(xs: seq<T>, p: T -> bool)
    ensures Any(xs, p) <==> exists i :: 0 <= i < |xs| && p(xs[i])
  {
    if xs != [] {
      AnyIff(xs[1..], p);
      if exists i :: 0 <= i < |xs| && p(xs[i]) {
        var i :| 0 <= i < |xs| && p(xs[i]);
        if i > 0 {
          assert xs[1..][i - 1] == xs[i];
        }
      }
      if Any(xs[1..], p) {
        var i :| 0 <= i < |xs[1..]| && p(xs[1..][i]);
        assert xs[i + 1] == xs[1..][i];
      }
    }
  }

  /** `s.slice(0, n)`. */
  function Prefix<T>(s: seq<T>, n: nat): (r: seq<T>)
    ensures |r| == if |s| < n then |s| else n
    ensures r == s[..|r|]
  {
    if |s| <= n then s else s[..n]
  }

  // ---------------------------------------------------------------------------
  // Numbers and decimal text
  // ---------------------------------------------------------------------------

  function DigitValue(c: char): nat
    requires IsDigit(c)
  {
    c as int - '0' as int
  }

  function DigitChar(d: nat): (c: char)
    requires d < 10
    ensures IsDigit(c) && DigitValue(c) == d
  {
    ('0' as int + d) as char
  }

  ghost predicate AllDigits(s: string) {
    forall i :: 0 <= i < |s| ==> IsDigit(s[i])
  }

  /** Value of a string of decimal digits, most significant first. */
  function DecValue(s: string): nat
    requires AllDigits(s)
  {
    if s == [] then 0 else DecValue(s[..|s| - 1]) * 10 + DigitValue(s[|s| - 1])
  }

  /** `n.toString()` for a non-negative integer. */
  function NatToString(n: nat): (r: string)
    ensures |r| >= 1 && AllDigits(r)
    ensures DecValue(r) == n
    ensures |r| > 1 ==> r[0] != '0'
  {
    if n < 10 then [DigitChar(n)]
    else
      var r := NatToString(n / 10) + [DigitChar(n % 10)];
      assert r[..|r| - 1] == NatToString(n / 10);
      r
  }

  /** The longest prefix of `s` made of ASCII digits. */
  function LeadingDigits(s: string): (r: string)
    ensures |r| <= |s| && AllDigits(r) && r == s[..|r|]
    ensures |r| == |s| || !IsDigit(s[|r|])
  {
    if s == [] || !IsDigit(s[0]) then [] else [s[0]] + LeadingDigits(s[1..])
  }

  /** JavaScript `parseInt(s)` on decimal text: leading white space, an optional sign, then the
      longest run of digits; `None` stands for `NaN`. */
  function ParseInt(s: string): Option<int>
  {
    var t := TrimStart(s);
    var neg := t != [] && t[0] == '-';
    var body := if t != [] && (t[0] == '-' || t[0] == '+') then t[1..] else t;
    var ds := LeadingDigits(body);
    if ds == [] then None
    else if neg then Some(-(DecValue(ds) as int))
    else Some(DecValue(ds))
  }

  /** `parseInt` inverts `toString` on non-negative integers. */
  lemma ParseIntOfNatToString(n: nat)
    ensures ParseInt(NatToString(n)) == Some(n)
  {
    var s := NatToString(n);
    assert IsDigit(s[0]);
    assert !IsSpace(s[0]);
    assert TrimStart(s) == s;
    assert s[0] != '-' && s[0] != '+';
    LeadingDigitsOfDigits(s);
  }

  lemma {:induction false} LeadingDigitsOfDigits(s: string)
    requires AllDigits(s)
    ensures LeadingDigits(s) == s
  {
    if s != [] {
      LeadingDigitsOfDigits(s[1..]);
    }
  }

  /** `parseInt(v) || d`: `NaN` and 0 both fall back to the default. */
  function ParseIntOr(s: string, d: int): (r: int)
    ensures ParseInt(s).Some? && ParseInt(s).value != 0 ==> r == ParseInt(s).value
    ensures ParseInt(s).None? || ParseInt(s).value == 0 ==> r == d
  {
    match ParseInt(s)
    case Some(v) => if v != 0 then v else d
    case None => d
  }

  // ---------------------------------------------------------------------------
  // Stable sort by a numeric key, largest first (`sort((a, b) => key(b) - key(a))`)
  // ---------------------------------------------------------------------------

  predicate SortedDesc<T>(s: seq<T>, key: T -> real) {
    forall i, j :: 0 <= i < j < |s| ==> key(s[i]) >= key(s[j])
  }

  /** Inserts `x` after every element whose key is at least its own, so elements with equal
      keys keep their input order. */
  function InsertDesc<T>(x: T, s: seq<T>, key: T -> real): (r: seq<T>)
    ensures |r| == |s| + 1
  {
    if s == [] then [x]
    else if key(s[0]) >= key(x) then [s[0]] + InsertDesc(x, s[1..], key)
    else [x] + s
  }

  lemma {:induction false} InsertDescMultiset<T>(x: T, s: seq<T>, key: T -> real)
    ensures multiset(InsertDesc(x, s, key)) == multiset(s) + multiset{x}
  {
    if s != [] && key(s[0]) >= key(x) {
      InsertDescMultiset(x, s[1..], key);
      assert s == [s[0]] + s[1..];
    }
  }

  lemma InsertDescElement<T>(x: T, s: seq<T>, key: T -> real, k: nat)
    requires k < |InsertDesc(x, s, key)|
    ensures InsertDesc(x, s, key)[k] == x || InsertDesc(x, s, key)[k] in s
  {
    InsertDescMultiset(x, s, key);
    assert InsertDesc(x, s, key)[k] in multiset(InsertDesc(x, s, key));
  }

  lemma {:induction false} InsertDescSorted<T>(x: T, s: seq<T>, key: T -> real)
    requires SortedDesc(s, key)
    ensures SortedDesc(InsertDesc(x, s, key), key)
  {
    if s != [] && key(s[0]) >= key(x) {
      var t := InsertDesc(x, s[1..], key);
      InsertDescSorted(x, s[1..], key);
      var r := [s[0]] + t;
      forall i, j | 0 <= i < j < |r| ensures key(r[i]) >= key(r[j]) {
        if i == 0 {
          assert r[j] == t[j - 1];
          InsertDescElement(x, s[1..], key, j - 1);
        }
      }
    }
  }

  function SortDesc<T>(s: seq<T>, key: T -> real): (r: seq<T>)
    ensures |r| == |s|
  {
    if s == [] then [] else InsertDesc(s[|s| - 1], SortDesc(s[..|s| - 1], key), key)
  }

  /** The sort is a permutation of its input ordered by non-increasing key. */
  lemma {:induction false} SortDescSpec<T>(s: seq<T>, key: T -> real)
    ensures multiset(SortDesc(s, key)) == multiset(s)
    ensures SortedDesc(SortDesc(s, key), key)
  {
    if s != [] {
      var init := s[..|s| - 1];
      SortDescSpec(init, key);
      InsertDescMultiset(s[|s| - 1], SortDesc(init, key), key);
      InsertDescSorted(s[|s| - 1], SortDesc(init, key), key);
      assert s == init + [s[|s| - 1]];
    }
  }

  // ---------------------------------------------------------------------------
  // Bounded logs
  // ---------------------------------------------------------------------------

  /** `list.push(x); if (list.length > n) list.splice(0, list.length - n)`. */
  function KeepLast<T>(s: seq<T>, n: nat): (r: seq<T>)
  {
    if |s| > n then s[|s| - n..] else s
  }

  /** The trimmed log is the newest `n` entries, in order; nothing is dropped when it fits. */
  lemma KeepLastSpec<T>(s: seq<T>, n: nat)
    ensures |KeepLast(s, n)| == if |s| > n then n else |s|
    ensures forall i :: 0 <= i < |KeepLast(s, n)| ==>
      KeepLast(s, n)[i] == s[|s| - |KeepLast(s, n)| + i]
    ensures |s| <= n ==> KeepLast(s, n) == s
  {
  }

  lemma KeepLastAppendNewest<T>(log: seq<T>, x: T, n: nat)
    requires n > 0
    ensures var r := KeepLast(log + [x], n); |r| > 0 && r[|r| - 1] == x
  {
  }

  // ---------------------------------------------------------------------------
  // Association lists (JavaScript objects read through Object.entries)
  // ---------------------------------------------------------------------------

  /** No element occurs twice. */
  predicate NoDup<T(==)>(s: seq<T>) {
    forall i, j :: 0 <= i < j < |s| ==> s[i] != s[j]
  }

  predicate DistinctKeys<K(==), V>(m: seq<(K, V)>) {
    forall i, j :: 0 <= i < j < |m| ==> m[i].0 != m[j].0
  }

  /** `obj[k]`: the value stored under `k`, if any. */
  function Lookup<K(==), V>(m: seq<(K, V)>, k: K): Option<V>
  {
    if m == [] then None
    else if m[0].0 == k then Some(m[0].1)
    else Lookup(m[1..], k)
  }

  /** A found value is stored under the key; nothing is found only when no entry has it. */
  lemma {:induction false} LookupSpec<K, V>(m: seq<(K, V)>, k: K)
    ensures Lookup(m, k).Some? ==> exists i :: 0 <= i < |m| && m[i] == (k, Lookup(m, k).value)
    ensures Lookup(m, k).None? <==> forall i :: 0 <= i < |m| ==> m[i].0 != k
  {
    if m != [] && m[0].0 != k {
      LookupSpec(m[1..], k);
      if Lookup(m, k).Some? {
        var i :| 0 <= i < |m[1..]| && m[1..][i] == (k, Lookup(m, k).value);
        assert m[i + 1] == m[1..][i];
      }
      assert forall i :: 1 <= i < |m| ==> m[i] == m[1..][i - 1];
    }
  }

  lemma {:induction false} LookupDistinct<K, V>(m: seq<(K, V)>, i: nat)
    requires DistinctKeys(m) && i < |m|
    ensures Lookup(m, m[i].0) == Some(m[i].1)
  {
    if i > 0 {
      LookupDistinct(m[1..], i - 1);
    }
  }
}
