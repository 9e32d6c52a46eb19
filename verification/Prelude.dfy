/** Option and Result values, the two notions of "missing text" the system uses,
    and sums over sequences and finite sets. */
module Prelude {

  datatype Option<+T> = None | Some(value: T)

  datatype Result<+T, +E> = Ok(value: T) | Err(error: E)

  function Abs(n: int): int {
    if n < 0 then -n else n
  }

  // ----- Text ---------------------------------------------------------------

  /** What Python's str.strip removes. */
  predicate PyWhitespace(c: char) {
    var n := c as int;
    9 <= n <= 13 || 28 <= n <= 32 || n == 133 || n == 160 || n == 5760 || 8192 <= n <= 8202
    || n == 8232 || n == 8233 || n == 8239 || n == 8287 || n == 12288
  }

  /** Python truth of an optional text field: `if not x` rejects None and "". */
  predicate Truthy(s: Option<string>) {
    s.Some? && s.value != ""
  }

  /** The loops' `value.strip() == ""`. */
  predicate Stripped(s: string) {
    forall i | 0 <= i < |s| :: PyWhitespace(s[i])
  }

  /** The plans' `trim(column) == ""`: SQL trim removes spaces only. */
  predicate Trimmed(s: string) {
    forall i | 0 <= i < |s| :: s[i] == ' '
  }

  /** The plans' `column IS NOT NULL AND trim(column) != ""`. */
  predicate NonBlank(s: Option<string>) {
    s.Some? && !Trimmed(s.value)
  }

  /** No text made of whitespace alone; the empty text is allowed. */
  predicate Clean(s: Option<string>) {
    s.Some? && s.value != "" ==> !Stripped(s.value)
  }

  lemma {:induction false} CleanTextHasOneNotionOfMissing(s: Option<string>)
    requires Clean(s)
    ensures Truthy(s) <==> NonBlank(s)
    ensures Truthy(s) <==> (s.Some? && !Stripped(s.value))
  {
  }

  /** Some character of the text is not a space. */
  predicate HoldsInk(s: Option<string>) {
    s.Some? && exists i :: 0 <= i < |s.value| && s.value[i] != ' '
  }

  /** The code points Python strips. */
  const PYTHON_SPACE: set<int> := {
    9, 10, 11, 12, 13, 28, 29, 30, 31, 32, 133, 160, 5760, 8192, 8193, 8194, 8195, 8196, 8197, 8198, 8199, 8200, 8201,
    8202, 8232, 8233, 8239, 8287, 12288
  }

  /** The two notions of blank, said by a character that shows: the plans look for one that is not a space,
      the loops' strip for one that is not among Python's 29 whitespace characters. */
  lemma {:induction false} BlankMeans(s: Option<string>)
    ensures NonBlank(s) <==> HoldsInk(s)
    ensures s.Some? ==> (Stripped(s.value) <==> forall i | 0 <= i < |s.value| :: s.value[i] as int in PYTHON_SPACE)
  {
  }

  /** Code-point order on text, as the engine's ascending string sort uses it. */
  predicate StringLess(a: string, b: string) {
    b != [] && (a == [] || a[0] < b[0] || (a[0] == b[0] && StringLess(a[1..], b[1..])))
  }

  lemma {:induction false} TextOrderIsTotal(a: string, b: string)
    ensures !StringLess(a, a)
    ensures a != b ==> StringLess(a, b) || StringLess(b, a)
  {
    if a != [] {
      if b != [] {
        assert a == [a[0]] + a[1..] && b == [b[0]] + b[1..];
        TextOrderIsTotal(a[1..], b[1..]);
      } else {
        TextOrderIsTotal(a[1..], a[1..]);
      }
    }
  }

  lemma {:induction false} TextOrderIsTransitive(a: string, b: string, c: string)
    requires StringLess(a, b) && StringLess(b, c)
    ensures StringLess(a, c)
  {
    if a != [] && b[0] == a[0] && c[0] == b[0] {
      TextOrderIsTransitive(a[1..], b[1..], c[1..]);
    }
  }

  // ----- Quotients ----------------------------------------------------------

  lemma {:induction false} QuotientReaches(part: real, whole: real, level: real)
    requires whole > 0.0
    ensures part / whole >= level <==> part >= level * whole
  {
    var q := part / whole;
    assert q * whole == part;
    if q >= level {
      assert (q - level) * whole >= 0.0;
    } else {
      assert (level - q) * whole > 0.0;
    }
  }

  lemma {:induction false} QuotientAtMost(part: real, whole: real, level: real)
    requires whole > 0.0
    ensures part / whole <= level <==> part <= level * whole
  {
    var q := part / whole;
    assert q * whole == part;
    if q <= level {
      assert (level - q) * whole >= 0.0;
    } else {
      assert (q - level) * whole > 0.0;
    }
  }

  // ----- Sums over sequences ------------------------------------------------

  function SumBy<T>(s: seq<T>, f: T -> int): int {
    if s == [] then 0 else SumBy(s[..|s|-1], f) + f(s[|s|-1])
  }

  lemma {:induction false} SumByExt<T>(s: seq<T>, f: T -> int, g: T -> int)
    requires forall x | x in s :: f(x) == g(x)
    ensures SumBy(s, f) == SumBy(s, g)
  {
    if s != [] {
      SumByExt(s[..|s|-1], f, g);
    }
  }

  lemma {:induction false} SumByAdd<T>(s: seq<T>, f: T -> int, g: T -> int, h: T -> int)
    requires forall x | x in s :: h(x) == f(x) + g(x)
    ensures SumBy(s, h) == SumBy(s, f) + SumBy(s, g)
  {
    if s != [] {
      SumByAdd(s[..|s|-1], f, g, h);
    }
  }

  lemma {:induction false} SumByStep<T>(s: seq<T>, i: nat, f: T -> int)
    requires i < |s|
    ensures SumBy(s[..i+1], f) == SumBy(s[..i], f) + f(s[i])
  {
    assert s[..i+1][..i] == s[..i];
  }

  lemma {:induction false} SumOfZeros<T>(s: seq<T>, f: T -> int)
    requires forall x | x in s :: f(x) == 0
    ensures SumBy(s, f) == 0
  {
    if s != [] {
      SumOfZeros(s[..|s|-1], f);
    }
  }

  // ----- Sums over finite sets ----------------------------------------------

  ghost function SumSet<K>(ks: set<K>, f: K -> int): int {
    if ks == {} then 0
    else
      var k :| k in ks;
      f(k) + SumSet(ks - {k}, f)
  }

  lemma {:induction false} SumSetRemove<K>(ks: set<K>, k: K, f: K -> int)
    requires k in ks
    ensures SumSet(ks, f) == f(k) + SumSet(ks - {k}, f)
    decreases ks
  {
    var c :| c in ks && SumSet(ks, f) == f(c) + SumSet(ks - {c}, f);
    if c != k {
      SumSetRemove(ks - {c}, k, f);
      SumSetRemove(ks - {k}, c, f);
      assert ks - {c} - {k} == ks - {k} - {c};
    }
  }

  lemma {:induction false} SumSetAdd<K>(ks: set<K>, f: K -> int, g: K -> int, h: K -> int)
    requires forall k | k in ks :: h(k) == f(k) + g(k)
    ensures SumSet(ks, h) == SumSet(ks, f) + SumSet(ks, g)
    decreases ks
  {
    if ks != {} {
      var k :| k in ks;
      SumSetRemove(ks, k, f);
      SumSetRemove(ks, k, g);
      SumSetRemove(ks, k, h);
      SumSetAdd(ks - {k}, f, g, h);
    }
  }

  lemma {:induction false} SumSetExt<K>(ks: set<K>, f: K -> int, g: K -> int)
    requires forall k | k in ks :: f(k) == g(k)
    ensures SumSet(ks, f) == SumSet(ks, g)
    decreases ks
  {
    if ks != {} {
      var k :| k in ks;
      SumSetRemove(ks, k, f);
      SumSetRemove(ks, k, g);
      SumSetExt(ks - {k}, f, g);
    }
  }

  /** The sum over a set only sees one key when the function vanishes elsewhere. */
  lemma {:induction false} SumSetPoint<K>(ks: set<K>, k: K, f: K -> int)
    requires forall j | j in ks && j != k :: f(j) == 0
    ensures SumSet(ks, f) == if k in ks then f(k) else 0
    decreases ks
  {
    if ks != {} {
      var c :| c in ks;
      SumSetRemove(ks, c, f);
      SumSetPoint(ks - {c}, k, f);
    }
  }

  /** Exchange of summation: adding up the per-key totals over a set of keys is one
      pass over the rows whose key lies in the set. */
  lemma {:induction false} SumOfGroups<T, K>(s: seq<T>, ks: set<K>, column: K -> (T -> int), line: T -> (K -> int),
                                             total: K -> int, row: T -> int)
    requires forall k, x | k in ks && x in s :: column(k)(x) == line(x)(k)
    requires forall k | k in ks :: total(k) == SumBy(s, column(k))
    requires forall x | x in s :: row(x) == SumSet(ks, line(x))
    ensures SumSet(ks, total) == SumBy(s, row)
    decreases |s|
  {
    if s == [] {
      SumSetPointwiseZero(ks, total);
    } else {
      var front, last := s[..|s|-1], s[|s|-1];
      var totalFront := (k: K) => SumBy(front, column(k));
      SumOfGroups(front, ks, column, line, totalFront, row);
      SumSetAdd(ks, totalFront, line(last), total);
    }
  }

  lemma {:induction false} SumSetPointwiseZero<K>(ks: set<K>, f: K -> int)
    requires forall k | k in ks :: f(k) == 0
    ensures SumSet(ks, f) == 0
    decreases ks
  {
    if ks != {} {
      var k :| k in ks;
      SumSetRemove(ks, k, f);
      SumSetPointwiseZero(ks - {k}, f);
    }
  }

  // ----- Filtering ------------------------------------------------------------

  function Filter<T>(s: seq<T>, p: T -> bool): (r: seq<T>)
    ensures forall x | x in r :: x in s && p(x)
    ensures forall x | x in s && p(x) :: x in r
    ensures |r| <= |s|
  {
    if s == [] then []
    else
      var rest := Filter(s[..|s|-1], p);
      assert s == s[..|s|-1] + [s[|s|-1]];
      if p(s[|s|-1]) then rest + [s[|s|-1]] else rest
  }

  lemma {:induction false} FilterExt<T>(s: seq<T>, p: T -> bool, q: T -> bool)
    requires forall x | x in s :: p(x) == q(x)
    ensures Filter(s, p) == Filter(s, q)
  {
    if s != [] {
      FilterExt(s[..|s|-1], p, q);
    }
  }

  /** A sum ignores filtering when the dropped rows contribute nothing. */
  lemma {:induction false} SumByFilter<T>(s: seq<T>, p: T -> bool, f: T -> int)
    requires forall x | x in s && !p(x) :: f(x) == 0
    ensures SumBy(Filter(s, p), f) == SumBy(s, f)
  {
    if s != [] {
      SumByFilter(s[..|s|-1], p, f);
      var rest := Filter(s[..|s|-1], p);
      assert (rest + [s[|s|-1]])[..|rest|] == rest;
    }
  }

  /** The values a loop appends for the records it does not skip, in order. */
  function Collect<T, U>(s: seq<T>, f: T -> Option<U>): seq<U> {
    if s == [] then []
    else Collect(s[..|s|-1], f) + if f(s[|s|-1]).Some? then [f(s[|s|-1]).value] else []
  }

  lemma {:induction false} CollectHas<T, U>(s: seq<T>, f: T -> Option<U>, x: U)
    ensures x in Collect(s, f) <==> exists y :: y in s && f(y) == Some(x)
  {
    if s != [] {
      var front, last := s[..|s|-1], s[|s|-1];
      assert s == front + [last];
      CollectHas(front, f, x);
      if y :| y in front && f(y) == Some(x) {
        assert y in s;
      }
    }
  }
}
