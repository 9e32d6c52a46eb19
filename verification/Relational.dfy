/** What the set-oriented plans mean: joins over bags of rows, grouped sums and
    `row_number() == 1` over a partitioned order. A grouping or a window leaves the
    order of its output, and the choice between tied rows, to the engine, so both are
    relations between an input and any output the engine may produce. */
module Relational {
  import opened Prelude

  // ----- Bags -----------------------------------------------------------------

  /** The same rows, each as often, in any order. */
  ghost predicate SameBag<T>(a: seq<T>, b: seq<T>) {
    multiset(a) == multiset(b)
  }

  lemma {:induction false} FilterStep<T>(s: seq<T>, x: T, p: T -> bool)
    ensures Filter(s + [x], p) == Filter(s, p) + if p(x) then [x] else []
  {
  }

  lemma {:induction false} FilterConcat<T>(a: seq<T>, b: seq<T>, p: T -> bool)
    ensures Filter(a + b, p) == Filter(a, p) + Filter(b, p)
  {
    if b == [] {
      assert a + b == a;
    } else {
      assert (a + b)[..|a + b|-1] == a + b[..|b|-1];
      FilterConcat(a, b[..|b|-1], p);
    }
  }

  /** One more row on both sides, wherever it stands. */
  lemma {:induction false} OneMore<T>(front: seq<T>, before: seq<T>, after: seq<T>, x: T)
    ensures SameBag(front + [x], before + [x] + after) <==> SameBag(front, before + after)
  {
    assert multiset(front + [x]) == multiset(front) + multiset{x};
    assert multiset(before + [x] + after) == multiset(before + after) + multiset{x};
    assert multiset(front) == multiset(front + [x]) - multiset{x};
    assert multiset(before + after) == multiset(before + [x] + after) - multiset{x};
  }

  lemma {:induction false} FilterOfOneMore<T>(before: seq<T>, after: seq<T>, x: T, p: T -> bool)
    ensures Filter(before + [x] + after, p) == Filter(before, p) + (if p(x) then [x] else []) + Filter(after, p)
    ensures Filter(before + after, p) == Filter(before, p) + Filter(after, p)
  {
    FilterConcat(before, after, p);
    FilterConcat(before + [x], after, p);
    FilterStep(before, x, p);
  }

  lemma {:induction false} FilterKeepsOneMore<T>(front: seq<T>, before: seq<T>, after: seq<T>, x: T, p: T -> bool)
    requires SameBag(Filter(front, p), Filter(before + after, p))
    ensures SameBag(Filter(front + [x], p), Filter(before + [x] + after, p))
  {
    FilterStep(front, x, p);
    FilterOfOneMore(before, after, x, p);
    OneMore(Filter(front, p), Filter(before, p), Filter(after, p), x);
  }

  lemma {:induction false} FilterOfBag<T>(a: seq<T>, b: seq<T>, p: T -> bool)
    requires SameBag(a, b)
    ensures SameBag(Filter(a, p), Filter(b, p))
  {
    if a == [] {
      assert |multiset(b)| == 0;
    } else {
      var front, x := a[..|a|-1], a[|a|-1];
      assert x in multiset(b);
      var j :| 0 <= j < |b| && b[j] == x;
      assert a == front + [x] && b == b[..j] + [x] + b[j+1..];
      OneMore(front, b[..j], b[j+1..], x);
      FilterOfBag(front, b[..j] + b[j+1..], p);
      FilterKeepsOneMore(front, b[..j], b[j+1..], x, p);
    }
  }

  lemma {:induction false} FilteredIsHeld<T>(a: seq<T>, b: seq<T>, p: T -> bool, filtered: seq<T>, x: T)
    requires SameBag(a, b) && SameBag(Filter(a, p), filtered) && x in filtered
    ensures x in b
  {
    assert x in multiset(filtered) && x in Filter(a, p);
    assert x in multiset(a) && x in multiset(b);
  }

  // ----- Joins ----------------------------------------------------------------

  /** The rows of the right side that join to x. */
  function Matches<X, Y>(x: X, ys: seq<Y>, on: (X, Y) -> bool): seq<Y> {
    Filter(ys, y => on(x, y))
  }

  function LeftJoin<X, Y>(xs: seq<X>, ys: seq<Y>, on: (X, Y) -> bool): seq<(X, Option<Y>)> {
    if xs == [] then []
    else LeftJoin(xs[..|xs|-1], ys, on) + LeftJoinRow(xs[|xs|-1], Matches(xs[|xs|-1], ys, on))
  }

  function LeftJoinRow<X, Y>(x: X, matches: seq<Y>): seq<(X, Option<Y>)> {
    if matches == [] then [(x, None)] else seq(|matches|, i requires 0 <= i < |matches| => (x, Some(matches[i])))
  }

  function InnerJoin<X, Y>(xs: seq<X>, ys: seq<Y>, on: (X, Y) -> bool): seq<(X, Y)> {
    if xs == [] then []
    else
      var x := xs[|xs|-1];
      InnerJoin(xs[..|xs|-1], ys, on) + InnerJoinRow(x, Matches(x, ys, on))
  }

  function InnerJoinRow<X, Y>(x: X, matches: seq<Y>): seq<(X, Y)> {
    seq(|matches|, i requires 0 <= i < |matches| => (x, matches[i]))
  }

  ghost predicate Unambiguous<X, Y>(x: X, ys: seq<Y>, on: (X, Y) -> bool) {
    forall i, j | 0 <= i < j < |ys| :: !(on(x, ys[i]) && on(x, ys[j]))
  }

  /** No left row has two partners. */
  ghost predicate AtMostOneMatch<X, Y>(xs: seq<X>, ys: seq<Y>, on: (X, Y) -> bool) {
    forall i | 0 <= i < |xs| :: Unambiguous(xs[i], ys, on)
  }

  ghost predicate HasMatch<X, Y>(x: X, ys: seq<Y>, on: (X, Y) -> bool) {
    exists y :: y in ys && on(x, y)
  }

  ghost predicate HasOne<T>(s: seq<T>, p: T -> bool) {
    exists i :: 0 <= i < |s| && p(s[i])
  }

  ghost predicate HasTwo<T>(s: seq<T>, p: T -> bool) {
    exists i, j :: 0 <= i < j < |s| && p(s[i]) && p(s[j])
  }

  lemma {:induction false} HasOneStep<T>(s: seq<T>, p: T -> bool)
    requires s != []
    ensures HasOne(s, p) <==> HasOne(s[..|s|-1], p) || p(s[|s|-1])
  {
  }

  lemma {:induction false} HasTwoStep<T>(s: seq<T>, p: T -> bool)
    requires s != []
    ensures HasTwo(s, p) <==> HasTwo(s[..|s|-1], p) || (HasOne(s[..|s|-1], p) && p(s[|s|-1]))
  {
  }

  lemma {:induction false} FilterSize<T>(s: seq<T>, p: T -> bool)
    ensures |Filter(s, p)| >= 2 <==> HasTwo(s, p)
    ensures |Filter(s, p)| >= 1 <==> HasOne(s, p)
  {
    if s != [] {
      FilterSize(s[..|s|-1], p);
      HasOneStep(s, p);
      HasTwoStep(s, p);
    }
  }

  lemma {:induction false} MatchesSize<X, Y>(x: X, ys: seq<Y>, on: (X, Y) -> bool)
    ensures |Matches(x, ys, on)| <= 1 <==> Unambiguous(x, ys, on)
    ensures |Matches(x, ys, on)| >= 1 <==> HasMatch(x, ys, on)
  {
    var p := y => on(x, y);
    FilterSize(ys, p);
    assert HasTwo(ys, p) <==> !Unambiguous(x, ys, on) by {
      if i, j :| 0 <= i < j < |ys| && on(x, ys[i]) && on(x, ys[j]) {
        assert p(ys[i]) && p(ys[j]);
      }
    }
    if y :| y in ys && on(x, y) {
      assert y in Matches(x, ys, on);
    }
  }

  /** A left join keeps the row count exactly when no left row has two partners. */
  lemma {:induction false} LeftJoinKeepsCountIff<X, Y>(xs: seq<X>, ys: seq<Y>, on: (X, Y) -> bool)
    ensures |LeftJoin(xs, ys, on)| >= |xs|
    ensures |LeftJoin(xs, ys, on)| == |xs| <==> AtMostOneMatch(xs, ys, on)
  {
    if xs != [] {
      var front, x := xs[..|xs|-1], xs[|xs|-1];
      LeftJoinKeepsCountIff(front, ys, on);
      MatchesSize(x, ys, on);
      assert AtMostOneMatch(xs, ys, on) <==> AtMostOneMatch(front, ys, on) && Unambiguous(x, ys, on) by {
        assert forall i | 0 <= i < |front| :: front[i] == xs[i];
      }
    }
  }

  /** Every row of the join starts with a left row. */
  lemma {:induction false} LeftJoinRowsAreLeft<X, Y>(xs: seq<X>, ys: seq<Y>, on: (X, Y) -> bool, j: nat)
    requires j < |LeftJoin(xs, ys, on)|
    ensures LeftJoin(xs, ys, on)[j].0 in xs
  {
    var front := xs[..|xs|-1];
    if j < |LeftJoin(front, ys, on)| {
      LeftJoinRowsAreLeft(front, ys, on, j);
    }
  }

  /** Every left row is in the join, in the order of the left side. */
  lemma {:induction false} LeftJoinKeepsOrder<X, Y>(xs: seq<X>, ys: seq<Y>, on: (X, Y) -> bool, i: nat, j: nat)
    returns (a: nat, b: nat)
    requires i <= j < |xs|
    ensures a < |LeftJoin(xs, ys, on)| && LeftJoin(xs, ys, on)[a].0 == xs[i]
    ensures b < |LeftJoin(xs, ys, on)| && LeftJoin(xs, ys, on)[b].0 == xs[j]
    ensures i < j ==> a < b
  {
    var front, x := xs[..|xs|-1], xs[|xs|-1];
    if j < |front| {
      a, b := LeftJoinKeepsOrder(front, ys, on, i, j);
    } else {
      b := |LeftJoin(front, ys, on)|;
      assert LeftJoin(xs, ys, on)[b] == LeftJoinRow(x, Matches(x, ys, on))[0];
      a := b;
      if i < j {
        var c: nat;
        a, c := LeftJoinKeepsOrder(front, ys, on, i, i);
      }
    }
  }

  /** Without double partners a left join is a lookup: row i of the result is row i of
      the left side with its partner, if it has one. */
  lemma {:induction false} LeftJoinIsLookup<X, Y>(xs: seq<X>, ys: seq<Y>, on: (X, Y) -> bool, i: nat)
    requires AtMostOneMatch(xs, ys, on) && i < |xs|
    ensures |LeftJoin(xs, ys, on)| == |xs|
    ensures LeftJoin(xs, ys, on)[i].0 == xs[i]
    ensures match LeftJoin(xs, ys, on)[i].1
            case Some(y) => y in ys && on(xs[i], y)
            case None => forall y | y in ys :: !on(xs[i], y)
  {
    var front, x := xs[..|xs|-1], xs[|xs|-1];
    assert forall j | 0 <= j < |front| :: front[j] == xs[j];
    LeftJoinKeepsCountIff(xs, ys, on);
    LeftJoinKeepsCountIff(front, ys, on);
    MatchesSize(x, ys, on);
    if i < |front| {
      LeftJoinIsLookup(front, ys, on, i);
    }
  }

  lemma {:induction false} OneMatch<X, Y>(x: X, ys: seq<Y>, on: (X, Y) -> bool)
    requires Unambiguous(x, ys, on) && HasMatch(x, ys, on)
    ensures |Matches(x, ys, on)| == 1 && Matches(x, ys, on)[0] in ys && on(x, Matches(x, ys, on)[0])
    ensures InnerJoinRow(x, Matches(x, ys, on)) == [(x, Matches(x, ys, on)[0])]
  {
    MatchesSize(x, ys, on);
    assert Matches(x, ys, on)[0] in Matches(x, ys, on);
  }

  /** With exactly one partner each, an inner join pairs row i with its partner. */
  lemma {:induction false} InnerJoinIsLookup<X, Y>(xs: seq<X>, ys: seq<Y>, on: (X, Y) -> bool, i: nat)
    requires AtMostOneMatch(xs, ys, on) && i <= |xs|
    requires forall j | 0 <= j < |xs| :: HasMatch(xs[j], ys, on)
    ensures |InnerJoin(xs, ys, on)| == |xs|
    ensures i < |xs| ==> InnerJoin(xs, ys, on)[i].0 == xs[i]
    ensures i < |xs| ==> InnerJoin(xs, ys, on)[i].1 in ys && on(xs[i], InnerJoin(xs, ys, on)[i].1)
  {
    if xs != [] {
      var n := |xs| - 1;
      assert forall j | 0 <= j < n :: xs[..n][j] == xs[j];
      InnerJoinIsLookup(xs[..n], ys, on, if i < n then i else n);
      OneMatch(xs[n], ys, on);
      assert InnerJoin(xs, ys, on) == InnerJoin(xs[..n], ys, on) + [(xs[n], Matches(xs[n], ys, on)[0])];
    }
  }

  // ----- Windows and groupings --------------------------------------------------

  ghost predicate DistinctKeys<R, K>(rows: seq<R>, key: R -> K) {
    forall i, j | 0 <= i < j < |rows| :: key(rows[i]) != key(rows[j])
  }

  ghost predicate HasKey<R, K>(rows: seq<R>, key: R -> K, k: K) {
    exists r :: r in rows && key(r) == k
  }

  /** `row_number() over (partition by key order by before) == 1`: from each partition
      one row that no other row of the partition precedes. */
  ghost predicate RowNumberOne<R, K>(rows: seq<R>, key: R -> K, before: (R, R) -> bool, out: seq<R>) {
    && DistinctKeys(out, key)
    && (forall r | r in out :: r in rows)
    && (forall r, q | r in out && q in rows && key(q) == key(r) :: !before(q, r))
    && (forall q {:trigger HasKey(out, key, key(q))} | q in rows :: HasKey(out, key, key(q)))
  }

  ghost predicate HasGroup<K>(out: seq<(K, int)>, k: K) {
    exists g :: g in out && g.0 == k
  }

  /** `group by key, sum(value)`. */
  ghost predicate GroupBySum<R, K(!new)>(rows: seq<R>, key: R -> K, value: R -> int, out: seq<(K, int)>) {
    && (forall i, j | 0 <= i < j < |out| :: out[i].0 != out[j].0)
    && (forall g | g in out :: g.1 == SumBy(rows, Cell(key, value, g.0)))
    && (forall k {:trigger HasGroup(out, k)} :: HasGroup(out, k) <==> HasKey(rows, key, k))
  }

  /** The contribution of one row to the group of k. */
  function Cell<R, K(==)>(key: R -> K, value: R -> int, k: K): R -> int {
    (r: R) => if key(r) == k then value(r) else 0
  }

  // ----- There is always an output ----------------------------------------------------------

  /** Irreflexive and transitive, as an order by columns is. */
  ghost predicate StrictOrder<R(!new)>(before: (R, R) -> bool) {
    && (forall a :: !before(a, a))
    && (forall a, b, c :: before(a, b) && before(b, c) ==> before(a, c))
  }

  /** A row of a known partition replaces the partition's row or changes nothing. */
  lemma {:induction false} RowOfKnownKey<R(!new), K>(rows: seq<R>, r: R, key: R -> K, before: (R, R) -> bool,
                                                     out: seq<R>, j: nat)
    requires StrictOrder(before) && RowNumberOne(rows, key, before, out) && j < |out| && key(out[j]) == key(r)
    ensures RowNumberOne(rows + [r], key, before, if before(r, out[j]) then out[j := r] else out)
  {
    var more := if before(r, out[j]) then out[j := r] else out;
    assert forall i | 0 <= i < |more| :: key(more[i]) == key(out[i]);
    forall q | q in rows + [r]
      ensures HasKey(more, key, key(q))
    {
      assert q in rows ==> HasKey(out, key, key(q));
      var i :| 0 <= i < |out| && key(out[i]) == key(q);
      assert more[i] in more;
    }
    forall i, q | 0 <= i < |more| && q in rows + [r] && key(q) == key(more[i])
      ensures !before(q, more[i])
    {
      assert out[i] in out && out[j] in out;
      assert i != j ==> key(out[i]) != key(out[j]);
      assert q in rows ==> !before(q, out[i]);
    }
  }

  /** A row of a new partition becomes its row. */
  lemma {:induction false} RowOfNewKey<R(!new), K>(rows: seq<R>, r: R, key: R -> K, before: (R, R) -> bool, out: seq<R>)
    requires StrictOrder(before) && RowNumberOne(rows, key, before, out) && !HasKey(out, key, key(r))
    ensures RowNumberOne(rows + [r], key, before, out + [r])
  {
    var more := out + [r];
    forall q | q in rows + [r]
      ensures HasKey(more, key, key(q))
    {
      if q in rows {
        assert HasKey(out, key, key(q));
        var x :| x in out && key(x) == key(q);
        assert x in more;
      } else {
        assert r in more;
      }
    }
    assert forall q | q in rows :: key(q) != key(r) by {
      forall q | q in rows
        ensures key(q) != key(r)
      {
        assert HasKey(out, key, key(q));
      }
    }
  }

  /** A window over a strict order always has a first row for every partition. */
  lemma {:induction false} RowNumberOneExists<R(!new), K>(rows: seq<R>, key: R -> K, before: (R, R) -> bool)
    returns (out: seq<R>)
    requires StrictOrder(before)
    ensures RowNumberOne(rows, key, before, out)
  {
    if rows == [] {
      out := [];
    } else {
      out := RowNumberOneExists(rows[..|rows|-1], key, before);
      assert rows == rows[..|rows|-1] + [rows[|rows|-1]];
      var r := rows[|rows|-1];
      if HasKey(out, key, key(r)) {
        var j :| 0 <= j < |out| && key(out[j]) == key(r);
        RowOfKnownKey(rows[..|rows|-1], r, key, before, out, j);
        out := if before(r, out[j]) then out[j := r] else out;
      } else {
        RowOfNewKey(rows[..|rows|-1], r, key, before, out);
        out := out + [r];
      }
    }
  }

  /** The keys of a bag, each once. */
  lemma {:induction false} KeysListed<R, K(!new)>(rows: seq<R>, key: R -> K) returns (ks: seq<K>)
    ensures forall i, j | 0 <= i < j < |ks| :: ks[i] != ks[j]
    ensures forall k :: k in ks <==> HasKey(rows, key, k)
  {
    if rows == [] {
      ks := [];
    } else {
      var front, r := rows[..|rows|-1], rows[|rows|-1];
      ks := KeysListed(front, key);
      assert rows == front + [r];
      assert forall k :: HasKey(rows, key, k) <==> HasKey(front, key, k) || k == key(r) by {
        assert r in rows;
      }
      if key(r) !in ks {
        ks := ks + [key(r)];
      }
    }
  }

  lemma {:induction false} GroupBySumExists<R, K(!new)>(rows: seq<R>, key: R -> K, value: R -> int)
    returns (out: seq<(K, int)>)
    ensures GroupBySum(rows, key, value, out)
  {
    var ks := KeysListed(rows, key);
    out := seq(|ks|, i requires 0 <= i < |ks| => (ks[i], SumBy(rows, Cell(key, value, ks[i]))));
    forall k
      ensures HasGroup(out, k) <==> HasKey(rows, key, k)
    {
      if k in ks {
        var i :| 0 <= i < |ks| && ks[i] == k;
        assert out[i] in out;
      }
    }
  }

  /** Adding up the partners of x is one pass over the right side. */
  lemma {:induction false} SumOverMatches<X, Y>(x: X, ys: seq<Y>, on: (X, Y) -> bool, f: Y -> int, g: Y -> int)
    requires forall y | y in ys :: g(y) == if on(x, y) then f(y) else 0
    ensures SumBy(Matches(x, ys, on), f) == SumBy(ys, g)
  {
    var p := y => on(x, y);
    SumByFilter(ys, p, g);
    SumByExt(Filter(ys, p), f, g);
  }

  // ----- Grouped sums against one-pass sums ---------------------------------------

  ghost function KeysOf<R, K>(rows: seq<R>, key: R -> K, p: R -> bool): set<K> {
    set r | r in rows && p(r) :: key(r)
  }

  /** When the rows passing p have distinct keys, summing over rows is summing over keys. */
  lemma {:induction false} SumByDistinct<R, K>(rows: seq<R>, key: R -> K, p: R -> bool, f: R -> int, g: K -> int)
    requires forall i, j | 0 <= i < j < |rows| && p(rows[i]) && p(rows[j]) :: key(rows[i]) != key(rows[j])
    requires forall r | r in rows :: f(r) == if p(r) then g(key(r)) else 0
    ensures SumBy(rows, f) == SumSet(KeysOf(rows, key, p), g)
  {
    if rows == [] {
      assert KeysOf(rows, key, p) == {};
    } else {
      var front, last := rows[..|rows|-1], rows[|rows|-1];
      assert rows == front + [last];
      SumByDistinct(front, key, p, f, g);
      var ks := KeysOf(front, key, p);
      if p(last) {
        forall r | r in front && p(r)
          ensures key(r) != key(last)
        {
          var i :| 0 <= i < |front| && front[i] == r;
          assert rows[i] == r;
        }
        assert KeysOf(rows, key, p) == ks + {key(last)};
        SumSetRemove(ks + {key(last)}, key(last), g);
        assert ks + {key(last)} - {key(last)} == ks;
      } else {
        assert KeysOf(rows, key, p) == ks;
      }
    }
  }

  /** Group first and add up the groups that pass a test on their key, or add up the rows in
      one pass: the same number, for every grouping the engine may produce. */
  lemma {:induction false} GroupedSumIsOnePass<R, K(!new)>(rows: seq<R>, key: R -> K, value: R -> int,
                                                           out: seq<(K, int)>, p: K -> bool,
                                                           overGroups: ((K, int)) -> int, overRows: R -> int)
    requires GroupBySum(rows, key, value, out)
    requires forall g | g in out :: overGroups(g) == if p(g.0) then g.1 else 0
    requires forall r | r in rows :: overRows(r) == if p(key(r)) then value(r) else 0
    ensures SumBy(out, overGroups) == SumBy(rows, overRows)
  {
    var groupKey := (g: (K, int)) => g.0;
    var passes := (g: (K, int)) => p(g.0);
    var total := (k: K) => SumBy(rows, Cell(key, value, k));
    var ks := KeysOf(out, groupKey, passes);
    SumByDistinct(out, groupKey, passes, overGroups, total);
    var column := (k: K) => Cell(key, value, k);
    var line := (r: R) => (k: K) => Cell(key, value, k)(r);
    forall r | r in rows
      ensures overRows(r) == SumSet(ks, line(r))
    {
      SumSetPoint(ks, key(r), line(r));
      assert HasKey(rows, key, key(r)) && HasGroup(out, key(r));
      var g :| g in out && g.0 == key(r);
      assert key(r) in ks <==> p(key(r)) by {
        if p(key(r)) { assert passes(g) && groupKey(g) == key(r); }
      }
    }
    SumOfGroups(rows, ks, column, line, total, overRows);
  }
}
