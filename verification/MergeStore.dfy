/** The keyed upsert every stored table goes through, as it acts on a bag of rows, and the
    map it amounts to when keys are unique. */
module MergeStore {
  import opened Prelude

  datatype MergeError = NullMergeKeys | DuplicateMergeKeys | AmbiguousMatch

  /** The merge key of a row; None when one of its columns is null. */
  type KeyOf<!R, !K> = R -> Option<K>

  // ----- Bags of rows ---------------------------------------------------------------------

  predicate NoNullKeys<R, K>(rows: seq<R>, key: KeyOf<R, K>) {
    forall i | 0 <= i < |rows| :: key(rows[i]).Some?
  }

  predicate UniqueKeys<R, K(==)>(rows: seq<R>, key: KeyOf<R, K>) {
    forall i, j | 0 <= i < j < |rows| :: key(rows[i]) != key(rows[j])
  }

  predicate Keyed<R, K(==)>(rows: seq<R>, key: KeyOf<R, K>) {
    NoNullKeys(rows, key) && UniqueKeys(rows, key)
  }

  /** The rows of df that match key k. A null key matches nothing. */
  function Sources<R, K(==)>(df: seq<R>, key: KeyOf<R, K>, k: Option<K>): seq<R> {
    if df == [] then []
    else Sources(df[..|df|-1], key, k) + if k.Some? && key(df[|df|-1]) == k then [df[|df|-1]] else []
  }

  /** whenMatchedUpdateAll. */
  function Updated<R, K(==)>(rows: seq<R>, df: seq<R>, key: KeyOf<R, K>): (out: seq<R>)
    ensures |out| == |rows|
  {
    if rows == [] then []
    else
      var last := rows[|rows|-1];
      var sources := Sources(df, key, key(last));
      Updated(rows[..|rows|-1], df, key) + [if sources == [] then last else sources[|sources|-1]]
  }

  /** whenNotMatchedInsertAll. */
  function Inserted<R, K(==)>(rows: seq<R>, df: seq<R>, key: KeyOf<R, K>): seq<R> {
    if df == [] then []
    else Inserted(rows, df[..|df|-1], key) + if Sources(rows, key, key(df[|df|-1])) == [] then [df[|df|-1]] else []
  }

  predicate Ambiguous<R, K(==)>(rows: seq<R>, df: seq<R>, key: KeyOf<R, K>) {
    exists i | 0 <= i < |rows| :: |Sources(df, key, key(rows[i]))| >= 2
  }

  /** The merge: null keys are rejected, duplicate source keys when the check is switched on,
      and a target row with two source rows makes the engine give up. */
  function Merge<R, K(==)>(rows: seq<R>, df: seq<R>, key: KeyOf<R, K>, checkUnique: bool): Result<seq<R>, MergeError> {
    if !NoNullKeys(df, key) then Err(NullMergeKeys)
    else if checkUnique && !UniqueKeys(df, key) then Err(DuplicateMergeKeys)
    else if Ambiguous(rows, df, key) then Err(AmbiguousMatch)
    else Ok(Updated(rows, df, key) + Inserted(rows, df, key))
  }

  // ----- The map of a keyed bag ---------------------------------------------------------------

  function AsMap<R, K(==)>(rows: seq<R>, key: KeyOf<R, K>): map<K, R> {
    if rows == [] then map[]
    else
      var rest := AsMap(rows[..|rows|-1], key);
      var k := key(rows[|rows|-1]);
      if k.Some? then rest[k.value := rows[|rows|-1]] else rest
  }

  lemma {:induction false} AsMapIs<R, K>(rows: seq<R>, key: KeyOf<R, K>)
    requires Keyed(rows, key)
    ensures forall k | k in AsMap(rows, key) :: AsMap(rows, key)[k] in rows && key(AsMap(rows, key)[k]) == Some(k)
    ensures forall i | 0 <= i < |rows| ::
            key(rows[i]).value in AsMap(rows, key) && AsMap(rows, key)[key(rows[i]).value] == rows[i]
  {
    if rows != [] {
      var front := rows[..|rows|-1];
      assert forall i | 0 <= i < |front| :: front[i] == rows[i];
      AsMapIs(front, key);
    }
  }

  /** A keyed bag is the map that holds its rows and no other key. */
  lemma {:induction false} KeyedRowsAre<R, K>(rows: seq<R>, key: KeyOf<R, K>, m: map<K, R>)
    requires Keyed(rows, key)
    requires forall i | 0 <= i < |rows| :: key(rows[i]).value in m && m[key(rows[i]).value] == rows[i]
    requires forall k | k in m :: HoldsKey(rows, key, Some(k))
    ensures AsMap(rows, key) == m
  {
    AsMapIs(rows, key);
    forall k | k in AsMap(rows, key)
      ensures k in m && m[k] == AsMap(rows, key)[k]
    {
      var i :| 0 <= i < |rows| && rows[i] == AsMap(rows, key)[k];
    }
    forall k | k in m
      ensures k in AsMap(rows, key)
    {
      var i :| 0 <= i < |rows| && key(rows[i]) == Some(k);
    }
    assert AsMap(rows, key).Keys == m.Keys;
  }

  ghost predicate HoldsKey<R, K>(rows: seq<R>, key: KeyOf<R, K>, k: Option<K>) {
    exists i :: 0 <= i < |rows| && key(rows[i]) == k
  }

  lemma {:induction false} SourcesAre<R, K>(df: seq<R>, key: KeyOf<R, K>, k: Option<K>)
    requires k.Some?
    ensures forall r | r in Sources(df, key, k) :: r in df && key(r) == k
    ensures Sources(df, key, k) == [] <==> forall i | 0 <= i < |df| :: key(df[i]) != k
    ensures UniqueKeys(df, key) ==> |Sources(df, key, k)| <= 1
  {
    if df != [] {
      var front := df[..|df|-1];
      assert forall i | 0 <= i < |front| :: front[i] == df[i];
      SourcesAre(front, key, k);
    }
  }

  lemma {:induction false} UpdatedIs<R, K>(rows: seq<R>, df: seq<R>, key: KeyOf<R, K>, i: nat)
    requires i < |rows| && key(rows[i]).Some?
    ensures key(Updated(rows, df, key)[i]) == key(rows[i])
    ensures Updated(rows, df, key)[i] == rows[i] || Updated(rows, df, key)[i] in df
    ensures (forall j | 0 <= j < |df| :: key(df[j]) != key(rows[i])) ==> Updated(rows, df, key)[i] == rows[i]
    ensures (exists j :: 0 <= j < |df| && key(df[j]) == key(rows[i])) ==> Updated(rows, df, key)[i] in df
  {
    SourcesAre(df, key, key(rows[i]));
    if i < |rows| - 1 {
      UpdatedIs(rows[..|rows|-1], df, key, i);
    }
  }

  lemma {:induction false} InsertedIs<R, K>(rows: seq<R>, df: seq<R>, key: KeyOf<R, K>)
    requires NoNullKeys(df, key)
    ensures forall r | r in Inserted(rows, df, key) :: r in df && forall i | 0 <= i < |rows| :: key(rows[i]) != key(r)
    ensures UniqueKeys(df, key) ==> UniqueKeys(Inserted(rows, df, key), key)
  {
    if df != [] {
      var front, last := df[..|df|-1], df[|df|-1];
      assert forall j | 0 <= j < |front| :: front[j] == df[j];
      InsertedIs(rows, front, key);
      SourcesAre(rows, key, key(last));
      if UniqueKeys(df, key) {
        forall r | r in Inserted(rows, front, key)
          ensures key(r) != key(last)
        {
          var j :| 0 <= j < |front| && front[j] == r;
          assert df[j] == r;
        }
      }
    }
  }

  lemma {:induction false} InsertedHas<R, K>(rows: seq<R>, df: seq<R>, key: KeyOf<R, K>, j: nat) returns (n: nat)
    requires j < |df| && Sources(rows, key, key(df[j])) == []
    ensures n < |Inserted(rows, df, key)| && Inserted(rows, df, key)[n] == df[j]
    ensures j < |df| - 1 ==> n < |Inserted(rows, df[..|df|-1], key)|
    ensures j == |df| - 1 ==> n == |Inserted(rows, df[..|df|-1], key)|
  {
    var front := df[..|df|-1];
    if j < |front| {
      n := InsertedHas(rows, front, key, j);
    } else {
      n := |Inserted(rows, front, key)|;
    }
  }

  /** Refinement: on keyed rows, merging keyed rows succeeds, keeps the table keyed, and is the
      override of one map by the other. */
  lemma {:induction false} MergeIsOverride<R, K>(rows: seq<R>, df: seq<R>, key: KeyOf<R, K>, checkUnique: bool)
    requires Keyed(rows, key) && Keyed(df, key)
    ensures Merge(rows, df, key, checkUnique).Ok?
    ensures Keyed(Merge(rows, df, key, checkUnique).value, key)
    ensures AsMap(Merge(rows, df, key, checkUnique).value, key) == AsMap(rows, key) + AsMap(df, key)
  {
    forall i | 0 <= i < |rows|
      ensures |Sources(df, key, key(rows[i]))| < 2
    {
      SourcesAre(df, key, key(rows[i]));
    }
    var out := Updated(rows, df, key) + Inserted(rows, df, key);
    MergedIsKeyed(rows, df, key);
    AsMapIs(rows, key);
    AsMapIs(df, key);
    AsMapIs(out, key);
    var left, right := AsMap(out, key), AsMap(rows, key) + AsMap(df, key);
    forall k | k in right
      ensures k in left && left[k] == right[k]
    {
      MergedHas(rows, df, key, right[k]);
      var n :| 0 <= n < |out| && out[n] == right[k];
    }
    forall k | k in left
      ensures k in right
    {
      MergedFrom(rows, df, key, left[k]);
    }
    assert left.Keys == right.Keys;
  }

  lemma {:induction false} MergedIsKeyed<R, K>(rows: seq<R>, df: seq<R>, key: KeyOf<R, K>)
    requires Keyed(rows, key) && Keyed(df, key)
    ensures Keyed(Updated(rows, df, key) + Inserted(rows, df, key), key)
  {
    var updated, inserted := Updated(rows, df, key), Inserted(rows, df, key);
    forall i | 0 <= i < |rows|
      ensures key(updated[i]) == key(rows[i])
    {
      UpdatedIs(rows, df, key, i);
    }
    InsertedIs(rows, df, key);
    var out := updated + inserted;
    forall i | 0 <= i < |out|
      ensures key(out[i]).Some?
    {
      if i >= |updated| { assert inserted[i - |updated|] in inserted; }
    }
    forall i, j | 0 <= i < j < |out|
      ensures key(out[i]) != key(out[j])
    {
      if j >= |updated| {
        assert out[j] == inserted[j - |updated|] && out[j] in inserted;
        if i >= |updated| { assert out[i] == inserted[i - |updated|]; }
      }
    }
  }

  /** A row of the override is in the merged bag. */
  lemma {:induction false} MergedHas<R, K>(rows: seq<R>, df: seq<R>, key: KeyOf<R, K>, r: R)
    requires Keyed(rows, key) && Keyed(df, key)
    requires r in df || (r in rows && forall j | 0 <= j < |df| :: key(df[j]) != key(r))
    ensures r in Updated(rows, df, key) + Inserted(rows, df, key)
  {
    if r in df {
      var j :| 0 <= j < |df| && df[j] == r;
      if i :| 0 <= i < |rows| && key(rows[i]) == key(r) {
        UpdatedIs(rows, df, key, i);
        var n :| 0 <= n < |df| && df[n] == Updated(rows, df, key)[i];
        assert n == j;
      } else {
        SourcesAre(rows, key, key(r));
        var n := InsertedHas(rows, df, key, j);
      }
    } else {
      var i :| 0 <= i < |rows| && rows[i] == r;
      UpdatedIs(rows, df, key, i);
    }
  }

  lemma {:induction false} MergedFrom<R, K>(rows: seq<R>, df: seq<R>, key: KeyOf<R, K>, r: R)
    requires Keyed(rows, key) && Keyed(df, key)
    requires r in Updated(rows, df, key) + Inserted(rows, df, key)
    ensures exists q :: (q in rows || q in df) && key(q) == key(r)
  {
    var updated := Updated(rows, df, key);
    InsertedIs(rows, df, key);
    if r in updated {
      var i :| 0 <= i < |updated| && updated[i] == r;
      UpdatedIs(rows, df, key, i);
      assert rows[i] in rows;
    }
  }

  /** With the uniqueness check switched off, a merge that goes through leaves a keyed table
      keyed exactly when the source had unique keys: twins without a target row are both inserted. */
  lemma {:induction false} MergeKeepsKeysIff<R, K>(rows: seq<R>, df: seq<R>, key: KeyOf<R, K>)
    requires Keyed(rows, key) && Merge(rows, df, key, false).Ok?
    ensures Keyed(Merge(rows, df, key, false).value, key) <==> Keyed(df, key)
  {
    if Keyed(df, key) {
      MergeIsOverride(rows, df, key, false);
    } else {
      var i, j :| 0 <= i < j < |df| && key(df[i]) == key(df[j]);
      assert !(exists n :: 0 <= n < |rows| && key(rows[n]) == key(df[i])) by {
        if n :| 0 <= n < |rows| && key(rows[n]) == key(df[i]) {
          TwoSources(df, key, key(rows[n]), i, j);
        }
      }
      TwoInserted(rows, df, key, i, j);
      var a, b :| 0 <= a < b < |Inserted(rows, df, key)| && key(Inserted(rows, df, key)[a])
          == key(Inserted(rows, df, key)[b]);
      var out := Updated(rows, df, key) + Inserted(rows, df, key);
      assert out[|rows| + a] == Inserted(rows, df, key)[a] && out[|rows| + b] == Inserted(rows, df, key)[b];
    }
  }

  lemma {:induction false} SourcesGrow<R, K>(df: seq<R>, key: KeyOf<R, K>, k: Option<K>)
    requires k.Some? && df != []
    ensures |Sources(df, key, k)|
            == |Sources(df[..|df|-1], key, k)| + if key(df[|df|-1]) == k then 1 else 0
  {
  }

  lemma {:induction false} OneSource<R, K>(df: seq<R>, key: KeyOf<R, K>, k: Option<K>, i: nat)
    requires k.Some? && i < |df| && key(df[i]) == k
    ensures |Sources(df, key, k)| >= 1
  {
    SourcesGrow(df, key, k);
    if i < |df| - 1 {
      OneSource(df[..|df|-1], key, k, i);
    }
  }

  lemma {:induction false} TwoSources<R, K>(df: seq<R>, key: KeyOf<R, K>, k: Option<K>, i: nat, j: nat)
    requires k.Some? && i < j < |df| && key(df[i]) == k && key(df[j]) == k
    ensures |Sources(df, key, k)| >= 2
  {
    SourcesGrow(df, key, k);
    if j < |df| - 1 {
      TwoSources(df[..|df|-1], key, k, i, j);
    } else {
      OneSource(df[..|df|-1], key, k, i);
    }
  }

  lemma {:induction false} TwoInserted<R, K>(rows: seq<R>, df: seq<R>, key: KeyOf<R, K>, i: nat, j: nat)
    requires NoNullKeys(df, key) && i < j < |df| && key(df[i]) == key(df[j])
    requires forall n | 0 <= n < |rows| :: key(rows[n]) != key(df[i])
    ensures exists a, b ::
              && 0 <= a < b < |Inserted(rows, df, key)|
              && key(Inserted(rows, df, key)[a]) == key(Inserted(rows, df, key)[b])
  {
    SourcesAre(rows, key, key(df[i]));
    var front := df[..|df|-1];
    if j < |front| {
      TwoInserted(rows, front, key, i, j);
      var a, b :| 0 <= a < b < |Inserted(rows, front, key)|
          && key(Inserted(rows, front, key)[a]) == key(Inserted(rows, front, key)[b]);
      assert Inserted(rows, df, key)[a] == Inserted(rows, front, key)[a]
          && Inserted(rows, df, key)[b] == Inserted(rows, front, key)[b];
    } else {
      var a := InsertedHas(rows, df, key, i);
      var b := InsertedHas(rows, df, key, j);
    }
  }

  // ----- When a merge goes through ---------------------------------------------------------

  ghost predicate TwinsAt<R, K>(df: seq<R>, key: KeyOf<R, K>, k: Option<K>, i: int, j: int) {
    0 <= i < j < |df| && k.Some? && key(df[i]) == k && key(df[j]) == k
  }

  /** Two source rows share the key of a target row. */
  ghost predicate TwinsMeetTarget<R, K>(rows: seq<R>, df: seq<R>, key: KeyOf<R, K>) {
    exists n, i, j :: 0 <= n < |rows| && TwinsAt(df, key, key(rows[n]), i, j)
  }

  lemma {:induction false} SourceTwins<R, K>(df: seq<R>, key: KeyOf<R, K>, k: Option<K>) returns (i: nat, j: nat)
    requires |Sources(df, key, k)| >= 2
    ensures TwinsAt(df, key, k, i, j)
  {
    var front, n := df[..|df|-1], |df| - 1;
    if |Sources(front, key, k)| >= 2 {
      i, j := SourceTwins(front, key, k);
    } else {
      SourcesAre(front, key, k);
      i :| 0 <= i < |front| && key(front[i]) == k;
      j := n;
    }
  }

  /** A merge without the uniqueness check is refused exactly for a null source key and for two
      source rows that share the key of a target row. */
  lemma {:induction false} MergeSucceedsIff<R, K>(rows: seq<R>, df: seq<R>, key: KeyOf<R, K>)
    ensures Merge(rows, df, key, false).Ok? <==> NoNullKeys(df, key) && !TwinsMeetTarget(rows, df, key)
  {
    if n :| 0 <= n < |rows| && |Sources(df, key, key(rows[n]))| >= 2 {
      var i, j := SourceTwins(df, key, key(rows[n]));
    }
    if n, i, j :| 0 <= n < |rows| && TwinsAt(df, key, key(rows[n]), i, j) {
      TwoSources(df, key, key(rows[n]), i, j);
    }
  }

  /** Every row of df has its key among the rows. */
  ghost predicate KeysHeld<R, K>(rows: seq<R>, df: seq<R>, key: KeyOf<R, K>) {
    forall j | 0 <= j < |df| :: HoldsKey(rows, key, key(df[j]))
  }

  /** Where the target holds every key of the source, a merge goes through exactly for a keyed source. */
  lemma {:induction false} HeldMergeSucceedsIff<R, K>(rows: seq<R>, df: seq<R>, key: KeyOf<R, K>)
    requires KeysHeld(rows, df, key)
    ensures Merge(rows, df, key, false).Ok? <==> Keyed(df, key)
  {
    MergeSucceedsIff(rows, df, key);
    if i, j :| 0 <= i < j < |df| && key(df[i]) == key(df[j]) && key(df[i]).Some? {
      assert HoldsKey(rows, key, key(df[i]));
      var n :| 0 <= n < |rows| && key(rows[n]) == key(df[i]);
      assert TwinsAt(df, key, key(rows[n]), i, j);
    }
  }

  lemma {:induction false} HeldInEither<R, K>(a: seq<R>, b: seq<R>, key: KeyOf<R, K>, k: Option<K>)
    requires HoldsKey(a, key, k) || HoldsKey(b, key, k)
    ensures HoldsKey(a + b, key, k)
  {
    if i :| 0 <= i < |a| && key(a[i]) == k {
      assert key((a + b)[i]) == k;
    } else {
      var i :| 0 <= i < |b| && key(b[i]) == k;
      assert key((a + b)[|a| + i]) == k;
    }
  }

  lemma {:induction false} MergedHoldsKey<R, K>(rows: seq<R>, df: seq<R>, key: KeyOf<R, K>, j: nat)
    requires NoNullKeys(df, key) && j < |df|
    ensures HoldsKey(Updated(rows, df, key) + Inserted(rows, df, key), key, key(df[j]))
  {
    SourcesAre(rows, key, key(df[j]));
    if Sources(rows, key, key(df[j])) == [] {
      var n := InsertedHas(rows, df, key, j);
    } else {
      var i :| 0 <= i < |rows| && key(rows[i]) == key(df[j]);
      UpdatedIs(rows, df, key, i);
    }
    HeldInEither(Updated(rows, df, key), Inserted(rows, df, key), key, key(df[j]));
  }

  /** A merge leaves every key of its source in the target. */
  lemma {:induction false} MergedHoldsKeys<R, K>(rows: seq<R>, df: seq<R>, key: KeyOf<R, K>)
    requires Merge(rows, df, key, false).Ok?
    ensures KeysHeld(Merge(rows, df, key, false).value, df, key)
  {
    forall j | 0 <= j < |df|
      ensures HoldsKey(Updated(rows, df, key) + Inserted(rows, df, key), key, key(df[j]))
    {
      MergedHoldsKey(rows, df, key, j);
    }
  }

  /** After a merge that went through, another source with no other keys goes through exactly when it is
      keyed: twins inserted the first time meet themselves. */
  lemma {:induction false} MergeNextIff<R, K>(rows: seq<R>, df: seq<R>, next: seq<R>, key: KeyOf<R, K>)
    requires Merge(rows, df, key, false).Ok? && KeysHeld(df, next, key)
    ensures Merge(Merge(rows, df, key, false).value, next, key, false).Ok? <==> Keyed(next, key)
  {
    var merged := Merge(rows, df, key, false).value;
    MergedHoldsKeys(rows, df, key);
    KeysHeldThrough(merged, df, next, key);
    HeldMergeSucceedsIff(merged, next, key);
  }

  lemma {:induction false} KeysHeldThrough<R, K>(rows: seq<R>, df: seq<R>, next: seq<R>, key: KeyOf<R, K>)
    requires KeysHeld(rows, df, key) && KeysHeld(df, next, key)
    ensures KeysHeld(rows, next, key)
  {
    forall j | 0 <= j < |next|
      ensures HoldsKey(rows, key, key(next[j]))
    {
      assert HoldsKey(df, key, key(next[j]));
      var i :| 0 <= i < |df| && key(df[i]) == key(next[j]);
      assert HoldsKey(rows, key, key(df[i]));
    }
  }

  lemma {:induction false} KeysHeldBySelf<R, K>(df: seq<R>, key: KeyOf<R, K>)
    ensures KeysHeld(df, df, key)
  {
  }

  /** A merge that went through goes through again exactly when its source is keyed. */
  lemma {:induction false} MergeAgainIff<R, K>(rows: seq<R>, df: seq<R>, key: KeyOf<R, K>)
    requires Merge(rows, df, key, false).Ok?
    ensures Merge(Merge(rows, df, key, false).value, df, key, false).Ok? <==> Keyed(df, key)
  {
    KeysHeldBySelf(df, key);
    MergeNextIff(rows, df, df, key);
  }

  // ----- Keys of collected rows ---------------------------------------------------------------

  ghost predicate CollectsKey<T, R, K>(s: seq<T>, f: T -> Option<R>, key: KeyOf<R, K>, k: Option<K>) {
    exists i :: 0 <= i < |s| && f(s[i]).Some? && key(f(s[i]).value) == k
  }

  lemma {:induction false} CollectedHoldsKey<T, R, K>(s: seq<T>, f: T -> Option<R>, key: KeyOf<R, K>, k: Option<K>)
    ensures HoldsKey(Collect(s, f), key, k) <==> CollectsKey(s, f, key, k)
  {
    if s != [] {
      var front, last := s[..|s|-1], s[|s|-1];
      CollectedHoldsKey(front, f, key, k);
      if i :| 0 <= i < |front| && f(front[i]).Some? && key(f(front[i]).value) == k {
        assert f(s[i]).Some?;
      }
      if i :| 0 <= i < |Collect(front, f)| && key(Collect(front, f)[i]) == k {
        assert key(Collect(s, f)[i]) == k;
      }
      if f(last).Some? {
        assert Collect(s, f)[|Collect(front, f)|] == f(last).value;
      }
    }
  }

  /** No two records yield rows of one key. */
  ghost predicate DistinctSources<T, R, K>(s: seq<T>, f: T -> Option<R>, key: KeyOf<R, K>) {
    forall i, j | 0 <= i < j < |s| && f(s[i]).Some? && f(s[j]).Some? :: key(f(s[i]).value) != key(f(s[j]).value)
  }

  /** Collected rows have unique keys exactly when no two records yield one key. */
  lemma {:induction false} CollectedUniqueIff<T, R, K>(s: seq<T>, f: T -> Option<R>, key: KeyOf<R, K>)
    ensures UniqueKeys(Collect(s, f), key) <==> DistinctSources(s, f, key)
  {
    if s != [] {
      var front, last := s[..|s|-1], s[|s|-1];
      CollectedUniqueIff(front, f, key);
      DistinctStep(front, last, f, key);
      assert s == front + [last];
      if f(last).Some? {
        CollectedHoldsKey(front, f, key, key(f(last).value));
        UniqueStep(Collect(front, f), f(last).value, key);
      } else {
        assert Collect(s, f) == Collect(front, f);
      }
    }
  }

  lemma {:induction false} DistinctStep<T, R, K>(s: seq<T>, last: T, f: T -> Option<R>, key: KeyOf<R, K>)
    ensures DistinctSources(s + [last], f, key)
            <==> DistinctSources(s, f, key) && (f(last).Some? ==> !CollectsKey(s, f, key, key(f(last).value)))
  {
    var all := s + [last];
    assert forall i | 0 <= i < |s| :: all[i] == s[i];
    if DistinctSources(all, f, key) && f(last).Some? {
      forall i | 0 <= i < |s| && f(s[i]).Some?
        ensures key(f(s[i]).value) != key(f(last).value)
      {
        assert key(f(all[i]).value) != key(f(all[|s|]).value);
      }
    }
  }

  lemma {:induction false} UniqueStep<R, K>(rows: seq<R>, r: R, key: KeyOf<R, K>)
    ensures UniqueKeys(rows + [r], key) <==> UniqueKeys(rows, key) && !HoldsKey(rows, key, key(r))
  {
    var all := rows + [r];
    assert forall i | 0 <= i < |rows| :: all[i] == rows[i];
    if UniqueKeys(all, key) {
      forall i | 0 <= i < |rows|
        ensures key(rows[i]) != key(r)
      {
        assert key(all[i]) != key(all[|rows|]);
      }
    }
  }

  lemma {:induction false} SameKeysSameUniqueness<R, K>(a: seq<R>, b: seq<R>, key: KeyOf<R, K>)
    requires |a| == |b| && forall i | 0 <= i < |a| :: key(a[i]) == key(b[i])
    ensures UniqueKeys(a, key) <==> UniqueKeys(b, key)
  {
  }

  // ----- A stored table ----------------------------------------------------------------------

  /** What an upsert leaves of a table, None standing for a table not created yet: the first write
      creates it unchecked, later writes merge. */
  function UpsertTo<R, K(==)>(table: Option<seq<R>>, df: seq<R>, key: KeyOf<R, K>, checkUnique: bool)
    : Result<Option<seq<R>>, MergeError>
  {
    if table.None? then Ok(Some(df))
    else
      var merged := Merge(table.value, df, key, checkUnique);
      if merged.Ok? then Ok(Some(merged.value)) else Err(merged.error)
  }

  /** Gold writes skip an empty frame. */
  function WriteTo<R, K(==)>(table: Option<seq<R>>, df: seq<R>, key: KeyOf<R, K>, checkUnique: bool)
    : Result<Option<seq<R>>, MergeError>
  {
    if |df| == 0 then Ok(table) else UpsertTo(table, df, key, checkUnique)
  }

  ghost predicate KeyedTable<R, K>(table: Option<seq<R>>, key: KeyOf<R, K>) {
    table.Some? ==> Keyed(table.value, key)
  }

  function TableMap<R, K(==)>(table: Option<seq<R>>, key: KeyOf<R, K>): map<K, R> {
    if table.Some? then AsMap(table.value, key) else map[]
  }

  /** The result of a write to `table` that stored df in a keyed table as a map. */
  ghost predicate Overrides<R, K>(written: Result<Option<seq<R>>, MergeError>, table: Option<seq<R>>, df: seq<R>,
                                  key: KeyOf<R, K>) {
    && written.Ok? && KeyedTable(written.value, key)
    && TableMap(written.value, key) == TableMap(table, key) + AsMap(df, key)
  }

  /** Writing keyed rows to a keyed table is never refused, keeps it keyed, and overrides it. */
  lemma {:induction false} WriteIsOverride<R, K>(table: Option<seq<R>>, df: seq<R>, key: KeyOf<R, K>, checkUnique: bool)
    requires KeyedTable(table, key) && Keyed(df, key)
    ensures Overrides(UpsertTo(table, df, key, checkUnique), table, df, key)
    ensures Overrides(WriteTo(table, df, key, checkUnique), table, df, key)
  {
    if df == [] {
      assert TableMap(table, key) == TableMap(table, key) + AsMap(df, key);
    }
    if table.Some? {
      MergeIsOverride(table.value, df, key, checkUnique);
    } else {
      assert AsMap(df, key) == map[] + AsMap(df, key);
    }
  }

  /** The retry law: after an upsert that went through, one with no other keys goes through exactly when
      its rows are keyed, whatever the table held. */
  lemma {:induction false} UpsertNextIff<R, K>(table: Option<seq<R>>, df: seq<R>, next: seq<R>, key: KeyOf<R, K>)
    requires UpsertTo(table, df, key, false).Ok? && KeysHeld(df, next, key)
    ensures UpsertTo(UpsertTo(table, df, key, false).value, next, key, false).Ok? <==> Keyed(next, key)
  {
    if table.Some? {
      MergeNextIff(table.value, df, next, key);
    } else {
      HeldMergeSucceedsIff(df, next, key);
    }
  }

  lemma {:induction false} UpsertAgainIff<R, K>(table: Option<seq<R>>, df: seq<R>, key: KeyOf<R, K>)
    requires UpsertTo(table, df, key, false).Ok?
    ensures UpsertTo(UpsertTo(table, df, key, false).value, df, key, false).Ok? <==> Keyed(df, key)
  {
    KeysHeldBySelf(df, key);
    UpsertNextIff(table, df, df, key);
  }

  /** The retry law of a gold write, which skips an empty frame. */
  lemma {:induction false} WriteNextIff<R, K>(table: Option<seq<R>>, df: seq<R>, next: seq<R>, key: KeyOf<R, K>)
    requires WriteTo(table, df, key, false).Ok? && KeysHeld(df, next, key)
    ensures WriteTo(WriteTo(table, df, key, false).value, next, key, false).Ok? <==> Keyed(next, key)
  {
    if next != [] {
      assert HoldsKey(df, key, key(next[0]));
      UpsertNextIff(table, df, next, key);
    }
  }

  /** So a write that went through goes through again exactly when its rows are keyed. */
  lemma {:induction false} WriteAgainIff<R, K>(table: Option<seq<R>>, df: seq<R>, key: KeyOf<R, K>)
    requires WriteTo(table, df, key, false).Ok?
    ensures WriteTo(WriteTo(table, df, key, false).value, df, key, false).Ok? <==> Keyed(df, key)
  {
    KeysHeldBySelf(df, key);
    WriteNextIff(table, df, df, key);
  }

  class DeltaTable<R(==), K(==)> {
    var present: bool
    var rows: seq<R>
    const key: KeyOf<R, K>

    constructor (key: KeyOf<R, K>)
      ensures !present && rows == [] && this.key == key
    {
      present, rows := false, [];
      this.key := key;
    }

    /** merge_delta_table: all checks before the engine's merge; a refused merge changes nothing. */
    method MergeDelta(df: seq<R>, checkUnique: bool) returns (r: Result<(), MergeError>)
      modifies this
      ensures present == old(present)
      ensures r.Ok? <==> Merge(old(rows), df, key, checkUnique).Ok?
      ensures r.Ok? ==> rows == Merge(old(rows), df, key, checkUnique).value
      ensures r.Err? ==> rows == old(rows) && r.error == Merge(old(rows), df, key, checkUnique).error
    {
      if exists i | 0 <= i < |df| :: key(df[i]).None? {
        return Err(NullMergeKeys);
      }
      if checkUnique {
        if exists i, j | 0 <= i < |df| && 0 <= j < |df| :: i < j && key(df[i]) == key(df[j]) {
          return Err(DuplicateMergeKeys);
        }
      }
      if exists i | 0 <= i < |rows| :: |Sources(df, key, key(rows[i]))| >= 2 {
        return Err(AmbiguousMatch);
      }
      rows := Updated(rows, df, key) + Inserted(rows, df, key);
      return Ok(());
    }

    /** The table as a value. */
    function Stored(): Option<seq<R>>
      reads this
    {
      if present then Some(rows) else None
    }

    /** write_silver_delta, and write_gold_delta for tables with merge keys. A refused write changes
        nothing. */
    method Upsert(df: seq<R>, checkUnique: bool) returns (r: Result<(), MergeError>)
      requires !present ==> rows == []
      modifies this
      ensures !present ==> rows == []
      ensures r.Ok? <==> UpsertTo(old(Stored()), df, key, checkUnique).Ok?
      ensures r.Ok? ==> Stored() == UpsertTo(old(Stored()), df, key, checkUnique).value
      ensures r.Err? ==> Stored() == old(Stored()) && r.error == UpsertTo(old(Stored()), df, key, checkUnique).error
    {
      if !present {
        present, rows := true, df;
        return Ok(());
      }
      r := MergeDelta(df, checkUnique);
    }

    /** _write_gold_df: nothing to write leaves the table alone. */
    method Write(df: seq<R>, checkUnique: bool) returns (r: Result<(), MergeError>)
      requires !present ==> rows == []
      modifies this
      ensures !present ==> rows == []
      ensures r.Ok? <==> WriteTo(old(Stored()), df, key, checkUnique).Ok?
      ensures r.Ok? ==> Stored() == WriteTo(old(Stored()), df, key, checkUnique).value
      ensures r.Err? ==> Stored() == old(Stored()) && r.error == WriteTo(old(Stored()), df, key, checkUnique).error
    {
      if df == [] {
        return Ok(());
      }
      r := Upsert(df, checkUnique);
    }
  }
}
