/** Layered configuration: a common file, an environment file merged over it, and environment
    variables written into the result, each at a path that must already exist. */
module ConfigTree {
  import opened Prelude

  datatype Scalar = Null | Bool(b: bool) | Number(n: int) | Text(s: string) | List(items: seq<Scalar>)

  /** A mapping is a node; everything else, lists included, is a leaf. */
  datatype Tree = Leaf(value: Scalar) | Node(entries: map<string, Tree>)

  type Mapping = map<string, Tree>
  type Path = seq<string>

  function Lookup(t: Tree, path: Path): Option<Tree> {
    if path == [] then Some(t)
    else if t.Node? && path[0] in t.entries then Lookup(t.entries[path[0]], path[1..])
    else None
  }

  /** Reading a value key by key; the default stands in for a missing path only. */
  method GetConfigValue(config: Tree, keys: Path, default: Option<Tree>) returns (r: Option<Tree>)
    ensures r == if Lookup(config, keys).Some? then Lookup(config, keys) else default
  {
    var current := config;
    for i := 0 to |keys|
      invariant Lookup(config, keys) == Lookup(current, keys[i..])
    {
      if current.Node? && keys[i] in current.entries {
        current := current.entries[keys[i]];
        assert keys[i..][1..] == keys[i+1..];
      } else {
        return default;
      }
    }
    return Some(current);
  }

  // ----- Merging two layers ---------------------------------------------------------------------

  function Merge(base: Mapping, override: Mapping): Mapping
    decreases Node(override)
  {
    map k | k in base.Keys + override.Keys :: MergedAt(base, override, k)
  }

  function MergedAt(base: Mapping, override: Mapping, k: string): Tree
    requires k in base || k in override
    decreases Node(override), 0
  {
    if k !in override then base[k]
    else if k in base && base[k].Node? && override[k].Node? then Node(Merge(base[k].entries, override[k].entries))
    else override[k]
  }

  /** The loop over the override's keys, on a copy of the base. */
  method DeepMerge(base: Mapping, override: Mapping) returns (merged: Mapping)
    ensures merged == Merge(base, override)
    decreases Node(override)
  {
    merged := base;
    var pending := override.Keys;
    while pending != {}
      invariant pending <= override.Keys
      invariant merged.Keys == base.Keys + (override.Keys - pending)
      invariant forall k | k in merged :: merged[k] == if k in pending then base[k] else MergedAt(base, override, k)
      decreases pending
    {
      var key :| key in pending;
      var value := override[key];
      if key in merged && merged[key].Node? && value.Node? {
        var sub := DeepMerge(merged[key].entries, value.entries);
        merged := merged[key := Node(sub)];
      } else {
        merged := merged[key := value];
      }
      pending := pending - {key};
    }
  }

  /** The override holds a leaf strictly above the path. */
  predicate LeafAbove(t: Tree, path: Path) {
    path != [] && (t.Leaf? || (path[0] in t.entries && LeafAbove(t.entries[path[0]], path[1..])))
  }

  /** What two layers say at a path: the override's leaf, the merged section where both hold one, nothing
      below an override's leaf, the base elsewhere. */
  function FilesSay(base: Mapping, override: Mapping, q: Path): Option<Tree> {
    var b, o := Lookup(Node(base), q), Lookup(Node(override), q);
    if o.None? then if LeafAbove(Node(override), q) then None else b
    else if o.value.Node? && b.Some? && b.value.Node? then Some(Node(Merge(b.value.entries, o.value.entries)))
    else o
  }

  /** The exact lookup law of a merged configuration, for every path. */
  lemma {:induction false} MergedLookup(base: Mapping, override: Mapping, path: Path)
    ensures Lookup(Node(Merge(base, override)), path) == FilesSay(base, override, path)
    decreases |path|
  {
    if path != [] && path[0] in override {
      var k, rest := path[0], path[1..];
      if k in base && base[k].Node? && override[k].Node? {
        MergedLookup(base[k].entries, override[k].entries, rest);
        assert base[k] == Node(base[k].entries) && override[k] == Node(override[k].entries);
      } else {
        assert Lookup(Node(base), path) == if k in base then Lookup(base[k], rest) else None;
        assert Lookup(Node(Merge(base, override)), path) == Lookup(override[k], rest) == Lookup(Node(override), path);
        assert LeafAbove(Node(override), path) == LeafAbove(override[k], rest);
      }
    }
  }

  /** Merging the same override again changes nothing. */
  lemma {:induction false} MergeIsIdempotent(base: Mapping, override: Mapping)
    ensures Merge(Merge(base, override), override) == Merge(base, override)
    decreases Node(override)
  {
    var once := Merge(base, override);
    forall k | k in once
      ensures MergedAt(once, override, k) == once[k]
    {
      assert once[k] == MergedAt(base, override, k);
      if k in override && override[k].Node? {
        if k in base && base[k].Node? {
          MergeIsIdempotent(base[k].entries, override[k].entries);
        } else {
          MergeWithItself(override[k].entries);
        }
      }
    }
  }

  lemma {:induction false} MergeWithItself(m: Mapping)
    ensures Merge(m, m) == m
    decreases Node(m)
  {
    forall k | k in m
      ensures MergedAt(m, m, k) == m[k]
    {
      if m[k].Node? {
        MergeWithItself(m[k].entries);
      }
    }
  }

  // ----- Writing one environment override ----------------------------------------------------------

  function SetPath(t: Mapping, path: Path, value: Scalar): Option<Mapping>
    requires path != []
    decreases |path|
  {
    if path[0] !in t then None
    else if |path| == 1 then Some(t[path[0] := Leaf(value)])
    else if t[path[0]].Leaf? then None
    else
      var sub := SetPath(t[path[0]].entries, path[1..], value);
      if sub.Some? then Some(t[path[0] := Node(sub.value)]) else None
  }

  /** An override is accepted exactly when its path is already there. */
  lemma {:induction false} SetAcceptedIff(t: Mapping, path: Path, value: Scalar)
    requires path != []
    ensures SetPath(t, path, value).Some? <==> Lookup(Node(t), path).Some?
    decreases |path|
  {
    if |path| > 1 && path[0] in t && t[path[0]].Node? {
      SetAcceptedIff(t[path[0]].entries, path[1..], value);
    }
  }

  predicate Comparable(p: Path, q: Path) {
    p <= q || q <= p
  }

  /** What an accepted override changes: the value at its path; what was below it is gone; a
      section above it holds the same override; every other path reads as before. */
  lemma {:induction false} SetLookup(t: Mapping, path: Path, value: Scalar, q: Path)
    requires path != [] && SetPath(t, path, value).Some?
    ensures var before, after := Lookup(Node(t), q), Lookup(Node(SetPath(t, path, value).value), q);
            && (q == path ==> after == Some(Leaf(value)))
            && (path < q ==> after.None?)
            && (q < path ==> before.Some? && before.value.Node?
                             && SetPath(before.value.entries, path[|q|..], value).Some?
                             && after == Some(Node(SetPath(before.value.entries, path[|q|..], value).value)))
            && (!Comparable(path, q) ==> after == before)
    decreases |path|
  {
    if q == [] {
      assert path[|q|..] == path;
    } else if q[0] == path[0] && |path| > 1 {
      SetLookup(t[path[0]].entries, path[1..], value, q[1..]);
      Tails(path, q);
    } else {
      assert |path| == 1 && q[0] == path[0] ==> path <= q;
    }
  }

  lemma {:induction false} Tails(p: Path, q: Path)
    requires p != [] && q != [] && p[0] == q[0]
    ensures p == q <==> p[1..] == q[1..]
    ensures p <= q <==> p[1..] <= q[1..]
    ensures q <= p <==> q[1..] <= p[1..]
    ensures |q| <= |p| ==> p[1..][|q[1..]|..] == p[|q|..]
  {
  }

  /** Overrides at paths neither of which lies on the other can be applied in either order, with
      the same acceptance and the same configuration. */
  lemma {:induction false} SeparateOverridesCommute(t: Mapping, p: Path, v: Scalar, q: Path, w: Scalar)
    requires p != [] && q != [] && !Comparable(p, q)
    ensures SetBoth(t, p, v, q, w) == SetBoth(t, q, w, p, v)
    decreases |p|
  {
    if p[0] != q[0] {
      DifferentKeysCommute(t, p, v, q, w);
      return;
    }
    assert |p| > 1 && |q| > 1 by {
      assert p[..1] == q[..1];
    }
    if p[0] in t && t[p[0]].Node? {
      Tails(p, q);
      SeparateOverridesCommute(t[p[0]].entries, p[1..], v, q[1..], w);
      SetBothBelow(t, p, v, q, w);
      SetBothBelow(t, q, w, p, v);
    }
  }

  lemma {:induction false} DifferentKeysCommute(t: Mapping, p: Path, v: Scalar, q: Path, w: Scalar)
    requires p != [] && q != [] && p[0] != q[0]
    ensures SetBoth(t, p, v, q, w) == SetBoth(t, q, w, p, v)
  {
    var first, second := SetPath(t, p, v), SetPath(t, q, w);
    if first.Some? && second.Some? {
      assert t[p[0] := first.value[p[0]]][q[0] := second.value[q[0]]]
          == t[q[0] := second.value[q[0]]][p[0] := first.value[p[0]]];
    }
  }

  lemma {:induction false} SetBothBelow(t: Mapping, p: Path, v: Scalar, q: Path, w: Scalar)
    requires |p| > 1 && |q| > 1 && p[0] == q[0] && p[0] in t && t[p[0]].Node?
    ensures SetBoth(t, p, v, q, w)
            == var sub := SetBoth(t[p[0]].entries, p[1..], v, q[1..], w);
               if sub.Some? then Some(t[p[0] := Node(sub.value)]) else None
  {
    var sub := SetPath(t[p[0]].entries, p[1..], v);
    if sub.Some? {
      var once := t[p[0] := Node(sub.value)];
      var both := SetPath(sub.value, q[1..], w);
      if both.Some? {
        assert once[p[0] := Node(both.value)] == t[p[0] := Node(both.value)];
      }
    }
  }

  function SetBoth(t: Mapping, p: Path, v: Scalar, q: Path, w: Scalar): Option<Mapping>
    requires p != [] && q != []
  {
    var first := SetPath(t, p, v);
    if first.Some? then SetPath(first.value, q, w) else None
  }

  // ----- All overrides ---------------------------------------------------------------------------------

  datatype Override = Override(path: Path, value: Scalar)

  /** A name that splits into no key at all is rejected like a missing path. */
  function ApplyAll(t: Mapping, overrides: seq<Override>): Option<Mapping> {
    if overrides == [] then Some(t)
    else
      var last := overrides[|overrides|-1];
      var front := ApplyAll(t, overrides[..|overrides|-1]);
      if front.Some? && last.path != [] then SetPath(front.value, last.path, last.value) else None
  }

  /** Every override names a path that is there, and none lies inside one written before it. */
  predicate Acceptable(t: Mapping, overrides: seq<Override>) {
    && (forall i | 0 <= i < |overrides| :: overrides[i].path != [] && Lookup(Node(t), overrides[i].path).Some?)
    && (forall i, j | 0 <= i < j < |overrides| :: !(overrides[i].path < overrides[j].path))
  }

  lemma {:induction false} AcceptableStep(t: Mapping, front: seq<Override>, last: Override)
    ensures Acceptable(t, front + [last])
            <==> && Acceptable(t, front) && last.path != [] && Lookup(Node(t), last.path).Some?
                 && forall i | 0 <= i < |front| :: !(front[i].path < last.path)
  {
    var all := front + [last];
    assert all[|front|] == last && forall i | 0 <= i < |front| :: all[i] == front[i];
  }

  predicate OverrideAt(overrides: seq<Override>, q: Path) {
    exists i :: 0 <= i < |overrides| && overrides[i].path == q
  }

  predicate OverrideAbove(overrides: seq<Override>, q: Path) {
    exists i :: 0 <= i < |overrides| && overrides[i].path < q
  }

  /** The value of the last override written at a path. */
  function LastAt(overrides: seq<Override>, q: Path): Scalar
    requires OverrideAt(overrides, q)
  {
    var last := overrides[|overrides|-1];
    if last.path == q then last.value
    else
      assert OverrideAt(overrides[..|overrides|-1], q) by {
        var i :| 0 <= i < |overrides| && overrides[i].path == q;
        assert overrides[..|overrides|-1][i].path == q;
      }
      LastAt(overrides[..|overrides|-1], q)
  }

  /** The overrides inside a section, as its own overrides. */
  function Inside(overrides: seq<Override>, q: Path): seq<Override> {
    if overrides == [] then []
    else
      var front, last := Inside(overrides[..|overrides|-1], q), overrides[|overrides|-1];
      if q < last.path then front + [Override(last.path[|q|..], last.value)] else front
  }

  /** What a path that read `before` reads after the overrides: nothing inside a value written above it,
      the last value written at it, the section with the overrides inside it applied, and what it read
      before where no override touches it. */
  predicate ReadsAs(before: Option<Tree>, after: Option<Tree>, overrides: seq<Override>, q: Path) {
    if OverrideAbove(overrides, q) then after.None?
    else if OverrideAt(overrides, q) then after == Some(Leaf(LastAt(overrides, q)))
    else if Inside(overrides, q) == [] then after == before
    else
      && before.Some? && before.value.Node?
      && ApplyAll(before.value.entries, Inside(overrides, q)).Some?
      && after == Some(Node(ApplyAll(before.value.entries, Inside(overrides, q)).value))
  }

  lemma {:induction false} OverrideStep(front: seq<Override>, last: Override, q: Path)
    ensures OverrideAt(front + [last], q) <==> OverrideAt(front, q) || last.path == q
    ensures OverrideAbove(front + [last], q) <==> OverrideAbove(front, q) || last.path < q
    ensures Inside(front + [last], q)
            == Inside(front, q) + if q < last.path then [Override(last.path[|q|..], last.value)] else []
    ensures OverrideAt(front + [last], q) ==>
              LastAt(front + [last], q) == if last.path == q then last.value else LastAt(front, q)
  {
    var all := front + [last];
    assert all[..|all|-1] == front && all[|front|] == last && forall i | 0 <= i < |front| :: all[i] == front[i];
  }

  lemma {:induction false} NextReads(t: Mapping, mid: Mapping, front: seq<Override>, last: Override, q: Path)
    requires last.path != [] && SetPath(mid, last.path, last.value).Some? && !OverrideAbove(front, last.path)
    requires ReadsAs(Lookup(Node(t), q), Lookup(Node(mid), q), front, q)
    ensures ReadsAs(Lookup(Node(t), q), Lookup(Node(SetPath(mid, last.path, last.value).value), q), front + [last], q)
  {
    OverrideStep(front, last, q);
    SetLookup(mid, last.path, last.value, q);
    if q < last.path {
      var before := Lookup(Node(t), q).value.entries;
      var tail := Override(last.path[|q|..], last.value);
      assert (Inside(front, q) + [tail])[..|Inside(front, q)|] == Inside(front, q);
      assert ApplyAll(before, Inside(front + [last], q))
          == SetPath(Lookup(Node(mid), q).value.entries, tail.path, tail.value);
    }
  }

  lemma {:induction false} NextAcceptedIff(t: Mapping, mid: Mapping, front: seq<Override>, last: Override)
    requires Acceptable(t, front) && last.path != []
    requires ReadsAs(Lookup(Node(t), last.path), Lookup(Node(mid), last.path), front, last.path)
    ensures SetPath(mid, last.path, last.value).Some?
            <==> Lookup(Node(t), last.path).Some? && !OverrideAbove(front, last.path)
  {
    SetAcceptedIff(mid, last.path, last.value);
    if OverrideAt(front, last.path) {
      var i :| 0 <= i < |front| && front[i].path == last.path;
      assert Lookup(Node(t), front[i].path).Some?;
    }
  }

  /** A list of environment overrides is accepted exactly when every path is there to begin with and
      none lies inside one written before it; and then every path, touched or not, reads as said. */
  lemma {:induction false} OverridesAcceptedIff(t: Mapping, overrides: seq<Override>, q: Path)
    ensures ApplyAll(t, overrides).Some? <==> Acceptable(t, overrides)
    ensures Acceptable(t, overrides) ==>
              ReadsAs(Lookup(Node(t), q), Lookup(Node(ApplyAll(t, overrides).value), q), overrides, q)
  {
    if overrides != [] {
      var front, last := overrides[..|overrides|-1], overrides[|overrides|-1];
      assert overrides == front + [last];
      AcceptableStep(t, front, last);
      OverridesAcceptedIff(t, front, q);
      OverridesAcceptedIff(t, front, last.path);
      if Acceptable(t, front) && last.path != [] {
        NextAcceptedIff(t, ApplyAll(t, front).value, front, last);
        if Acceptable(t, overrides) {
          NextReads(t, ApplyAll(t, front).value, front, last, q);
        }
      }
    }
  }

  /** The priority chain, for every path: the accepted environment overrides over what the environment
      file says over what the common file says. */
  lemma {:induction false} PriorityChain(base: Mapping, override: Mapping, overrides: seq<Override>, q: Path)
    requires Acceptable(Merge(base, override), overrides)
    ensures var final := ApplyAll(Merge(base, override), overrides);
            final.Some? && ReadsAs(FilesSay(base, override, q), Lookup(Node(final.value), q), overrides, q)
  {
    MergedLookup(base, override, q);
    OverridesAcceptedIff(Merge(base, override), overrides, q);
  }
}
