/** The loaded configuration as the mutable dictionaries it is made of: environment overrides are
    written into the tree in place. */
module ConfigStore {
  import opened Prelude
  import opened ConfigTree

  /** A dictionary entry: a plain value or a nested dictionary. The nested dictionaries form a tree. */
  datatype Value = Plain(value: Scalar) | Section(dict: Dict)

  class Dict {
    var entries: map<string, Value>
    ghost var Repr: set<Dict>

    ghost predicate Valid()
      reads this, Repr
      decreases Repr
    {
      && this in Repr
      && (forall k | k in entries && entries[k].Section? ::
            entries[k].dict in Repr && entries[k].dict.Repr < Repr && this !in entries[k].dict.Repr
                && entries[k].dict.Valid())
      && (forall j, k | j in entries && k in entries && j != k && entries[j].Section? && entries[k].Section? ::
            entries[j].dict.Repr !! entries[k].dict.Repr)
    }

    ghost function Contents(): Mapping
      requires Valid()
      reads this, Repr
      decreases Repr
    {
      map k | k in entries :: if entries[k].Section? then Node(entries[k].dict.Contents()) else Leaf(entries[k].value)
    }
  }

  /** The dictionary that holds the last key of the path. */
  ghost predicate Reaches(d: Dict, path: Path, target: Dict)
    requires path != [] && d.Valid()
    reads d, d.Repr
    decreases |path|
  {
    if |path| == 1 then d == target
    else path[0] in d.entries && d.entries[path[0]].Section? && Reaches(d.entries[path[0]].dict, path[1..], target)
  }

  /** A tree none of whose dictionaries was written reads as before. */
  twostate lemma {:induction false} Unchanged(d: Dict)
    requires old(d.Valid())
    requires forall o | o in old(d.Repr) :: o.Repr == old(o.Repr) && o.entries == old(o.entries)
    ensures d.Valid() && d.Contents() == old(d.Contents())
    decreases old(d.Repr)
  {
    var entries := old(d.entries);
    forall k | k in entries && entries[k].Section?
      ensures entries[k].dict.Valid() && entries[k].dict.Contents() == old(entries[k].dict.Contents())
    {
      Unchanged(entries[k].dict);
    }
  }

  /** A value put at the end of a path under the root, in the dictionary that holds its last key. */
  datatype Write = Write(root: Dict, path: Path, value: Scalar, target: Dict)

  /** The write is the only difference between the two states of these dictionaries. */
  twostate predicate IsTheOnlyChange(w: Write, dicts: set<Dict>)
    requires w.path != []
    reads dicts, w.target
  {
    && (forall o | o in dicts :: o.Repr == old(o.Repr) && (o != w.target ==> o.entries == old(o.entries)))
    && w.path[|w.path|-1] in old(w.target.entries)
    && w.target.entries == old(w.target.entries)[w.path[|w.path|-1] := Plain(w.value)]
  }

  twostate lemma {:induction false} OtherSections(w: Write)
    requires old(w.root.Valid()) && w.path != [] && IsTheOnlyChange(w, old(w.root.Repr))
    ensures forall k | k in old(w.root.entries) && old(w.root.entries)[k].Section? ::
              w.target in old(w.root.entries[k].dict.Repr)
              || (old(w.root.entries)[k].dict.Valid() && old(w.root.entries)[k].dict.Contents()
                  == old(w.root.entries[k].dict.Contents()))
  {
    forall k | k in old(w.root.entries) && old(w.root.entries)[k].Section?
      ensures w.target in old(w.root.entries[k].dict.Repr)
              || (old(w.root.entries)[k].dict.Valid() && old(w.root.entries)[k].dict.Contents()
                  == old(w.root.entries[k].dict.Contents()))
    {
      var sub := old(w.root.entries)[k].dict;
      if w.target !in old(sub.Repr) {
        Unchanged(sub);
      }
    }
  }

  twostate lemma {:induction false} RewrittenHere(w: Write)
    requires old(w.root.Valid()) && |w.path| == 1 && w.root == w.target && IsTheOnlyChange(w, old(w.root.Repr))
    ensures w.root.Valid()
    ensures Some(w.root.Contents()) == SetPath(old(w.root.Contents()), w.path, w.value)
  {
    OtherSections(w);
    assert w.root.Contents() == old(w.root.Contents())[w.path[0] := Leaf(w.value)];
  }

  twostate lemma {:induction false} RewrittenBelow(w: Write)
    requires old(w.root.Valid()) && |w.path| > 1 && IsTheOnlyChange(w, old(w.root.Repr))
    requires old(Reaches(w.root, w.path, w.target))
    requires var sub := old(w.root.entries)[w.path[0]].dict;
             w.target in old(sub.Repr) && sub.Valid() && Some(sub.Contents())
                 == SetPath(old(sub.Contents()), w.path[1..], w.value)
    ensures w.root.Valid()
    ensures Some(w.root.Contents()) == SetPath(old(w.root.Contents()), w.path, w.value)
  {
    OtherSections(w);
    assert w.root.Valid();
    assert w.root.Contents()
        == old(w.root.Contents())[w.path[0] := Node(old(w.root.entries)[w.path[0]].dict.Contents())];
  }

  /** One write at the end of the path rewrites the tree exactly as SetPath says, and keeps it a tree. */
  twostate lemma {:induction false} Rewritten(w: Write)
    requires old(w.root.Valid()) && w.path != [] && IsTheOnlyChange(w, old(w.root.Repr))
    requires old(Reaches(w.root, w.path, w.target))
    ensures w.root.Valid()
    ensures w.target in old(w.root.Repr)
    ensures Some(w.root.Contents()) == SetPath(old(w.root.Contents()), w.path, w.value)
    decreases |w.path|
  {
    if |w.path| > 1 {
      Rewritten(Write(old(w.root.entries)[w.path[0]].dict, w.path[1..], w.value, w.target));
      RewrittenBelow(w);
    } else {
      RewrittenHere(w);
    }
  }

  /** Every key but the last must lead to a section and the last must be present; otherwise
      nothing is written. */
  method SetExistingConfigPath(config: Dict, keyPath: Path, value: Scalar) returns (ok: bool)
    requires config.Valid() && keyPath != []
    modifies config.Repr
    ensures config.Valid() && config.Repr == old(config.Repr)
    ensures ok <==> SetPath(old(config.Contents()), keyPath, value).Some?
    ensures config.Contents() == if ok then SetPath(old(config.Contents()), keyPath, value).value
            else old(config.Contents())
  {
    var current := config;
    for i := 0 to |keyPath| - 1
      invariant current.Valid() && current in config.Repr && current.Repr <= config.Repr
      invariant SetPath(config.Contents(), keyPath, value).Some? <==>
                SetPath(current.Contents(), keyPath[i..], value).Some?
      invariant forall target | Reaches(current, keyPath[i..], target) :: Reaches(config, keyPath, target)
    {
      var segment := keyPath[i];
      if segment !in current.entries || current.entries[segment].Plain? {
        return false;
      }
      assert keyPath[i..][1..] == keyPath[i+1..];
      current := current.entries[segment].dict;
    }
    var leaf := keyPath[|keyPath|-1];
    if leaf !in current.entries {
      return false;
    }
    assert Reaches(current, keyPath[|keyPath|-1..], current);
    current.entries := current.entries[leaf := Plain(value)];
    Rewritten(Write(config, keyPath, value, current));
    return true;
  }

  /** The overrides in the order of their names; the first rejected one stops the loading. */
  method ApplyEnvOverrides(config: Dict, overrides: seq<Override>) returns (ok: bool, ghost applied: nat)
    requires config.Valid()
    modifies config.Repr
    ensures config.Valid() && config.Repr == old(config.Repr)
    ensures ok <==> ApplyAll(old(config.Contents()), overrides).Some?
    ensures applied <= |overrides| && Some(config.Contents()) == ApplyAll(old(config.Contents()), overrides[..applied])
    ensures if ok then applied == |overrides|
            else applied < |overrides| && ApplyAll(old(config.Contents()), overrides[..applied+1]).None?
  {
    applied := 0;
    for i := 0 to |overrides|
      invariant applied == i && config.Valid() && config.Repr == old(config.Repr)
      invariant Some(config.Contents()) == ApplyAll(old(config.Contents()), overrides[..i])
    {
      assert overrides[..i+1][..i] == overrides[..i];
      ok := false;
      if overrides[i].path != [] {
        ok := SetExistingConfigPath(config, overrides[i].path, overrides[i].value);
      }
      if !ok {
        RejectionSticks(old(config.Contents()), overrides, i + 1);
        return;
      }
      applied := applied + 1;
    }
    assert overrides[..|overrides|] == overrides;
    ok := true;
  }

  lemma {:induction false} RejectionSticks(t: Mapping, overrides: seq<Override>, n: nat)
    requires n <= |overrides| && ApplyAll(t, overrides[..n]).None?
    ensures ApplyAll(t, overrides).None?
    decreases |overrides|
  {
    if n < |overrides| {
      assert overrides[..|overrides|-1][..n] == overrides[..n];
      RejectionSticks(t, overrides[..|overrides|-1], n);
    } else {
      assert overrides[..n] == overrides;
    }
  }
}
