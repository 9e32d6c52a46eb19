/** The data-quality tag a reconciliation row carries: the two gating tags come first; among
    other tags the loop takes any element of a set and the plan takes the smallest. */
module DqTags {
  import opened Prelude

  const SOURCE_STALE := "SOURCE_STALE"
  const EVENT_DROP := "EVENT_DROP_SUSPECTED"

  /** The tags of a day as stored; absent and blank ones do not count. */
  predicate Carries(tags: seq<Option<string>>, t: string) {
    t != "" && Some(t) in tags
  }

  predicate CarriesNonBlank(tags: seq<Option<string>>, t: string) {
    NonBlank(Some(t)) && Some(t) in tags
  }

  predicate GatingTag(t: string) {
    t == SOURCE_STALE || t == EVENT_DROP
  }

  /** r is a tag the loop may return. The element a set yields first is not fixed. */
  ghost predicate LoopTag(tags: seq<Option<string>>, r: Option<string>) {
    if Carries(tags, SOURCE_STALE) then r == Some(SOURCE_STALE)
    else if Carries(tags, EVENT_DROP) then r == Some(EVENT_DROP)
    else if r.Some? then Carries(tags, r.value)
    else forall t :: !Carries(tags, t)
  }

  /** r is the plan's tag: flags for the gating tags, `min` otherwise, null without a row. */
  ghost predicate PlanTag(tags: seq<Option<string>>, r: Option<string>) {
    if CarriesNonBlank(tags, SOURCE_STALE) then r == Some(SOURCE_STALE)
    else if CarriesNonBlank(tags, EVENT_DROP) then r == Some(EVENT_DROP)
    else if r.Some? then CarriesNonBlank(tags, r.value) && forall t | CarriesNonBlank(tags, t) ::
        !StringLess(t, r.value)
    else forall t :: !CarriesNonBlank(tags, t)
  }

  method ResolveDqTag(tags: seq<Option<string>>) returns (r: Option<string>)
    ensures LoopTag(tags, r)
  {
    var present := set t | t in tags && Truthy(t) :: t.value;
    assert forall t :: t in present <==> Carries(tags, t) by {
      forall t | Carries(tags, t)
        ensures t in present
      {
        assert Truthy(Some(t));
      }
    }
    if SOURCE_STALE in present {
      return Some(SOURCE_STALE);
    }
    if EVENT_DROP in present {
      return Some(EVENT_DROP);
    }
    if present == {} {
      return None;
    }
    var t :| t in present;
    return Some(t);
  }

  /** The two forms agree on the tag of a day, whatever the set yields, exactly when a gating tag is present, or
      there is at most one tag and it is not of spaces alone. */
  lemma {:induction false} TagsAgreeIff(tags: seq<Option<string>>)
    ensures (forall r :: LoopTag(tags, r) <==> PlanTag(tags, r))
            <==> (exists t :: GatingTag(t) && Carries(tags, t))
                 || (forall t, q | Carries(tags, t) && Carries(tags, q) :: t == q && HoldsInk(Some(t)))
  {
    forall t
      ensures CarriesNonBlank(tags, t) <==> Carries(tags, t) && HoldsInk(Some(t))
    {
      BlankMeans(Some(t));
    }
    assert SOURCE_STALE[0] != ' ' && EVENT_DROP[0] != ' ';
    if !Carries(tags, SOURCE_STALE) && !Carries(tags, EVENT_DROP) {
      forall r, t | Carries(tags, r) && Carries(tags, t)
        ensures r == t ==> !StringLess(t, r)
        ensures r != t ==> !(PlanTag(tags, Some(r)) && PlanTag(tags, Some(t)))
      {
        TextOrderIsTotal(r, t);
      }
      assert forall r | Carries(tags, r) :: LoopTag(tags, Some(r));
      forall t | Carries(tags, t) && !HoldsInk(Some(t))
        ensures LoopTag(tags, Some(t)) && !PlanTag(tags, Some(t))
      {
      }
    }
  }

  /** Whether the day is gated never differs, on blank tags either. */
  lemma {:induction false} GatingNeverDiffers(tags: seq<Option<string>>, looped: Option<string>,
                                              planned: Option<string>)
    requires LoopTag(tags, looped) && PlanTag(tags, planned)
    ensures looped.Some? && GatingTag(looped.value) <==> planned.Some? && GatingTag(planned.value)
    ensures looped.Some? && GatingTag(looped.value) ==> looped == planned
  {
    assert SOURCE_STALE[0] != ' ' && EVENT_DROP[0] != ' ';
  }
}
