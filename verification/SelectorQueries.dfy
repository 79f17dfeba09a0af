/** How the plug-ins build the queries: one pass that fills the buckets, then one query list per bucket. */
module SelectorQueries {
  import opened Wrappers
  import opened Selectors

  lemma BucketsNext(sel: seq<Selector>, i: nat)
    requires i < |sel|
    ensures sel[..i + 1][..i] == sel[..i]
    ensures VpcOnly(sel[..i + 1]) == VpcOnly(sel[..i]) + if IsVpcOnly(sel[i]) then {VpcIdOf(sel[i]).value} else {}
    ensures VpcNamesOnly(sel[..i + 1]) == VpcNamesOnly(sel[..i]) + if IsVpcNameOnly(sel[i]) then {VpcNameOf(sel[i]).value} else {}
    ensures AllVmIds(sel[..i + 1]) == AllVmIds(sel[..i]) + if VpcIdOf(sel[i]).None? then VmIds(sel[i].vms) else {}
    ensures AllVmNames(sel[..i + 1]) == AllVmNames(sel[..i]) + if VpcIdOf(sel[i]).None? then VmNames(sel[i].vms) else {}
  {
    assert sel[..i + 1] == sel[..i] + [sel[i]];
    assert sel[i] in sel[..i + 1];
    assert forall s :: s in sel[..i + 1] <==> s in sel[..i] || s == sel[i];
  }

  lemma MachinesNext(ms: seq<Match>, j: nat)
    requires j < |ms|
    ensures VmIds(ms[..j + 1]) == VmIds(ms[..j]) + if ms[j].id.Some? && ms[j].name.None? then {ms[j].id.value} else {}
    ensures VmNames(ms[..j + 1]) == VmNames(ms[..j]) + if ms[j].name.Some? && ms[j].id.None? then {ms[j].name.value} else {}
  {
    assert ms[..j + 1] == ms[..j] + [ms[j]];
    assert forall m :: m in ms[..j + 1] <==> m in ms[..j] || m == ms[j];
  }

  /** The machine matches of a selector without VPC id. */
  method SortMachines(ms: seq<Match>, ids0: set<Name>, names0: set<Name>) returns (ids: set<Name>, names: set<Name>)
    ensures ids == ids0 + VmIds(ms) && names == names0 + VmNames(ms)
  {
    ids, names := ids0, names0;
    for j := 0 to |ms|
      invariant ids == ids0 + VmIds(ms[..j]) && names == names0 + VmNames(ms[..j])
    {
      MachinesNext(ms, j);
      if ms[j].id.Some? && ms[j].name.None? { ids := ids + {ms[j].id.value}; }
      if ms[j].name.Some? && ms[j].id.None? { names := names + {ms[j].name.value}; }
    }
    assert ms[..|ms|] == ms;
  }

  /** The machine matches of a selector with VPC id: the first that is not blank decides for the selector. */
  method SortMixed(s: Selector, whole: set<Name>, mixed0: seq<Selector>) returns (mixed: seq<Selector>)
    requires VpcIdOf(s).Some?
    ensures mixed == if IsMixed(s) && VpcIdOf(s).value !in whole then mixed0 + [s] else mixed0
  {
    mixed := mixed0;
    for j := 0 to |s.vms|
      invariant mixed == mixed0 && AllBlank(s.vms[..j])
    {
      if !Blank(s.vms[j]) {
        assert s.vms[j] in s.vms && !AllBlank(s.vms);
        if VpcIdOf(s).value in whole { return; }
        return mixed + [s];
      }
      assert s.vms[..j + 1] == s.vms[..j] + [s.vms[j]];
    }
    assert s.vms[..|s.vms|] == s.vms;
  }

  /** Dropping the selectors of whole VPCs early changes nothing: they are dropped again later. */
  ghost predicate SameMixed(mixed: seq<Selector>, sel: seq<Selector>, whole: set<Name>) {
    forall v: set<Name> :: whole <= v ==> Mixed(mixed, v) == Mixed(sel, v)
  }

  lemma MixedSnoc(sel: seq<Selector>, s: Selector, v: set<Name>)
    ensures Mixed(sel + [s], v) == if IsMixed(s) && VpcIdOf(s).value !in v then Mixed(sel, v) + [s] else Mixed(sel, v)
  {
    assert (sel + [s])[..|sel|] == sel;
  }

  lemma SameMixedNext(mixed: seq<Selector>, sel: seq<Selector>, whole: set<Name>, s: Selector, whole': set<Name>)
    requires SameMixed(mixed, sel, whole) && whole <= whole'
    ensures SameMixed(if IsMixed(s) && VpcIdOf(s).value !in whole' then mixed + [s] else mixed, sel + [s], whole')
  {
    var next := if IsMixed(s) && VpcIdOf(s).value !in whole' then mixed + [s] else mixed;
    forall v: set<Name> | whole' <= v ensures Mixed(next, v) == Mixed(sel + [s], v) {
      MixedSnoc(sel, s, v);
      MixedSnoc(mixed, s, v);
      assert Mixed(mixed, v) == Mixed(sel, v);
    }
  }

  method BuildPairQueries(mixed: seq<Selector>, whole: set<Name>, state: seq<Filter>) returns (queries: seq<seq<Filter>>)
    requires forall s <- mixed :: VpcIdOf(s).Some? && IsMixed(s)
    ensures forall s <- Mixed(mixed, whole) :: VpcIdOf(s).Some?
    ensures queries == MixedQueries(Mixed(mixed, whole), state)
  {
    queries := [];
    MixedHaveIds(mixed, whole);
    for i := 0 to |mixed|
      invariant forall s <- Mixed(mixed[..i], whole) :: VpcIdOf(s).Some?
      invariant queries == MixedQueries(Mixed(mixed[..i], whole), state)
    {
      MixedHaveIds(mixed[..i + 1], whole);
      assert mixed[..i + 1] == mixed[..i] + [mixed[i]];
      MixedSnoc(mixed[..i], mixed[i], whole);
      if VpcIdOf(mixed[i]).value in whole { continue; }
      var pairs := BuildPairs(mixed[i], state);
      var kept := Mixed(mixed[..i], whole);
      assert (kept + [mixed[i]])[..|kept|] == kept;
      queries := queries + pairs;
    }
    assert mixed[..|mixed|] == mixed;
  }

  method BuildPairs(s: Selector, state: seq<Filter>) returns (queries: seq<seq<Filter>>)
    requires VpcIdOf(s).Some?
    ensures queries == PairQueries(s, state)
  {
    queries := [];
    for j := 0 to |s.vms|
      invariant |queries| == j && forall k :: 0 <= k < j ==> queries[k] == PairQueries(s, state)[k]
    {
      var q := [VpcIdIn({VpcIdOf(s).value})];
      if s.vms[j].id.Some? { q := q + [VmIdIn({s.vms[j].id.value})]; }
      if s.vms[j].name.Some? { q := q + [VmNameIn({s.vms[j].name.value})]; }
      q := q + state;
      assert q == PairQuery(VpcIdOf(s).value, s.vms[j], state);
      queries := queries + [q];
    }
  }

  /** The queries for AWS. */
  method BuildEc2Filters(sel: seq<Selector>) returns (queries: seq<seq<Filter>>)
    ensures queries == AwsQueries(sel)
  {
    var whole: set<Name>, mixed: seq<Selector>, ids: set<Name>, names: set<Name>, vpcNames: set<Name> := {}, [], {}, {}, {};
    for i := 0 to |sel|
      invariant forall s <- sel[..i] :: !SelectsAll(s)
      invariant whole == VpcOnly(sel[..i]) && vpcNames == VpcNamesOnly(sel[..i])
      invariant ids == AllVmIds(sel[..i]) && names == AllVmNames(sel[..i])
      invariant SameMixed(mixed, sel[..i], whole) && forall s <- mixed :: VpcIdOf(s).Some? && IsMixed(s)
    {
      var s := sel[i];
      BucketsNext(sel, i);
      assert sel[..i + 1] == sel[..i] + [s];
      if SelectsAll(s) {
        assert s in sel;
        return [];
      }
      ghost var before := whole;
      if IsVpcOnly(s) { whole := whole + {VpcIdOf(s).value}; }
      if IsVpcNameOnly(s) { vpcNames := vpcNames + {VpcNameOf(s).value}; }
      SameMixedNext(mixed, sel[..i], before, s, whole);
      if VpcIdOf(s).Some? {
        mixed := SortMixed(s, whole, mixed);
      } else {
        ids, names := SortMachines(s.vms, ids, names);
      }
    }
    assert sel[..|sel|] == sel;
    MixedHaveIds(sel, whole);
    assert Mixed(mixed, whole) == Mixed(sel, whole);
    var pairs := BuildPairQueries(mixed, whole, [InValidState]);
    queries := ListQuery(VpcIdIn(whole), [InValidState]) + pairs + ListQuery(VmIdIn(ids), [InValidState])
             + ListQuery(VmNameIn(names), [InValidState]) + ListQuery(VpcNameIn(vpcNames), [InValidState]);
  }

  /** The queries for Azure; machines given by id and name at once go to a bucket that is never asked for. */
  method BuildQueries(sel: seq<Selector>) returns (queries: seq<seq<Filter>>)
    ensures queries == AzureQueries(sel)
  {
    var whole: set<Name>, mixed: seq<Selector>, ids: set<Name>, names: set<Name> := {}, [], {}, {};
    for i := 0 to |sel|
      invariant forall s <- sel[..i] :: !SelectsAllAzure(s)
      invariant whole == VpcOnly(sel[..i]) && ids == AllVmIds(sel[..i]) && names == AllVmNames(sel[..i])
      invariant SameMixed(mixed, sel[..i], whole) && forall s <- mixed :: VpcIdOf(s).Some? && IsMixed(s)
    {
      var s := sel[i];
      BucketsNext(sel, i);
      assert sel[..i + 1] == sel[..i] + [s];
      if SelectsAllAzure(s) {
        assert s in sel;
        return [];
      }
      ghost var before := whole;
      if IsVpcOnly(s) { whole := whole + {VpcIdOf(s).value}; }
      SameMixedNext(mixed, sel[..i], before, s, whole);
      if VpcIdOf(s).Some? {
        mixed := SortMixed(s, whole, mixed);
      } else {
        ids, names := SortMachines(s.vms, ids, names);
      }
    }
    assert sel[..|sel|] == sel;
    MixedHaveIds(sel, whole);
    assert Mixed(mixed, whole) == Mixed(sel, whole);
    var pairs := BuildPairQueries(mixed, whole, []);
    queries := ListQuery(VpcIdIn(whole), []) + pairs + ListQuery(VmNameIn(names), []) + ListQuery(VmIdIn(ids), []);
  }
}
