/** Compiling selectors to queries preserves their meaning, and exactly when. */
module SelectorProofs {
  import opened Wrappers
  import opened Selectors

  // ---------------------------------------------------------------------------------------------
  // What the queries return
  // ---------------------------------------------------------------------------------------------

  lemma ReturnedAppend(names: VpcNames, a: seq<seq<Filter>>, b: seq<seq<Filter>>, vm: Vm)
    ensures Returned(names, a + b, vm) <==> Returned(names, a, vm) || Returned(names, b, vm)
  {
    if Returned(names, a, vm) {
      var k :| 0 <= k < |a| && PassesAll(names, a[k], vm);
      assert (a + b)[k] == a[k];
    }
    if Returned(names, b, vm) {
      var k :| 0 <= k < |b| && PassesAll(names, b[k], vm);
      assert (a + b)[|a| + k] == b[k];
    }
  }

  lemma ReturnedList(names: VpcNames, f: Filter, state: seq<Filter>, vm: Vm)
    requires !f.InValidState?
    ensures Returned(names, ListQuery(f, state), vm) <==> Passes(names, f, vm) && PassesAll(names, state, vm)
  {
    if f.values != {} {
      assert ListQuery(f, state)[0] == [f] + state;
      assert PassesAll(names, [f] + state, vm) <==> Passes(names, f, vm) && PassesAll(names, state, vm);
    }
  }

  lemma PairPasses(names: VpcNames, vpc: Name, m: Match, state: seq<Filter>, vm: Vm)
    ensures PassesAll(names, PairQuery(vpc, m, state), vm) <==>
            vm.vpc == vpc && VmSatisfies(m, vm) && PassesAll(names, state, vm)
  {
    var q := PairQuery(vpc, m, state);
    assert VpcIdIn({vpc}) in q && forall f <- state :: f in q;
    if PassesAll(names, q, vm) {
      assert Passes(names, VpcIdIn({vpc}), vm);
      if m.id.Some? { assert VmIdIn({m.id.value}) in q; }
      if m.name.Some? { assert VmNameIn({m.name.value}) in q; }
    }
  }

  lemma PairsReturned(names: VpcNames, s: Selector, state: seq<Filter>, vm: Vm)
    requires VpcIdOf(s).Some?
    ensures Returned(names, PairQueries(s, state), vm) <==>
            vm.vpc == VpcIdOf(s).value && AnyVm(s.vms, vm) && PassesAll(names, state, vm)
  {
    forall i | 0 <= i < |s.vms|
      ensures PassesAll(names, PairQueries(s, state)[i], vm) <==>
              vm.vpc == VpcIdOf(s).value && VmSatisfies(s.vms[i], vm) && PassesAll(names, state, vm)
    {
      PairPasses(names, VpcIdOf(s).value, s.vms[i], state, vm);
    }
  }

  /** A machine of the selector's VPC that satisfies one of its machine matches. */
  predicate MixedSelects(s: Selector, vm: Vm) {
    VpcIdOf(s) == Some(vm.vpc) && AnyVm(s.vms, vm)
  }

  lemma {:induction false} MixedReturned(names: VpcNames, ss: seq<Selector>, state: seq<Filter>, vm: Vm)
    requires forall s <- ss :: VpcIdOf(s).Some?
    ensures Returned(names, MixedQueries(ss, state), vm) <==>
            PassesAll(names, state, vm) && exists s <- ss :: MixedSelects(s, vm)
  {
    if ss != [] {
      var init, last := ss[..|ss| - 1], ss[|ss| - 1];
      assert forall s :: s in ss <==> s in init || s == last by { assert ss == init + [last]; }
      MixedReturned(names, init, state, vm);
      PairsReturned(names, last, state, vm);
      ReturnedAppend(names, MixedQueries(init, state), PairQueries(last, state), vm);
      assert MixedQueries(ss, state) == MixedQueries(init, state) + PairQueries(last, state);
      assert last in ss;
    }
  }

  lemma {:induction false} MixedMember(sel: seq<Selector>, whole: set<Name>, s: Selector)
    ensures s in Mixed(sel, whole) <==> s in sel && IsMixed(s) && VpcIdOf(s).value !in whole
  {
    if sel != [] {
      MixedMember(sel[..|sel| - 1], whole, s);
      assert sel == sel[..|sel| - 1] + [sel[|sel| - 1]];
    }
  }

  /** What the queries for VPCs and machines by id and machines by name return, bucket by bucket. */
  predicate BucketsReturn(sel: seq<Selector>, vm: Vm) {
    || vm.vpc in VpcOnly(sel)
    || (exists s <- sel :: IsMixed(s) && MixedSelects(s, vm))
    || vm.id in AllVmIds(sel)
    || vm.name in AllVmNames(sel)
  }

  /** On AWS there is one more bucket. */
  predicate AwsReturns(names: VpcNames, sel: seq<Selector>, vm: Vm) {
    BucketsReturn(sel, vm) || vm.vpc in set n <- VpcNamesOnly(sel) :: IdOf(names, n)
  }

  lemma MixedPart(names: VpcNames, sel: seq<Selector>, state: seq<Filter>, vm: Vm)
    requires vm.vpc !in VpcOnly(sel)
    ensures forall s <- Mixed(sel, VpcOnly(sel)) :: VpcIdOf(s).Some?
    ensures Returned(names, MixedQueries(Mixed(sel, VpcOnly(sel)), state), vm) <==>
            PassesAll(names, state, vm) && exists s <- sel :: IsMixed(s) && MixedSelects(s, vm)
  {
    MixedHaveIds(sel, VpcOnly(sel));
    MixedReturned(names, Mixed(sel, VpcOnly(sel)), state, vm);
    forall s ensures s in Mixed(sel, VpcOnly(sel)) <==> s in sel && IsMixed(s) && VpcIdOf(s).value !in VpcOnly(sel) {
      MixedMember(sel, VpcOnly(sel), s);
    }
  }

  /** The two VPC buckets together. */
  lemma VpcPart(names: VpcNames, sel: seq<Selector>, state: seq<Filter>, vm: Vm)
    ensures forall s <- Mixed(sel, VpcOnly(sel)) :: VpcIdOf(s).Some?
    ensures Returned(names, ListQuery(VpcIdIn(VpcOnly(sel)), state) + MixedQueries(Mixed(sel, VpcOnly(sel)), state), vm) <==>
            PassesAll(names, state, vm) && (vm.vpc in VpcOnly(sel) || exists s <- sel :: IsMixed(s) && MixedSelects(s, vm))
  {
    MixedHaveIds(sel, VpcOnly(sel));
    ReturnedAppend(names, ListQuery(VpcIdIn(VpcOnly(sel)), state), MixedQueries(Mixed(sel, VpcOnly(sel)), state), vm);
    ReturnedList(names, VpcIdIn(VpcOnly(sel)), state, vm);
    MixedReturned(names, Mixed(sel, VpcOnly(sel)), state, vm);
    if vm.vpc !in VpcOnly(sel) { MixedPart(names, sel, state, vm); }
  }

  lemma ThreeMore(names: VpcNames, a: seq<seq<Filter>>, b: seq<seq<Filter>>, c: seq<seq<Filter>>, d: seq<seq<Filter>>, vm: Vm)
    ensures Returned(names, a + b + c + d, vm) <==>
            Returned(names, a, vm) || Returned(names, b, vm) || Returned(names, c, vm) || Returned(names, d, vm)
  {
    ReturnedAppend(names, a, b, vm);
    ReturnedAppend(names, a + b, c, vm);
    ReturnedAppend(names, a + b + c, d, vm);
  }

  lemma AwsQueriesReturn(names: VpcNames, sel: seq<Selector>, vm: Vm)
    requires forall s <- sel :: !SelectsAll(s)
    ensures Returned(names, AwsQueries(sel), vm) <==> vm.valid && AwsReturns(names, sel, vm)
  {
    var (state, whole) := ([InValidState], VpcOnly(sel));
    assert PassesAll(names, state, vm) <==> vm.valid by { assert InValidState in state; }
    VpcPart(names, sel, state, vm);
    ThreeMore(names, ListQuery(VpcIdIn(whole), state) + MixedQueries(Mixed(sel, whole), state),
              ListQuery(VmIdIn(AllVmIds(sel)), state), ListQuery(VmNameIn(AllVmNames(sel)), state),
              ListQuery(VpcNameIn(VpcNamesOnly(sel)), state), vm);
    ReturnedList(names, VmIdIn(AllVmIds(sel)), state, vm);
    ReturnedList(names, VmNameIn(AllVmNames(sel)), state, vm);
    ReturnedList(names, VpcNameIn(VpcNamesOnly(sel)), state, vm);
  }

  lemma AzureQueriesReturn(names: VpcNames, sel: seq<Selector>, vm: Vm)
    requires forall s <- sel :: !SelectsAllAzure(s)
    ensures Returned(names, AzureQueries(sel), vm) <==> BucketsReturn(sel, vm)
  {
    var whole := VpcOnly(sel);
    VpcPart(names, sel, [], vm);
    ThreeMore(names, ListQuery(VpcIdIn(whole), []) + MixedQueries(Mixed(sel, whole), []),
              ListQuery(VmNameIn(AllVmNames(sel)), []), ListQuery(VmIdIn(AllVmIds(sel)), []), [], vm);
    ReturnedList(names, VmIdIn(AllVmIds(sel)), [], vm);
    ReturnedList(names, VmNameIn(AllVmNames(sel)), [], vm);
    assert AzureQueries(sel) + [] == AzureQueries(sel);
  }

  /** Where no VPC is selected by name, Azure returns what AWS returns. */
  lemma AzureAgreesWithAws(names: VpcNames, sel: seq<Selector>, vm: Vm)
    requires vm.valid && forall s <- sel :: VpcNameOf(s).None?
    ensures Returned(names, AzureQueries(sel), vm) <==> Returned(names, AwsQueries(sel), vm)
  {
    assert forall s <- sel :: SelectsAllAzure(s) <==> SelectsAll(s);
    if forall s <- sel :: !SelectsAll(s) {
      AzureQueriesReturn(names, sel, vm);
      AwsQueriesReturn(names, sel, vm);
    }
  }

  // ---------------------------------------------------------------------------------------------
  // When the meaning is preserved
  // ---------------------------------------------------------------------------------------------

  predicate NotBoth(m: Match) {
    m.id.None? || m.name.None?
  }

  /** What the webhook lets through for AWS. */
  predicate Accepted(s: Selector) {
    && (s.vpc.Some? || s.vms != [])
    && (s.vpc.Some? ==> NotBoth(s.vpc.value)) && (forall m <- s.vms :: NotBoth(m))
    && (VpcNameOf(s).Some? ==> AllBlank(s.vms))
  }

  predicate AllAccepted(sel: seq<Selector>) {
    forall s <- sel :: Accepted(s)
  }

  /** The machine matches leave no machine out. */
  predicate AnyMachine(s: Selector) {
    s.vms == [] || AnyBlank(s.vms)
  }

  /** The selector means every machine there is. */
  predicate Everything(s: Selector) {
    VpcIdOf(s).None? && VpcNameOf(s).None? && AnyMachine(s)
  }

  predicate OfVpc(names: VpcNames, s: Selector, v: Name) {
    || VpcIdOf(s) == Some(v)
    || (VpcIdOf(s).None? && VpcNameOf(s).Some? && VpcNameOf(s).value in names && names[VpcNameOf(s).value] == v)
  }

  /** The selector means every machine of the VPC. */
  predicate WholeVpc(names: VpcNames, s: Selector, v: Name) {
    OfVpc(names, s, v) && AnyMachine(s)
  }

  /** Some query asks for every machine of the VPC. */
  predicate Asked(names: VpcNames, s: Selector, v: Name) {
    || (s.vms == [] && OfVpc(names, s, v))
    || (VpcIdOf(s) == Some(v) && AnyBlank(s.vms) && !AllBlank(s.vms))
  }

  predicate AskedSomewhere(names: VpcNames, sel: seq<Selector>, v: Name) {
    exists s <- sel :: Asked(names, s, v)
  }

  /** No selector means everything, and every VPC meant as a whole is asked for as a whole. */
  ghost predicate Expressible(names: VpcNames, sel: seq<Selector>) {
    && (forall s <- sel :: !Everything(s))
    && (forall s, v :: s in sel && WholeVpc(names, s, v) ==> AskedSomewhere(names, sel, v))
  }

  lemma AnyBlankAny(ms: seq<Match>, vm: Vm)
    requires AnyBlank(ms)
    ensures AnyVm(ms, vm)
  {
    var m :| m in ms && Blank(m);
    var i :| 0 <= i < |ms| && ms[i] == m;
    assert VmSatisfies(ms[i], vm);
  }

  lemma AskedReturned(names: VpcNames, sel: seq<Selector>, vm: Vm)
    requires AskedSomewhere(names, sel, vm.vpc)
    ensures AwsReturns(names, sel, vm)
  {
    var s :| s in sel && Asked(names, s, vm.vpc);
    if s.vms == [] {
      if VpcIdOf(s).Some? { assert IsVpcOnly(s); } else { assert IsVpcNameOnly(s) && VpcNameOf(s).value in VpcNamesOnly(sel); }
    } else {
      AnyBlankAny(s.vms, vm);
      assert IsMixed(s) && MixedSelects(s, vm);
    }
  }

  /** Nothing is returned that was not selected. */
  lemma AwsIsSound(names: VpcNames, sel: seq<Selector>, vm: Vm)
    requires AllAccepted(sel) && vm.vpc != Name("") && AwsReturns(names, sel, vm)
    ensures Selected(names, sel, vm)
  {
    var s: Selector :| s in sel && Satisfies(names, s, vm) by { AwsSelector(names, sel, vm); }
    var i :| 0 <= i < |sel| && sel[i] == s;
    assert Satisfies(names, sel[i], vm);
  }

  lemma AwsSelector(names: VpcNames, sel: seq<Selector>, vm: Vm)
    requires AllAccepted(sel) && vm.vpc != Name("") && AwsReturns(names, sel, vm)
    ensures exists s :: s in sel && Satisfies(names, s, vm)
  {
    if vm.vpc in VpcOnly(sel) {
      var s :| s in sel && IsVpcOnly(s) && VpcIdOf(s).value == vm.vpc;
      assert Accepted(s) && Satisfies(names, s, vm);
    } else if exists s <- sel :: IsMixed(s) && MixedSelects(s, vm) {
      var s :| s in sel && IsMixed(s) && MixedSelects(s, vm);
      assert Accepted(s) && Satisfies(names, s, vm);
    } else if vm.id in AllVmIds(sel) {
      var s :| s in sel && VpcIdOf(s).None? && vm.id in VmIds(s.vms);
      MachineSelects(names, s, vm);
    } else if vm.name in AllVmNames(sel) {
      var s :| s in sel && VpcIdOf(s).None? && vm.name in VmNames(s.vms);
      MachineSelects(names, s, vm);
    } else {
      var n :| n in VpcNamesOnly(sel) && IdOf(names, n) == vm.vpc;
      var s :| s in sel && IsVpcNameOnly(s) && VpcNameOf(s).value == n;
      assert Satisfies(names, s, vm);
    }
  }

  lemma MachineSelects(names: VpcNames, s: Selector, vm: Vm)
    requires Accepted(s) && VpcIdOf(s).None? && (vm.id in VmIds(s.vms) || vm.name in VmNames(s.vms))
    ensures Satisfies(names, s, vm)
  {
    var m: Match :| m in s.vms && !Blank(m) && VmSatisfies(m, vm) by {
      if vm.id in VmIds(s.vms) {
        var m :| m in s.vms && m.id.Some? && m.name.None? && m.id.value == vm.id;
      } else {
        var m :| m in s.vms && m.name.Some? && m.id.None? && m.name.value == vm.name;
      }
    }
    var i :| 0 <= i < |s.vms| && s.vms[i] == m;
    assert VmSatisfies(s.vms[i], vm) && VpcNameOf(s).None?;
  }

  /** Everything that was selected is returned, if the selectors are expressible. */
  lemma AwsIsComplete(names: VpcNames, sel: seq<Selector>, vm: Vm)
    requires AllAccepted(sel) && Expressible(names, sel) && Selected(names, sel, vm)
    ensures AwsReturns(names, sel, vm)
  {
    var k :| 0 <= k < |sel| && Satisfies(names, sel[k], vm);
    var s := sel[k];
    assert s in sel && Accepted(s) && !Everything(s);
    if AnyMachine(s) {
      assert WholeVpc(names, s, vm.vpc);
      AskedReturned(names, sel, vm);
    } else {
      var i :| 0 <= i < |s.vms| && VmSatisfies(s.vms[i], vm);
      assert s.vms[i] in s.vms && NotBoth(s.vms[i]) && !Blank(s.vms[i]);
      if VpcIdOf(s).Some? {
        assert IsMixed(s) && MixedSelects(s, vm);
      } else if s.vms[i].id.Some? {
        assert vm.id in VmIds(s.vms);
      } else {
        assert vm.name in VmNames(s.vms);
      }
    }
  }

  // ---------------------------------------------------------------------------------------------
  // A machine that is lost otherwise
  // ---------------------------------------------------------------------------------------------

  function Longest(s: seq<Name>): nat {
    if s == [] then 0 else var n := Longest(s[1..]); if |s[0].text| > n then |s[0].text| else n
  }

  lemma {:induction false} LongestBounds(s: seq<Name>)
    ensures forall n <- s :: |n.text| <= Longest(s)
  {
    if s != [] {
      assert s == [s[0]] + s[1..];
      LongestBounds(s[1..]);
    }
  }

  /** There is a name that a finite set does not contain. */
  lemma FreshName(used: set<Name>) returns (n: Name)
    ensures n !in used && n != Name("")
  {
    var listed: seq<Name> := [];
    var todo := used;
    while todo != {}
      invariant todo <= used && forall m <- used :: m in todo || m in listed
      decreases todo
    {
      var m :| m in todo;
      todo := todo - {m};
      listed := listed + [m];
    }
    LongestBounds(listed);
    n := Name(seq(Longest(listed) + 1, _ => 'x'));
    assert |n.text| == Longest(listed) + 1;
    forall m <- used ensures m != n { assert m in listed; }
  }

  /** Every machine id and name that is mentioned. */
  function Mentioned(sel: seq<Selector>): set<Name> {
    (set s <- sel, m <- s.vms | m.id.Some? :: m.id.value) + (set s <- sel, m <- s.vms | m.name.Some? :: m.name.value)
  }

  /** A machine nobody mentions is returned only with its whole VPC. */
  lemma StrangerReturned(names: VpcNames, sel: seq<Selector>, vm: Vm)
    requires vm.id !in Mentioned(sel) && vm.name !in Mentioned(sel) && vm.vpc != Name("")
    requires AwsReturns(names, sel, vm)
    ensures AskedSomewhere(names, sel, vm.vpc)
  {
    assert AllVmIds(sel) <= Mentioned(sel) && AllVmNames(sel) <= Mentioned(sel);
    if vm.vpc in VpcOnly(sel) {
      var s :| s in sel && IsVpcOnly(s) && VpcIdOf(s).value == vm.vpc;
      assert Asked(names, s, vm.vpc);
    } else if exists s <- sel :: IsMixed(s) && MixedSelects(s, vm) {
      var s :| s in sel && IsMixed(s) && MixedSelects(s, vm);
      var i :| 0 <= i < |s.vms| && VmSatisfies(s.vms[i], vm);
      assert s.vms[i] in s.vms && Blank(s.vms[i]);
      assert Asked(names, s, vm.vpc);
    } else {
      var n :| n in VpcNamesOnly(sel) && IdOf(names, n) == vm.vpc;
      var s :| s in sel && IsVpcNameOnly(s) && VpcNameOf(s).value == n;
      assert Asked(names, s, vm.vpc);
    }
  }

  /** The VPC ids that can be asked for as a whole. */
  function VpcIds(names: VpcNames, sel: seq<Selector>): set<Name> {
    (set s <- sel | VpcIdOf(s).Some? :: VpcIdOf(s).value) + names.Values
  }

  lemma EverythingSelects(names: VpcNames, sel: seq<Selector>, s: Selector, vm: Vm)
    requires s in sel && (Everything(s) || WholeVpc(names, s, vm.vpc)) && Accepted(s)
    ensures Selected(names, sel, vm)
  {
    var i :| 0 <= i < |sel| && sel[i] == s;
    if s.vms != [] { AnyBlankAny(s.vms, vm); }
    assert Satisfies(names, sel[i], vm);
  }

  lemma AskedIsKnown(names: VpcNames, sel: seq<Selector>, v: Name)
    requires AskedSomewhere(names, sel, v)
    ensures v in VpcIds(names, sel)
  {
    var s :| s in sel && Asked(names, s, v);
    if VpcIdOf(s) != Some(v) { assert VpcNameOf(s).value in names.Keys; }
  }

  /** No VPC has the empty id. */
  ghost predicate Sane(names: VpcNames, sel: seq<Selector>) {
    Name("") !in VpcIds(names, sel)
  }

  lemma WholeIsKnown(names: VpcNames, sel: seq<Selector>, s: Selector, v: Name)
    requires s in sel && WholeVpc(names, s, v)
    ensures v in VpcIds(names, sel)
  {
    if VpcIdOf(s) != Some(v) { assert VpcNameOf(s).value in names.Keys; }
  }

  /** Selectors that are not expressible lose a machine. */
  lemma LostMachine(names: VpcNames, sel: seq<Selector>) returns (vm: Vm)
    requires AllAccepted(sel) && !Expressible(names, sel) && Sane(names, sel)
    ensures vm.valid && vm.vpc != Name("") && Selected(names, sel, vm) && !Returned(names, AwsQueries(sel), vm)
  {
    var id := FreshName(Mentioned(sel));
    if exists s <- sel :: Everything(s) {
      var s :| s in sel && Everything(s);
      var vpc := FreshName(VpcIds(names, sel));
      vm := Vm(id, id, vpc, true);
      EverythingSelects(names, sel, s, vm);
    } else {
      var s, v :| s in sel && WholeVpc(names, s, v) && !AskedSomewhere(names, sel, v);
      vm := Vm(id, id, v, true);
      WholeIsKnown(names, sel, s, v);
      EverythingSelects(names, sel, s, vm);
    }
    if AwsReturns(names, sel, vm) {
      StrangerReturned(names, sel, vm);
      AskedIsKnown(names, sel, vm.vpc);
    }
    if forall s <- sel :: !SelectsAll(s) {
      AwsQueriesReturn(names, sel, vm);
    }
  }

  // ---------------------------------------------------------------------------------------------
  // The theorem
  // ---------------------------------------------------------------------------------------------

  /** The union of the queries returns exactly the selected machines, of those in a valid state. */
  ghost predicate Faithful(names: VpcNames, sel: seq<Selector>) {
    forall vm: Vm :: vm.valid && vm.vpc != Name("") ==> (Returned(names, AwsQueries(sel), vm) <==> Selected(names, sel, vm))
  }

  /** Selectors the webhook accepts keep their meaning exactly when they are expressible. */
  lemma AwsCompilationIsFaithful(names: VpcNames, sel: seq<Selector>)
    requires AllAccepted(sel) && Sane(names, sel)
    ensures Faithful(names, sel) <==> Expressible(names, sel)
  {
    if Expressible(names, sel) {
      assert forall s <- sel :: SelectsAll(s) ==> Everything(s);
      forall vm: Vm | vm.valid && vm.vpc != Name("")
        ensures Returned(names, AwsQueries(sel), vm) <==> Selected(names, sel, vm)
      {
        AwsQueriesReturn(names, sel, vm);
        if AwsReturns(names, sel, vm) { AwsIsSound(names, sel, vm); }
        if Selected(names, sel, vm) { AwsIsComplete(names, sel, vm); }
      }
    } else {
      var vm := LostMachine(names, sel);
    }
  }

  /** Enough for that: no machine match is blank, and a selector without machine match names a VPC. */
  lemma OrdinarySelectorsAreExpressible(names: VpcNames, sel: seq<Selector>)
    requires forall s <- sel :: !AnyBlank(s.vms) && (s.vms == [] ==> VpcIdOf(s).Some? || VpcNameOf(s).Some?)
    ensures Expressible(names, sel)
  {
    forall s, v | s in sel && WholeVpc(names, s, v) ensures AskedSomewhere(names, sel, v) {
      assert Asked(names, s, v);
    }
  }

  // ---------------------------------------------------------------------------------------------
  // Accepted selectors that select nothing
  // ---------------------------------------------------------------------------------------------

  /** A VPC match without id and name means every machine, and no query is made for it. */
  lemma BlankVpcMatchSelectsNothing(names: VpcNames, vm: Vm)
    ensures var sel := [Selector(Some(Match(None, None)), [])];
            AllAccepted(sel) && Selected(names, sel, vm) && AwsQueries(sel) == [] && AzureQueries(sel) == []
  {
    var sel := [Selector(Some(Match(None, None)), [])];
    assert sel[0] in sel && SelectsAll(sel[0]) && SelectsAllAzure(sel[0]);
    assert Satisfies(names, sel[0], vm);
  }

  /** So does a blank machine match, alone or beside others that are not blank. */
  lemma BlankMachineMatchSelectsNothing(names: VpcNames, vm: Vm)
    ensures var sel := [Selector(None, [Match(None, None)])];
            AllAccepted(sel) && Selected(names, sel, vm) && !Returned(names, AwsQueries(sel), vm)
  {
    var s := Selector(None, [Match(None, None)]);
    assert VmSatisfies(s.vms[0], vm) && Satisfies(names, [s][0], vm);
    AwsQueriesReturn(names, [s], vm);
    assert VmIds(s.vms) == {} && VmNames(s.vms) == {};
    assert AllVmIds([s]) == {} && AllVmNames([s]) == {} && VpcOnly([s]) == {} && VpcNamesOnly([s]) == {};
  }
}
