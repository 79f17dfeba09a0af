/**
 * Virtual machine selectors and the cloud filters they are compiled to. A selector list means: machines
 * satisfying any selector, where a selector's VPC match and its machine matches are both satisfied.
 */
module Selectors {
  import opened Wrappers

  /** Ids and names of machines and VPCs. A field that is empty or only white space counts as absent. */
  datatype Name = Name(text: string)

  datatype Match = Match(name: Option<Name>, id: Option<Name>)

  datatype Selector = Selector(vpc: Option<Match>, vms: seq<Match>)

  /** `valid`: running, stopped, or on the way between the two. */
  datatype Vm = Vm(id: Name, name: Name, vpc: Name, valid: bool)

  /** The ids of the VPCs that have a name; names are unique. */
  type VpcNames = map<Name, Name>

  // ---------------------------------------------------------------------------------------------
  // What selectors mean
  // ---------------------------------------------------------------------------------------------

  predicate VpcSatisfies(names: VpcNames, m: Option<Match>, vm: Vm) {
    m.Some? ==>
      && (m.value.id.Some? ==> vm.vpc == m.value.id.value)
      && (m.value.name.Some? ==> m.value.name.value in names && names[m.value.name.value] == vm.vpc)
  }

  predicate VmSatisfies(m: Match, vm: Vm) {
    (m.id.Some? ==> vm.id == m.id.value) && (m.name.Some? ==> vm.name == m.name.value)
  }

  predicate AnyVm(ms: seq<Match>, vm: Vm) {
    exists i :: 0 <= i < |ms| && VmSatisfies(ms[i], vm)
  }

  predicate Satisfies(names: VpcNames, s: Selector, vm: Vm) {
    VpcSatisfies(names, s.vpc, vm) && (s.vms == [] || AnyVm(s.vms, vm))
  }

  predicate Selected(names: VpcNames, sel: seq<Selector>, vm: Vm) {
    exists i :: 0 <= i < |sel| && Satisfies(names, sel[i], vm)
  }

  // ---------------------------------------------------------------------------------------------
  // Filters
  // ---------------------------------------------------------------------------------------------

  /** Each filter lists the values it lets through; the order of the values is of no consequence. */
  datatype Filter =
    | VpcIdIn(values: set<Name>)
    | VmIdIn(values: set<Name>)
    | VmNameIn(values: set<Name>)
    | VpcNameIn(values: set<Name>)
    | InValidState

  /** The id the controller looks up for a VPC name: the empty one if there is no such VPC. */
  function IdOf(names: VpcNames, n: Name): Name {
    if n in names then names[n] else Name("")
  }

  /** A filter by VPC name is turned into one by VPC id before it is sent. */
  predicate Passes(names: VpcNames, f: Filter, vm: Vm) {
    match f
    case VpcIdIn(ids) => vm.vpc in ids
    case VmIdIn(ids) => vm.id in ids
    case VmNameIn(ns) => vm.name in ns
    case VpcNameIn(ns) => vm.vpc in set n <- ns :: IdOf(names, n)
    case InValidState => vm.valid
  }

  predicate PassesAll(names: VpcNames, fs: seq<Filter>, vm: Vm) {
    forall f <- fs :: Passes(names, f, vm)
  }

  /** A machine is returned when some query lets it through. */
  predicate Returned(names: VpcNames, queries: seq<seq<Filter>>, vm: Vm) {
    exists k :: 0 <= k < |queries| && PassesAll(names, queries[k], vm)
  }

  // ---------------------------------------------------------------------------------------------
  // The buckets
  // ---------------------------------------------------------------------------------------------

  function VpcIdOf(s: Selector): Option<Name> {
    if s.vpc.Some? then s.vpc.value.id else None
  }

  function VpcNameOf(s: Selector): Option<Name> {
    if s.vpc.Some? then s.vpc.value.name else None
  }

  predicate Blank(m: Match) {
    m.id.None? && m.name.None?
  }

  predicate AnyBlank(ms: seq<Match>) {
    exists m <- ms :: Blank(m)
  }

  predicate AllBlank(ms: seq<Match>) {
    forall m <- ms :: Blank(m)
  }

  /** Neither VPC nor machine is mentioned. */
  predicate SelectsAll(s: Selector) {
    VpcIdOf(s).None? && VpcNameOf(s).None? && s.vms == []
  }

  /** The selectors for a whole VPC, by id. */
  predicate IsVpcOnly(s: Selector) {
    VpcIdOf(s).Some? && s.vms == []
  }

  function VpcOnly(sel: seq<Selector>): set<Name> {
    set s <- sel | IsVpcOnly(s) :: VpcIdOf(s).value
  }

  /** The selectors for some machines of a VPC given by id. */
  predicate IsMixed(s: Selector) {
    VpcIdOf(s).Some? && !AllBlank(s.vms)
  }

  /** Those of them whose VPC is not selected as a whole. */
  function Mixed(sel: seq<Selector>, whole: set<Name>): seq<Selector> {
    if sel == [] then []
    else
      var init, last := Mixed(sel[..|sel| - 1], whole), sel[|sel| - 1];
      if IsMixed(last) && VpcIdOf(last).value !in whole then init + [last] else init
  }

  function VmIds(ms: seq<Match>): set<Name> {
    set m <- ms | m.id.Some? && m.name.None? :: m.id.value
  }

  function VmNames(ms: seq<Match>): set<Name> {
    set m <- ms | m.name.Some? && m.id.None? :: m.name.value
  }

  /** The machines selected by id alone. */
  function AllVmIds(sel: seq<Selector>): set<Name> {
    set s <- sel, n <- VmIds(s.vms) | VpcIdOf(s).None? :: n
  }

  function AllVmNames(sel: seq<Selector>): set<Name> {
    set s <- sel, n <- VmNames(s.vms) | VpcIdOf(s).None? :: n
  }

  predicate IsVpcNameOnly(s: Selector) {
    VpcNameOf(s).Some? && VpcIdOf(s).None? && s.vms == []
  }

  function VpcNamesOnly(sel: seq<Selector>): set<Name> {
    set s <- sel | IsVpcNameOnly(s) :: VpcNameOf(s).value
  }

  // ---------------------------------------------------------------------------------------------
  // The queries
  // ---------------------------------------------------------------------------------------------

  /** One query for a machine match inside a VPC; `state` is what the cloud asks of every machine. */
  function PairQuery(vpc: Name, m: Match, state: seq<Filter>): seq<Filter> {
    [VpcIdIn({vpc})] + (if m.id.Some? then [VmIdIn({m.id.value})] else [])
                     + (if m.name.Some? then [VmNameIn({m.name.value})] else []) + state
  }

  function PairQueries(s: Selector, state: seq<Filter>): seq<seq<Filter>>
    requires VpcIdOf(s).Some?
  {
    seq(|s.vms|, i requires 0 <= i < |s.vms| => PairQuery(VpcIdOf(s).value, s.vms[i], state))
  }

  function MixedQueries(ss: seq<Selector>, state: seq<Filter>): seq<seq<Filter>>
    requires forall s <- ss :: VpcIdOf(s).Some?
  {
    if ss == [] then [] else MixedQueries(ss[..|ss| - 1], state) + PairQueries(ss[|ss| - 1], state)
  }

  /** One query for all values of a bucket, none for an empty bucket. */
  function ListQuery(f: Filter, state: seq<Filter>): seq<seq<Filter>> {
    if f.InValidState? || f.values == {} then [] else [[f] + state]
  }

  lemma {:induction false} MixedHaveIds(sel: seq<Selector>, whole: set<Name>)
    ensures forall s <- Mixed(sel, whole) :: VpcIdOf(s).Some?
  {
    if sel != [] { MixedHaveIds(sel[..|sel| - 1], whole); }
  }

  /** The queries for AWS, in valid states only; a selector for everything yields none. */
  function AwsQueries(sel: seq<Selector>): seq<seq<Filter>> {
    if exists s <- sel :: SelectsAll(s) then []
    else
      MixedHaveIds(sel, VpcOnly(sel));
      ListQuery(VpcIdIn(VpcOnly(sel)), [InValidState]) + MixedQueries(Mixed(sel, VpcOnly(sel)), [InValidState])
      + ListQuery(VmIdIn(AllVmIds(sel)), [InValidState]) + ListQuery(VmNameIn(AllVmNames(sel)), [InValidState])
      + ListQuery(VpcNameIn(VpcNamesOnly(sel)), [InValidState])
  }

  /** Azure knows no VPC names: a selector without VPC id and machine match is one for everything. */
  predicate SelectsAllAzure(s: Selector) {
    VpcIdOf(s).None? && s.vms == []
  }

  function AzureQueries(sel: seq<Selector>): seq<seq<Filter>> {
    if exists s <- sel :: SelectsAllAzure(s) then []
    else
      MixedHaveIds(sel, VpcOnly(sel));
      ListQuery(VpcIdIn(VpcOnly(sel)), []) + MixedQueries(Mixed(sel, VpcOnly(sel)), [])
      + ListQuery(VmNameIn(AllVmNames(sel)), []) + ListQuery(VmIdIn(AllVmIds(sel)), [])
  }
}
