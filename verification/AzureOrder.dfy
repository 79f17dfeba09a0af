/** From tier, policy and rule priorities to the priorities Azure enforces. */
module AzureOrder {
  import opened Wrappers
  import opened CloudRules
  import opened Decimals
  import opened Descriptions
  import Reconcile
  import AzureConverters
  import opened Priorities
  import opened AzureMerge
  import opened AzureEffective
  import opened AzureRuns

  /** Where a rule of a policy comes from. */
  datatype Source = Source(name: string, namespace: string, tier: int, policy: int, rule: int)

  predicate Valid(s: Source) {
    && Clean(s.name) && Clean(s.namespace) && '/' !in s.name && '/' !in s.namespace
    && SmallTier(s.tier) && s.tier % TIER_STEP == 0
    && 1 <= s.policy <= MAX_PRIORITY && RuleInRange(s.rule)
  }

  /** The description such a rule is given, printed and read back from the cloud. */
  function ReadBack(s: Source): Option<Description> {
    var text := Generate(s.namespace + "/" + s.name, RulePriority(Some(s.tier), Some(s.policy as real), s.rule));
    if text.Err? then None else Extract(text.value)
  }

  lemma ReadBackRank(s: Source)
    requires Valid(s)
    ensures ReadBack(s) == Some(Description(s.name, s.namespace, Some(Value(s.tier, s.policy as real, s.rule))))
  {
    var priority := RulePriority(Some(s.tier), Some(s.policy as real), s.rule);
    GenerateRoundTrip(s.name, s.namespace, priority);
    PriorityPrintsExactly(s.tier, s.policy, s.rule);
  }

  /**
   * Order is preserved end to end: whatever updates were made, of two rules of one direction the one with
   * the smaller tier, policy and rule priority, compared in that order, has the smaller Azure priority.
   */
  lemma OrderIsPreserved(rs: seq<AzureRule>, cs: seq<Change>, low: real, d: Direction, i: nat, j: nat, a: Source, b: Source)
    requires Ordered(rs, low) && cs != [] && forall c <- cs :: Proper(c, low)
    requires i < |Managed(Side(Run(rs, cs), d))| && j < |Managed(Side(Run(rs, cs), d))|
    requires Valid(a) && Valid(b)
    requires Managed(Side(Run(rs, cs), d))[i].desc == ReadBack(a)
    requires Managed(Side(Run(rs, cs), d))[j].desc == ReadBack(b)
    requires Lexicographic(a.tier, a.policy, a.rule, b.tier, b.policy, b.rule)
    ensures Managed(Side(Run(rs, cs), d))[i].priority < Managed(Side(Run(rs, cs), d))[j].priority
  {
    ReadBackRank(a);
    ReadBackRank(b);
    TierOrder(a.tier, b.tier);
    PriorityIsLexicographic(a.tier, a.policy, a.rule, b.tier, b.policy, b.rule);
    SmallerRankFirst(rs, cs, low, d, i, j);
  }

  // ---------------------------------------------------------------------------------------------
  // The additions of a delta come in order
  // ---------------------------------------------------------------------------------------------

  /** The description of a rule of one policy, printed and read back. */
  function DescriptionOf(owner: Owner, r: Rule): Option<Description> {
    var text := Generate(owner, r.priority);
    if text.Err? then None else Extract(text.value)
  }

  /** The rank such a rule has in Azure: its priority with four digits after the point. */
  function RankOf(r: Rule): real
    requires r.priority.Some?
  {
    Round4(r.priority.value) as real / 10000.0
  }

  predicate Ascending(src: seq<nat>, n: nat) {
    (forall i :: 0 <= i < |src| ==> src[i] < n) && forall i, j :: 0 <= i < j < |src| ==> src[i] <= src[j]
  }

  /** The Azure rules made of some of the rules, one or more for each, in their order. */
  predicate MadeOf(azs: seq<AzureRule>, owner: Owner, rs: seq<Rule>, src: seq<nat>) {
    && |azs| == |src| && Ascending(src, |rs|)
    && forall k :: 0 <= k < |azs| ==> azs[k].desc == DescriptionOf(owner, rs[src[k]])
  }

  predicate Bounded(rs: seq<Rule>, low: real) {
    forall r <- rs :: r.priority.Some? && low <= RankOf(r)
  }

  lemma DescriptionRank(owner: Owner, namespace: string, name: string, r: Rule)
    requires GoodOwner(owner, namespace, name) && r.priority.Some?
    ensures DescriptionOf(owner, r) == Some(Description(name, namespace, Some(RankOf(r))))
  {
    GenerateRoundTrip(name, namespace, r.priority);
  }

  lemma RanksAscend(a: Rule, b: Rule)
    requires a.priority.Some? && b.priority.Some? && Reconcile.PriorityOf(a) <= Reconcile.PriorityOf(b)
    ensures RankOf(a) <= RankOf(b)
  {
    RoundMonotone(a.priority.value, b.priority.value);
  }

  lemma RankedInOrder(azs: seq<AzureRule>, owner: Owner, namespace: string, name: string,
                      rs: seq<Rule>, src: seq<nat>, i: nat, j: nat)
    requires GoodOwner(owner, namespace, name) && Reconcile.Sorted(rs) && MadeOf(azs, owner, rs, src)
    requires i <= j < |azs| && rs[src[i]].priority.Some? && rs[src[j]].priority.Some?
    ensures Ranked(azs[i]) && Rank(azs[i]) == RankOf(rs[src[i]])
    ensures Ranked(azs[j]) && Rank(azs[i]) <= Rank(azs[j])
  {
    DescriptionRank(owner, namespace, name, rs[src[i]]);
    DescriptionRank(owner, namespace, name, rs[src[j]]);
    if src[i] < src[j] { RanksAscend(rs[src[i]], rs[src[j]]); }
  }

  predicate AscendingRanks(azs: seq<AzureRule>, low: real) {
    && (forall i :: 0 <= i < |azs| ==> Ranked(azs[i]) && low <= Rank(azs[i]))
    && forall i, j :: 0 <= i < j < |azs| ==> Rank(azs[i]) <= Rank(azs[j])
  }

  lemma {:induction false} SortedByRank(azs: seq<AzureRule>, low: real)
    requires AscendingRanks(azs, low)
    ensures Sorted(azs, low)
  {
    if azs != [] { SortedByRank(azs[1..], Rank(azs[0])); }
  }

  /** Rules sorted by priority, as a delta lists its additions, give Azure rules sorted by rank. */
  lemma AdditionsAreSorted(azs: seq<AzureRule>, owner: Owner, namespace: string, name: string,
                           rs: seq<Rule>, src: seq<nat>, low: real)
    requires GoodOwner(owner, namespace, name) && Reconcile.Sorted(rs) && MadeOf(azs, owner, rs, src)
    requires Bounded(rs, low)
    ensures Sorted(azs, low)
  {
    forall i, j | 0 <= i <= j < |azs|
      ensures Ranked(azs[i]) && low <= Rank(azs[i]) && Ranked(azs[j]) && Rank(azs[i]) <= Rank(azs[j])
    {
      assert rs[src[i]] in rs && rs[src[j]] in rs;
      RankedInOrder(azs, owner, namespace, name, rs, src, i, j);
    }
    SortedByRank(azs, low);
  }

  // ---------------------------------------------------------------------------------------------
  // From a delta to a change
  // ---------------------------------------------------------------------------------------------

  /** A converted rule as it enters the list of the security group: attached to the group, not numbered yet. */
  function Placed(group: string, n: NsgRule): AzureRule {
    AzureRule(n.direction, UNSET, Extract(n.description), {group}, n)
  }

  function PlaceAll(group: string, ns: seq<NsgRule>): seq<AzureRule> {
    seq(|ns|, i requires 0 <= i < |ns| => Placed(group, ns[i]))
  }

  /** The rules of one direction, in order. */
  function Directed(rs: seq<Rule>, d: Direction): seq<Rule> {
    if rs == [] then []
    else Directed(rs[..|rs| - 1], d) + if rs[|rs| - 1].direction == d then [rs[|rs| - 1]] else []
  }

  lemma {:induction false} DirectedIs(rs: seq<Rule>, d: Direction, low: real)
    requires Reconcile.Sorted(rs) && Bounded(rs, low)
    ensures Reconcile.Sorted(Directed(rs, d)) && Bounded(Directed(rs, d), low)
    ensures forall r <- Directed(rs, d) :: r in rs && r.direction == d
  {
    if rs != [] {
      var init, last := rs[..|rs| - 1], rs[|rs| - 1];
      assert rs == init + [last];
      DirectedIs(init, d, low);
      if last.direction == d {
        LastIsLargest(init, last);
        SortedSnoc(Directed(init, d), last);
        assert last in rs;
      }
    }
  }

  lemma LastIsLargest(init: seq<Rule>, last: Rule)
    requires Reconcile.Sorted(init + [last])
    ensures forall r <- init :: Reconcile.PriorityOf(r) <= Reconcile.PriorityOf(last)
  {
    var rs := init + [last];
    forall r <- init ensures Reconcile.PriorityOf(r) <= Reconcile.PriorityOf(last) {
      var i :| 0 <= i < |init| && init[i] == r;
      assert Reconcile.PriorityOf(rs[i]) <= Reconcile.PriorityOf(rs[|init|]);
    }
  }

  lemma SortedSnoc(rs: seq<Rule>, r: Rule)
    requires Reconcile.Sorted(rs) && forall x <- rs :: Reconcile.PriorityOf(x) <= Reconcile.PriorityOf(r)
    ensures Reconcile.Sorted(rs + [r])
  {
  }

  /** What one rule is converted to carries its direction and its description. */
  lemma ConvertedAlike(prefix: string, known: set<string>, o: CloudRule, n: NsgRule)
    requires AzureConverters.ToNsgRules(prefix, known, o).Ok? && n in AzureConverters.ToNsgRules(prefix, known, o).value
    ensures n.direction == o.rule.direction && Extract(n.description) == DescriptionOf(o.owner, o.rule)
  {
  }

  /** Where each converted rule comes from. */
  ghost function Origins(prefix: string, known: set<string>, os: seq<CloudRule>): seq<nat>
    requires AzureConverters.ToAll(prefix, known, os).Ok?
  {
    if os == [] then []
    else
      var n := |os| - 1;
      Origins(prefix, known, os[..n]) + seq(|AzureConverters.ToNsgRules(prefix, known, os[n]).value|, _ => n)
  }

  /** Each converted rule is one of the rules its origin is converted to, and origins ascend. */
  lemma {:induction false} OriginsAre(prefix: string, known: set<string>, os: seq<CloudRule>)
    requires AzureConverters.ToAll(prefix, known, os).Ok?
    ensures var (ns, src) := (AzureConverters.ToAll(prefix, known, os).value, Origins(prefix, known, os));
            && |ns| == |src| && Ascending(src, |os|)
            && forall k :: 0 <= k < |ns| ==> OriginOf(prefix, known, os, src[k], ns[k])
  {
    if os != [] {
      var n := |os| - 1;
      OriginsAre(prefix, known, os[..n]);
      var a, more := Origins(prefix, known, os[..n]), AzureConverters.ToNsgRules(prefix, known, os[n]).value;
      AscendingThen(a, n, |more|);
      OriginsLater(prefix, known, os, AzureConverters.ToAll(prefix, known, os[..n]).value, a, more);
    }
  }

  predicate OriginOf(prefix: string, known: set<string>, os: seq<CloudRule>, i: nat, n: NsgRule) {
    i < |os| && var to := AzureConverters.ToNsgRules(prefix, known, os[i]); to.Ok? && n in to.value
  }

  lemma AscendingThen(a: seq<nat>, n: nat, m: nat)
    requires Ascending(a, n)
    ensures Ascending(a + seq(m, _ => n), n + 1)
  {
  }

  lemma OriginsLater(prefix: string, known: set<string>, os: seq<CloudRule>, ns: seq<NsgRule>, src: seq<nat>, more: seq<NsgRule>)
    requires os != [] && |ns| == |src|
    requires forall k :: 0 <= k < |ns| ==> OriginOf(prefix, known, os[..|os| - 1], src[k], ns[k])
    requires AzureConverters.ToNsgRules(prefix, known, os[|os| - 1]) == Ok(more)
    ensures var (all, from) := (ns + more, src + seq(|more|, _ => |os| - 1));
            forall k :: 0 <= k < |all| ==> OriginOf(prefix, known, os, from[k], all[k])
  {
    var (all, from) := (ns + more, src + seq(|more|, _ => |os| - 1));
    forall k | 0 <= k < |all| ensures OriginOf(prefix, known, os, from[k], all[k]) {
      if k < |ns| { assert OriginOf(prefix, known, os[..|os| - 1], src[k], ns[k]); }
    }
  }

  /** The rules of one direction of a sorted list convert into Azure rules of that direction, sorted by rank. */
  lemma ConvertedInOrder(prefix: string, known: set<string>, group: string, owner: Owner, namespace: string, name: string,
                         rs: seq<Rule>, d: Direction, ns: seq<NsgRule>, low: real)
    requires GoodOwner(owner, namespace, name) && Reconcile.Sorted(rs) && Bounded(rs, low)
    requires AzureConverters.ToAll(prefix, known, OwnedBy(owner, Directed(rs, d))) == Ok(ns)
    ensures Sorted(PlaceAll(group, ns), low) && OneWay(PlaceAll(group, ns), d)
  {
    var some := Directed(rs, d);
    var os := OwnedBy(owner, some);
    var src := Origins(prefix, known, os);
    DirectedIs(rs, d, low);
    OriginsAre(prefix, known, os);
    forall k | 0 <= k < |ns|
      ensures src[k] < |some| && ns[k].direction == d && Extract(ns[k].description) == DescriptionOf(owner, some[src[k]])
    {
      assert OriginOf(prefix, known, os, src[k], ns[k]);
      assert some[src[k]] in some;
      ConvertedAlike(prefix, known, os[src[k]], ns[k]);
    }
    AdditionsAreSorted(PlaceAll(group, ns), owner, namespace, name, some, src, low);
  }

  /**
   * So the change made of a delta is one that every run of updates keeps in order: the additions, sorted by
   * priority, are converted direction by direction.
   */
  lemma DeltaIsProper(c: Change, prefix: string, known: set<string>, owner: Owner, namespace: string, name: string,
                      rs: seq<Rule>, ins: seq<NsgRule>, outs: seq<NsgRule>, low: real)
    requires GoodOwner(owner, namespace, name) && Reconcile.Sorted(rs) && Bounded(rs, low)
    requires AzureConverters.ToAll(prefix, known, OwnedBy(owner, Directed(rs, Ingress))) == Ok(ins)
    requires AzureConverters.ToAll(prefix, known, OwnedBy(owner, Directed(rs, Egress))) == Ok(outs)
    requires c.addIn == PlaceAll(c.group, ins) && c.addOut == PlaceAll(c.group, outs)
    ensures Proper(c, low) && Attached(c.addIn, c.group) && Attached(c.addOut, c.group)
  {
    ConvertedInOrder(prefix, known, c.group, owner, namespace, name, rs, Ingress, ins, low);
    ConvertedInOrder(prefix, known, c.group, owner, namespace, name, rs, Egress, outs, low);
  }
}
