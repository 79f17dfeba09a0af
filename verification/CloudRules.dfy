/** The rules of a security group, as the controller and both cloud plug-ins exchange them. */
module CloudRules {
  import opened Wrappers

  datatype Direction = Ingress | Egress

  datatype Action = Allow | Drop

  /** A group name inside a VPC. */
  datatype GroupId = GroupId(name: string, vpc: string)

  /**
   * An ingress or egress rule. The hash of a rule is taken as an injective image of the rule and of the
   * group it is applied to, so the rules of one group are told apart by their contents.
   */
  datatype Rule = Rule(
    direction: Direction, protocol: Option<int>, port: Option<int>,
    icmpType: Option<int>, icmpCode: Option<int>,
    cidrs: seq<string>, groups: seq<GroupId>,
    priority: Option<real>, action: Option<Action>, name: string)

  /** The namespaced name of a policy; the empty name stands for rules no policy owns. */
  type Owner = string

  /** A rule in or for the cloud, and the policy that owns it. */
  datatype CloudRule = CloudRule(rule: Rule, owner: Owner)

  /** A rule of a policy, with the groups it is applied to. */
  datatype PolicyRule = PolicyRule(rule: Rule, appliedTo: set<string>)

  /** What a cloud supports: Azure has priorities and actions, AWS neither. */
  datatype Provider = Provider(supportsPriority: bool, supportsAction: bool)

  // ---------------------------------------------------------------------------------------------
  // What rules mean
  // ---------------------------------------------------------------------------------------------

  /** The other end of traffic: an address block, or the members of a group. */
  datatype Peer = Cidr(cidr: string) | GroupPeer(id: GroupId)

  /** Traffic between a machine of an applied-to group and a peer. */
  datatype Traffic = Traffic(
    group: string, direction: Direction, peer: Peer, protocol: int, port: int, icmpType: int, icmpCode: int)

  predicate IsV6(cidr: string) {
    ':' in cidr
  }

  /** An address block covers itself, and the block of all addresses every one of its family. */
  predicate CoversCidr(cidr: string, x: string) {
    cidr == x || (cidr == "0.0.0.0/0" && !IsV6(x)) || (cidr == "::/0" && IsV6(x))
  }

  predicate Covers(p: Peer, x: Peer) {
    match p
    case Cidr(cidr) => x.Cidr? && CoversCidr(cidr, x.cidr)
    case GroupPeer(id) => x == GroupPeer(id)
  }

  /** A field that is not set admits everything. */
  predicate Admits(field: Option<int>, n: int) {
    field.None? || field.value == n
  }

  /** Without addresses and groups a rule is about every address. */
  predicate NamesPeer(r: Rule, x: Peer) {
    match x
    case Cidr(cidr) => (r.cidrs == [] && r.groups == []) || exists b <- r.cidrs :: CoversCidr(b, cidr)
    case GroupPeer(id) => id in r.groups
  }

  /** The service of a rule: protocol, port, ICMP type and code. */
  predicate NamesService(r: Rule, t: Traffic) {
    && Admits(r.protocol, t.protocol) && Admits(r.port, t.port)
    && Admits(r.icmpType, t.icmpType) && Admits(r.icmpCode, t.icmpCode)
  }

  /** A rule is about the traffic, whatever group it is applied to. */
  predicate RuleMatches(r: Rule, t: Traffic) {
    r.direction == t.direction && NamesPeer(r, t.peer) && NamesService(r, t)
  }

  /** A rule of a policy is about the traffic. */
  predicate Matches(c: PolicyRule, t: Traffic) {
    t.group in c.appliedTo && RuleMatches(c.rule, t)
  }

  // ---------------------------------------------------------------------------------------------
  // Rules for one group
  // ---------------------------------------------------------------------------------------------

  /** What is left of a rule on a provider: fields it does not support are not part of the hash. */
  function Strip(p: Provider, r: Rule): Rule {
    r.(priority := if p.supportsPriority then r.priority else None,
       action := if p.supportsAction then r.action else None,
       name := if p.supportsAction then r.name else "")
  }

  predicate Applies(r: PolicyRule, group: string) {
    group in r.appliedTo
  }

  predicate Unsupported(p: Provider, r: PolicyRule, group: string) {
    Applies(r, group) && !p.supportsAction && r.rule.action == Some(Drop)
  }

  /** The rules of a policy for one group, in order. */
  function RulesFor(p: Provider, rules: seq<PolicyRule>, group: string): seq<Rule> {
    if rules == [] then []
    else
      var init := RulesFor(p, rules[..|rules| - 1], group);
      var last := rules[|rules| - 1];
      if Applies(last, group) then init + [Strip(p, last.rule)] else init
  }

  lemma {:induction false} RulesForComplete(p: Provider, rules: seq<PolicyRule>, group: string, r: Rule)
    ensures r in RulesFor(p, rules, group) <==>
            exists i :: 0 <= i < |rules| && Applies(rules[i], group) && r == Strip(p, rules[i].rule)
  {
    if rules != [] {
      var init, last := rules[..|rules| - 1], rules[|rules| - 1];
      RulesForComplete(p, init, group, r);
      assert forall i :: 0 <= i < |init| ==> init[i] == rules[i];
      if Applies(last, group) && r == Strip(p, last.rule) {
        assert rules[|rules| - 1] == last;
      }
    }
  }

  /** Stripping leaves what a rule is about, and its orders where the provider has them; elsewhere nothing of them. */
  lemma StripKeepsMeaning(p: Provider, r: Rule, t: Traffic)
    ensures RuleMatches(Strip(p, r), t) <==> RuleMatches(r, t)
    ensures p.supportsPriority ==> Strip(p, r).priority == r.priority
    ensures p.supportsAction ==> Strip(p, r).action == r.action && Strip(p, r).name == r.name
    ensures forall q: Rule :: !p.supportsPriority ==> Strip(p, r.(priority := q.priority)) == Strip(p, r)
    ensures forall q: Rule :: !p.supportsAction ==> Strip(p, r.(action := q.action, name := q.name)) == Strip(p, r)
  {
  }

  /** The rules of a policy, to be converted. */
  function OwnedBy(owner: Owner, rs: seq<Rule>): seq<CloudRule> {
    seq(|rs|, i requires 0 <= i < |rs| => CloudRule(rs[i], owner))
  }

  /** The rules for a group are about the same traffic of that group as the rules they are taken from. */
  lemma RulesForMean(p: Provider, rules: seq<PolicyRule>, t: Traffic)
    ensures (exists r <- RulesFor(p, rules, t.group) :: RuleMatches(r, t)) <==> exists c <- rules :: Matches(c, t)
  {
    if r :| r in RulesFor(p, rules, t.group) && RuleMatches(r, t) {
      RulesForComplete(p, rules, t.group, r);
      var i :| 0 <= i < |rules| && Applies(rules[i], t.group) && r == Strip(p, rules[i].rule);
      StripKeepsMeaning(p, rules[i].rule, t);
      assert rules[i] in rules;
    }
    if c :| c in rules && Matches(c, t) {
      var i :| 0 <= i < |rules| && rules[i] == c;
      StripKeepsMeaning(p, c.rule, t);
      RulesForComplete(p, rules, t.group, Strip(p, c.rule));
    }
  }

  /** Fails exactly when a rule applied to the group drops traffic on a provider without actions. */
  method CloudRulesFor(p: Provider, rules: seq<PolicyRule>, group: string) returns (r: Result<seq<Rule>>)
    ensures r.Err? <==> exists i :: 0 <= i < |rules| && Unsupported(p, rules[i], group)
    ensures r.Ok? ==> r.value == RulesFor(p, rules, group)
  {
    var out: seq<Rule> := [];
    for i := 0 to |rules|
      invariant out == RulesFor(p, rules[..i], group)
      invariant forall j :: 0 <= j < i ==> !Unsupported(p, rules[j], group)
    {
      assert rules[..i + 1][..i] == rules[..i];
      if !Applies(rules[i], group) { continue; }
      var copy := rules[i].rule;
      if !p.supportsPriority { copy := copy.(priority := None); }
      if !p.supportsAction {
        if rules[i].rule.action == Some(Drop) { return Err; }
        copy := copy.(action := None);
      }
      if !p.supportsAction { copy := copy.(name := ""); }
      out := out + [copy];
    }
    assert rules[..|rules|] == rules;
    return Ok(out);
  }
}
