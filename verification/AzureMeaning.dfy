/** What Azure security rules admit: conversion keeps what a rule is about, down from the policy. */
module AzureMeaning {
  import opened Wrappers
  import opened Text
  import opened CloudRules
  import opened Descriptions
  import opened Expansion
  import opened AzureConverters

  // ---------------------------------------------------------------------------------------------
  // What a security rule admits
  // ---------------------------------------------------------------------------------------------

  /** The numbers are the assigned ones. */
  predicate AdmitsProtocol(p: AzureProtocol, n: int) {
    match p
    case Asterisk => true
    case Icmp => n == 1
    case Tcp => n == 6
    case Udp => n == 17
    case OtherProtocol => false
  }

  predicate AdmitsText(p: PortText, n: int) {
    p == AnyPort || p.n == n
  }

  /** Of an ICMP rule the source port is the type and the destination port the code. */
  predicate AdmitsService(n: NsgRule, t: Traffic) {
    && AdmitsProtocol(n.protocol, t.protocol)
    && (if n.protocol == Icmp then AdmitsText(n.sourcePort, t.icmpType) && AdmitsText(n.destPort, t.icmpCode)
        else AdmitsText(n.destPort, t.port))
  }

  predicate AdmitsPeer(prefix: string, vnet: string, n: NsgRule, x: Peer) {
    match x
    case Cidr(cidr) =>
      || (n.prefix.Some? && (n.prefix.value == "*" || CoversCidr(n.prefix.value, cidr)))
      || exists b <- n.prefixes :: CoversCidr(b, cidr)
    case GroupPeer(id) => id.vpc == vnet && AsgName(prefix, id) in n.asgs
  }

  predicate Permits(prefix: string, vnet: string, n: NsgRule, t: Traffic) {
    n.direction == t.direction && AdmitsPeer(prefix, vnet, n, t.peer) && AdmitsService(n, t)
  }

  predicate SomePermits(prefix: string, vnet: string, ns: seq<NsgRule>, t: Traffic, access: Access) {
    exists n <- ns :: Permits(prefix, vnet, n, t) && n.access == access
  }

  // ---------------------------------------------------------------------------------------------
  // Conversion
  // ---------------------------------------------------------------------------------------------

  /** Types and codes come with ICMP, ports without; the groups are in this network, named in lower case. */
  predicate Sensible(vnet: string, r: Rule) {
    && (r.protocol == Some(1) ==> r.port.None?)
    && (r.protocol != Some(1) ==> r.icmpType.None? && r.icmpCode.None?)
    && forall g <- r.groups :: g.vpc == vnet && Lower(g.name) == g.name
  }

  predicate Real(t: Traffic) {
    t.peer.GroupPeer? ==> Lower(t.peer.id.name) == t.peer.id.name
  }

  function AccessOf(action: Option<Action>): Access {
    if action == Some(Drop) then DenyAccess else AllowAccess
  }

  lemma AsgNameApart(prefix: string, g: GroupId, h: GroupId)
    requires AsgName(prefix, g) == AsgName(prefix, h)
    ensures Lower(g.name) == Lower(h.name)
  {
    var p := prefix + "-ag-";
    assert AsgName(prefix, g)[|p|..] == Lower(g.name) && AsgName(prefix, h)[|p|..] == Lower(h.name);
  }

  lemma {:induction false} ToAsgsMean(prefix: string, known: set<string>, groups: seq<GroupId>, name: string)
    requires ToAsgs(prefix, known, groups).Ok?
    ensures name in ToAsgs(prefix, known, groups).value <==> exists g <- groups :: AsgName(prefix, g) == name
  {
    if groups != [] {
      var init, last := groups[..|groups| - 1], groups[|groups| - 1];
      assert groups == init + [last];
      ToAsgsMean(prefix, known, init, name);
    }
  }

  lemma {:induction false} ToAsgsSome(prefix: string, known: set<string>, groups: seq<GroupId>)
    requires ToAsgs(prefix, known, groups).Ok?
    ensures ToAsgs(prefix, known, groups).value == [] <==> groups == []
  {
  }

  lemma GroupMeans(prefix: string, vnet: string, known: set<string>, r: Rule, x: Peer)
    requires ToAsgs(prefix, known, r.groups).Ok? && Sensible(vnet, r) && x.GroupPeer? && Lower(x.id.name) == x.id.name
    ensures x.id.vpc == vnet && AsgName(prefix, x.id) in ToAsgs(prefix, known, r.groups).value <==> x.id in r.groups
  {
    ToAsgsMean(prefix, known, r.groups, AsgName(prefix, x.id));
    if x.id.vpc == vnet {
      if g :| g in r.groups && AsgName(prefix, g) == AsgName(prefix, x.id) { AsgNameApart(prefix, g, x.id); }
    }
  }

  lemma FrameMeans(vnet: string, r: Rule, protocol: AzureProtocol, text: string, t: Traffic)
    requires Sensible(vnet, r) && ToProtocol(r.protocol) == Ok(protocol)
    ensures var n := Frame(r, protocol, text);
            && n.direction == r.direction && n.access == AccessOf(r.action) && (AdmitsService(n, t) <==> NamesService(r, t))
  {
  }

  /** The rule for the addresses, if there is one, and the rule for the groups. */
  lemma AddressRulesMean(prefix: string, vnet: string, r: Rule, frame: NsgRule, x: Peer)
    requires frame.prefix == None && frame.prefixes == [] && frame.asgs == []
    ensures (exists n <- AddressRules(r, frame) :: AdmitsPeer(prefix, vnet, n, x)) <==> x.Cidr? && NamesPeer(r, x)
  {
    var ns := AddressRules(r, frame);
    if ns != [] { assert ns[0] in ns; }
  }

  /** The security rules of a rule admit exactly the traffic it is about, and all have its action. */
  lemma {:induction false} RulesMean(prefix: string, vnet: string, known: set<string>, o: CloudRule, t: Traffic)
    requires ToNsgRules(prefix, known, o).Ok? && Sensible(vnet, o.rule) && Real(t)
    ensures var ns := ToNsgRules(prefix, known, o).value;
            && ((exists n <- ns :: Permits(prefix, vnet, n, t)) <==> RuleMatches(o.rule, t))
            && forall n <- ns :: n.access == AccessOf(o.rule.action)
  {
    var r := o.rule;
    var (protocol, asgs) := (ToProtocol(r.protocol).value, ToAsgs(prefix, known, r.groups).value);
    var frame := Frame(r, protocol, Generate(o.owner, r.priority).value);
    FrameMeans(vnet, r, protocol, Generate(o.owner, r.priority).value, t);
    var (a, b) := (AddressRules(r, frame), if asgs == [] then [] else [frame.(asgs := asgs)]);
    var ns := ToNsgRules(prefix, known, o).value;
    assert forall n :: n in ns <==> n in a || n in b;
    assert forall n <- ns :: n.direction == frame.direction && n.access == frame.access
                             && (AdmitsService(n, t) <==> AdmitsService(frame, t));
    AddressRulesMean(prefix, vnet, r, frame, t.peer);
    ToAsgsSome(prefix, known, r.groups);
    assert (exists n <- b :: AdmitsPeer(prefix, vnet, n, t.peer)) <==> t.peer.GroupPeer? && t.peer.id in r.groups by {
      if t.peer.GroupPeer? { GroupMeans(prefix, vnet, known, r, t.peer); }
      if b != [] { assert b[0] in b; }
    }
    assert (exists n <- ns :: AdmitsPeer(prefix, vnet, n, t.peer)) <==> NamesPeer(r, t.peer);
  }

  lemma {:induction false} ToAllMember(prefix: string, known: set<string>, os: seq<CloudRule>, n: NsgRule)
    requires ToAll(prefix, known, os).Ok?
    ensures n in ToAll(prefix, known, os).value <==>
            exists o <- os :: ToNsgRules(prefix, known, o).Ok? && n in ToNsgRules(prefix, known, o).value
  {
    if os != [] {
      var init, last := os[..|os| - 1], os[|os| - 1];
      assert os == init + [last];
      ToAllMember(prefix, known, init, n);
    }
  }

  lemma {:induction false} ToAllEach(prefix: string, known: set<string>, os: seq<CloudRule>, o: CloudRule)
    requires ToAll(prefix, known, os).Ok? && o in os
    ensures ToNsgRules(prefix, known, o).Ok?
  {
    var init, last := os[..|os| - 1], os[|os| - 1];
    assert os == init + [last];
    if o in init { ToAllEach(prefix, known, init, o); }
  }

  /** The security rules of a list admit traffic, with an access, exactly when some rule of it is about it so. */
  lemma {:induction false} ListMeans(prefix: string, vnet: string, known: set<string>, os: seq<CloudRule>, t: Traffic,
                                     access: Access)
    requires ToAll(prefix, known, os).Ok? && (forall o <- os :: Sensible(vnet, o.rule)) && Real(t)
    ensures SomePermits(prefix, vnet, ToAll(prefix, known, os).value, t, access) <==>
            exists o <- os :: RuleMatches(o.rule, t) && AccessOf(o.rule.action) == access
  {
    var ns := ToAll(prefix, known, os).value;
    if n :| n in ns && Permits(prefix, vnet, n, t) && n.access == access {
      ToAllMember(prefix, known, os, n);
      var o :| o in os && ToNsgRules(prefix, known, o).Ok? && n in ToNsgRules(prefix, known, o).value;
      RulesMean(prefix, vnet, known, o, t);
    }
    if o :| o in os && RuleMatches(o.rule, t) && AccessOf(o.rule.action) == access {
      ToAllEach(prefix, known, os, o);
      RulesMean(prefix, vnet, known, o, t);
      var n :| n in ToNsgRules(prefix, known, o).value && Permits(prefix, vnet, n, t);
      ToAllMember(prefix, known, os, n);
    }
  }

  // ---------------------------------------------------------------------------------------------
  // From the policy
  // ---------------------------------------------------------------------------------------------

  /** Azure takes priorities and actions. */
  const AZURE := Provider(true, true)

  lemma {:induction false} OwnedMember(rules: seq<Rule>, owner: Owner, o: CloudRule)
    ensures o in OwnedBy(owner, rules) <==> o.rule in rules && o.owner == owner
  {
    var os := OwnedBy(owner, rules);
    if o in os { var i :| 0 <= i < |os| && os[i] == o; }
    if o.rule in rules && o.owner == owner {
      var i :| 0 <= i < |rules| && rules[i] == o.rule;
      assert os[i] == o;
    }
  }

  lemma {:induction false} FromSomeRule(groups: Groups, np: NetworkPolicy, rules: seq<NpRule>, owner: Owner, t: Traffic,
                                        o: CloudRule)
    returns (r: NpRule)
    requires FromPolicy(groups, np, rules).Some? && RuleMatches(o.rule, t)
    requires o in OwnedBy(owner, RulesFor(AZURE, FromPolicy(groups, np, rules).value, t.group))
    ensures r in rules && HasPeer(groups, r, t.peer) && Concerns(np, r, t) && r.action == o.rule.action
  {
    var out := FromPolicy(groups, np, rules).value;
    OwnedMember(RulesFor(AZURE, out, t.group), owner, o);
    RulesForComplete(AZURE, out, t.group, o.rule);
    var i :| 0 <= i < |out| && Applies(out[i], t.group) && o.rule == Strip(AZURE, out[i].rule);
    StripKeepsMeaning(AZURE, out[i].rule, t);
    DecidedIsOrdered(groups, np, rules, t, out[i]);
    r :| r in rules && HasPeer(groups, r, t.peer) && Concerns(np, r, t) && OrdersOf(np, r, o.rule.action, o.rule.priority);
  }

  lemma {:induction false} ToSomeRule(groups: Groups, np: NetworkPolicy, rules: seq<NpRule>, owner: Owner, t: Traffic, r: NpRule)
    returns (o: CloudRule)
    requires FromPolicy(groups, np, rules).Some? && r in rules && HasPeer(groups, r, t.peer) && Concerns(np, r, t)
    ensures o in OwnedBy(owner, RulesFor(AZURE, FromPolicy(groups, np, rules).value, t.group))
    ensures RuleMatches(o.rule, t) && o.rule.action == r.action
  {
    var out := FromPolicy(groups, np, rules).value;
    var c := OrderedIsDecided(groups, np, rules, t, r);
    var i :| 0 <= i < |out| && out[i] == c;
    o := CloudRule(Strip(AZURE, c.rule), owner);
    StripKeepsMeaning(AZURE, c.rule, t);
    RulesForComplete(AZURE, out, t.group, o.rule);
    OwnedMember(RulesFor(AZURE, out, t.group), owner, o);
  }

  /**
   * From the policy to the cloud: the security rules of a group permit or deny traffic of it exactly when some rule
   * of the policy, read as it is written, is about that traffic and does so.
   */
  lemma {:induction false} PolicyReachesAzure(groups: Groups, np: NetworkPolicy, rules: seq<NpRule>, owner: Owner, prefix: string,
                           vnet: string, known: set<string>, t: Traffic, access: Access)
    requires FromPolicy(groups, np, rules).Some? && Real(t)
    requires var os := OwnedBy(owner, RulesFor(AZURE, FromPolicy(groups, np, rules).value, t.group));
             ToAll(prefix, known, os).Ok? && forall o <- os :: Sensible(vnet, o.rule)
    ensures var os := OwnedBy(owner, RulesFor(AZURE, FromPolicy(groups, np, rules).value, t.group));
            SomePermits(prefix, vnet, ToAll(prefix, known, os).value, t, access) <==>
            exists r <- rules :: HasPeer(groups, r, t.peer) && Concerns(np, r, t) && AccessOf(r.action) == access
  {
    var out := FromPolicy(groups, np, rules).value;
    var os := OwnedBy(owner, RulesFor(AZURE, out, t.group));
    ListMeans(prefix, vnet, known, os, t, access);
    if o :| o in os && RuleMatches(o.rule, t) && AccessOf(o.rule.action) == access {
      var r := FromSomeRule(groups, np, rules, owner, t, o);
    }
    if r :| r in rules && HasPeer(groups, r, t.peer) && Concerns(np, r, t) && AccessOf(r.action) == access {
      var o := ToSomeRule(groups, np, rules, owner, t, r);
    }
  }
}
