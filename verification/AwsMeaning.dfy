/** What AWS permissions admit: conversion, listing and normalization keep what a rule is about. */
module AwsMeaning {
  import opened Wrappers
  import opened Text
  import opened CloudRules
  import opened Descriptions
  import Expansion
  import opened Matching
  import opened AwsPermissions
  import opened AwsConverters

  // ---------------------------------------------------------------------------------------------
  // What a permission admits
  // ---------------------------------------------------------------------------------------------

  /** The number of a protocol, none for any; the numbers are the assigned ones. */
  function NumberOf(p: Protocol): Option<int> {
    match p
    case Any => None
    case Icmp => Some(1)
    case Igmp => Some(2)
    case Tcp => Some(6)
    case Udp => Some(17)
    case Icmpv6 => Some(58)
    case Number(n) => Some(n)
  }

  /** A bound of an ICMP permission: -1 stands for every type or code. */
  predicate AdmitsIcmp(bound: Option<int>, n: int) {
    bound.None? || bound.value == -1 || bound.value == n
  }

  /** TCP and UDP permissions name their ports; one without admits nothing. */
  predicate AdmitsService(protocol: Protocol, first: Option<int>, last: Option<int>, t: Traffic) {
    && Admits(NumberOf(protocol), t.protocol)
    && (if NumberOf(protocol) == Some(1) then AdmitsIcmp(first, t.icmpType) && AdmitsIcmp(last, t.icmpCode)
        else if first.None? || last.None? then NumberOf(protocol) != Some(6) && NumberOf(protocol) != Some(17)
        else protocol == Any || first.value <= t.port <= last.value)
  }

  /** A range is about addresses of its family, a pair about the group its id stands for. */
  predicate AdmitsPeer(c: Catalog, remote: Remote, x: Peer) {
    match remote
    case V4(cidr, _) => x.Cidr? && !IsV6(x.cidr) && CoversCidr(cidr, x.cidr)
    case V6(cidr, _) => x.Cidr? && IsV6(x.cidr) && CoversCidr(cidr, x.cidr)
    case Pair(id, _) => x.GroupPeer? && id in c.named && c.named[id] == GroupId(CloudName(c, x.id), x.id.vpc)
  }

  predicate AdmitsAny(c: Catalog, remotes: seq<Remote>, x: Peer) {
    exists r <- remotes :: AdmitsPeer(c, r, x)
  }

  predicate Permits(c: Catalog, p: IpPermission, t: Traffic) {
    AdmitsAny(c, PeersOf(p), t.peer) && AdmitsService(p.protocol, p.fromPort, p.toPort, t)
  }

  predicate SomePermits(c: Catalog, ps: seq<IpPermission>, t: Traffic) {
    exists p <- ps :: Permits(c, p, t)
  }

  // ---------------------------------------------------------------------------------------------
  // Conversion
  // ---------------------------------------------------------------------------------------------

  /** Ports come with a protocol other than ICMP, types and codes with ICMP, and no field is the number -1. */
  predicate Sensible(r: Rule) {
    && r.protocol != Some(-1) && r.icmpType != Some(-1) && r.icmpCode != Some(-1)
    && (r.protocol == Some(1) ==> r.port.None?)
    && (r.protocol != Some(1) ==> r.icmpType.None? && r.icmpCode.None?)
    && (r.protocol.None? ==> r.port.None?)
  }

  predicate AllKnown(c: Catalog, groups: seq<GroupId>) {
    forall g <- groups :: CloudName(c, g) in c.idOf && Known(c, g)
  }

  /** Traffic as it is on the wire: a port of sixteen bits, a group named in lower case. */
  predicate Real(t: Traffic) {
    0 <= t.port <= 65535 && (t.peer.GroupPeer? ==> Lower(t.peer.id.name) == t.peer.id.name)
  }

  lemma ServiceMeans(r: Rule, t: Traffic)
    requires Sensible(r) && Real(t)
    ensures var ports := ToPorts(r.port, r.protocol, r.icmpType, r.icmpCode);
            AdmitsService(ToProtocol(r.protocol), ports.0, ports.1, t) <==> NamesService(r, t)
  {
  }

  lemma {:induction false} CidrPeersMean(c: Catalog, cidrs: seq<string>, v6: bool, description: string, x: Peer)
    ensures AdmitsAny(c, CidrPeers(cidrs, v6, description), x) <==>
            x.Cidr? && IsV6(x.cidr) == v6 && exists b <- cidrs :: IsV6(b) == v6 && CoversCidr(b, x.cidr)
  {
    if cidrs != [] {
      var init, last := cidrs[..|cidrs| - 1], cidrs[|cidrs| - 1];
      assert forall b :: b in cidrs <==> b in init || b == last by { assert cidrs == init + [last]; }
      CidrPeersMean(c, init, v6, description, x);
      var more := if IsV6(last) != v6 then [] else if v6 then [V6(last, description)] else [V4(last, description)];
      AdmitsAppend(c, CidrPeers(init, v6, description), more, x);
      if more != [] { AdmitsOne(c, more[0], x); }
    }
  }

  lemma AdmitsOne(c: Catalog, r: Remote, x: Peer)
    ensures AdmitsAny(c, [r], x) <==> AdmitsPeer(c, r, x)
  {
    assert r in [r];
  }

  lemma AdmitsAppend(c: Catalog, a: seq<Remote>, b: seq<Remote>, x: Peer)
    ensures AdmitsAny(c, a + b, x) <==> AdmitsAny(c, a, x) || AdmitsAny(c, b, x)
  {
    assert forall r :: r in a + b <==> r in a || r in b;
  }

  lemma GroupPeersMean(c: Catalog, groups: seq<GroupId>, description: string, x: Peer)
    requires AllKnown(c, groups)
    requires x.GroupPeer? ==> Lower(x.id.name) == x.id.name
    ensures AdmitsAny(c, GroupPeers(c, groups, description), x) <==> x.GroupPeer? && x.id in groups
  {
    var remotes := GroupPeers(c, groups, description);
    if r :| r in remotes && AdmitsPeer(c, r, x) {
      var i :| 0 <= i < |remotes| && remotes[i] == r;
      assert Known(c, groups[i]);
      GroupRoundTrip(c, groups[i]);
      CloudNameApart(c, groups[i], x.id);
    }
    if x.GroupPeer? && x.id in groups {
      var i :| 0 <= i < |groups| && groups[i] == x.id;
      assert Known(c, x.id) && AdmitsPeer(c, remotes[i], x);
    }
  }

  lemma CloudNameApart(c: Catalog, g: GroupId, h: GroupId)
    requires CloudName(c, g) == CloudName(c, h)
    ensures Lower(g.name) == Lower(h.name)
  {
    var p := c.prefix + "-ag-";
    assert CloudName(c, g)[|p|..] == Lower(g.name) && CloudName(c, h)[|p|..] == Lower(h.name);
  }

  /** An address block of one family covers no address of the other. */
  lemma FamiliesApart(cidr: string, x: string)
    ensures CoversCidr(cidr, x) && IsV6(cidr) != IsV6(x) ==> false
  {
    assert ':' !in "0.0.0.0/0" && "::/0"[0] == ':';
  }

  /** The permission made of a rule admits exactly the traffic the rule is about. */
  lemma PermissionMeansRule(c: Catalog, o: CloudRule, t: Traffic)
    requires AllKnown(c, o.rule.groups) && ToPermission(c, o).Ok? && Sensible(o.rule) && Real(t)
    requires t.direction == o.rule.direction
    ensures Permits(c, ToPermission(c, o).value, t) <==> RuleMatches(o.rule, t)
  {
    var (r, p, text) := (o.rule, ToPermission(c, o).value, Generate(o.owner, o.rule.priority).value);
    ServiceMeans(r, t);
    PeersMean(c, r, text, t.peer);
    assert PeersOf(p) == V4Peers(r, text) + V6Peers(r, text) + GroupPeers(c, r.groups, text);
  }

  lemma PeersMean(c: Catalog, r: Rule, text: string, x: Peer)
    requires AllKnown(c, r.groups) && (x.GroupPeer? ==> Lower(x.id.name) == x.id.name)
    ensures AdmitsAny(c, V4Peers(r, text) + V6Peers(r, text) + GroupPeers(c, r.groups, text), x) <==> NamesPeer(r, x)
  {
    var (a, b, g) := (V4Peers(r, text), V6Peers(r, text), GroupPeers(c, r.groups, text));
    AdmitsAppend(c, a + b, g, x);
    AdmitsAppend(c, a, b, x);
    GroupPeersMean(c, r.groups, text, x);
    if r.cidrs == [] && r.groups == [] {
      assert a[0] == V4("0.0.0.0/0", text) && b[0] == V6("::/0", text);
      assert x.Cidr? && !IsV6(x.cidr) ==> AdmitsPeer(c, a[0], x);
      assert x.Cidr? && IsV6(x.cidr) ==> AdmitsPeer(c, b[0], x);
    } else {
      CidrPeersMean(c, r.cidrs, false, text, x);
      CidrPeersMean(c, r.cidrs, true, text, x);
      if x.Cidr? {
        forall k <- r.cidrs | CoversCidr(k, x.cidr) ensures IsV6(k) == IsV6(x.cidr) { FamiliesApart(k, x.cidr); }
      }
    }
  }

  // ---------------------------------------------------------------------------------------------
  // From the policy
  // ---------------------------------------------------------------------------------------------

  /** AWS takes neither priorities nor actions. */
  const AWS := Provider(false, false)

  /** The rule can be turned into a permission that says the same. */
  predicate Expressible(c: Catalog, o: CloudRule) {
    AllKnown(c, o.rule.groups) && ToPermission(c, o).Ok? && Sensible(o.rule)
  }

  predicate Allows(c: Catalog, o: CloudRule, t: Traffic) {
    Expressible(c, o) && Permits(c, ToPermission(c, o).value, t)
  }

  /** Some rule of the direction of the traffic has a permission that admits it. */
  predicate Admitted(c: Catalog, rules: seq<Rule>, owner: Owner, t: Traffic) {
    exists r <- rules :: r.direction == t.direction && Allows(c, CloudRule(r, owner), t)
  }

  lemma AdmittedMeans(c: Catalog, rules: seq<Rule>, owner: Owner, t: Traffic)
    requires (forall r <- rules :: Expressible(c, CloudRule(r, owner))) && Real(t)
    ensures Admitted(c, rules, owner, t) <==> exists r <- rules :: RuleMatches(r, t)
  {
    forall r <- rules | r.direction == t.direction ensures Allows(c, CloudRule(r, owner), t) <==> RuleMatches(r, t) {
      PermissionMeansRule(c, CloudRule(r, owner), t);
    }
  }

  /**
   * From the policy to the cloud: the permissions of a group admit traffic of it exactly when some rule of the
   * policy, read as it is written, is about that traffic.
   */
  lemma PolicyReachesAws(groups: Expansion.Groups, np: Expansion.NetworkPolicy, rules: seq<Expansion.NpRule>, c: Catalog,
                         owner: Owner, t: Traffic)
    requires Expansion.FromPolicy(groups, np, rules).Some? && Real(t)
    requires forall r <- RulesFor(AWS, Expansion.FromPolicy(groups, np, rules).value, t.group) ::
               Expressible(c, CloudRule(r, owner))
    ensures Admitted(c, RulesFor(AWS, Expansion.FromPolicy(groups, np, rules).value, t.group), owner, t) <==>
            exists r <- rules :: Expansion.HasPeer(groups, r, t.peer) && Expansion.Concerns(np, r, t)
  {
    Expansion.GroupRulesMeanPolicy(groups, np, rules, AWS, t);
    AdmittedMeans(c, RulesFor(AWS, Expansion.FromPolicy(groups, np, rules).value, t.group), owner, t);
  }

  // ---------------------------------------------------------------------------------------------
  // Listing and normalization
  // ---------------------------------------------------------------------------------------------

  /** AWS lists a permission under the name of its protocol: what it admits is the same. */
  lemma ListingKeepsMeaning(c: Catalog, p: IpPermission, t: Traffic)
    ensures Permits(c, Listed(p), t) <==> Permits(c, p, t)
  {
    assert PeersOf(Listed(p)) == PeersOf(p);
    assert NumberOf(Canonical(p.protocol)) == NumberOf(p.protocol);
  }

  predicate AtomPermits(c: Catalog, a: Atom, t: Traffic) {
    AdmitsPeer(c, a.peer, t.peer) && AdmitsService(a.protocol, a.fromPort, a.toPort, t)
  }

  lemma {:induction false} AtomsOfMean(c: Catalog, p: IpPermission, t: Traffic)
    ensures (exists a <- AtomsOf(p) :: AtomPermits(c, a, t)) <==> Permits(c, p, t)
  {
    assert NumberOf(ProtocolNumber(p.protocol)) == NumberOf(p.protocol);
    assert ProtocolNumber(p.protocol) == Any <==> p.protocol == Any;
    var atoms, peers := AtomsOf(p), PeersOf(p);
    if a :| a in atoms && AtomPermits(c, a, t) {
      var i :| 0 <= i < |atoms| && atoms[i] == a;
      assert peers[i] in peers;
    }
    if r :| r in peers && AdmitsPeer(c, r, t.peer) {
      var i :| 0 <= i < |peers| && peers[i] == r;
      assert atoms[i] in atoms;
    }
  }

  lemma {:induction false} AtomsMean(c: Catalog, ps: seq<IpPermission>, t: Traffic)
    ensures (exists a <- Atoms(ps) :: AtomPermits(c, a, t)) <==> SomePermits(c, ps, t)
  {
    if ps != [] {
      var init, last := ps[..|ps| - 1], ps[|ps| - 1];
      assert ps == init + [last];
      AtomsMean(c, init, t);
      AtomsOfMean(c, last, t);
      assert forall a :: a in Atoms(ps) <==> a in Atoms(init) || a in AtomsOf(last);
    }
  }

  lemma SinglePermits(c: Catalog, a: Atom, t: Traffic)
    ensures Permits(c, Single(a), t) <==> AtomPermits(c, a, t)
  {
    assert PeersOf(Single(a)) == [a.peer];
    AdmitsOne(c, a.peer, t.peer);
  }

  /** Normalizing permissions keeps what they admit together. */
  lemma {:induction false} NormalizationAdmits(c: Catalog, ps: seq<IpPermission>, t: Traffic)
    ensures SomePermits(c, Singles(Atoms(ps)), t) <==> SomePermits(c, ps, t)
  {
    var atoms := Atoms(ps);
    var singles := Singles(atoms);
    AtomsMean(c, ps, t);
    if p :| p in singles && Permits(c, p, t) {
      var i :| 0 <= i < |singles| && singles[i] == p;
      SinglePermits(c, atoms[i], t);
      assert atoms[i] in atoms;
    }
    if a :| a in atoms && AtomPermits(c, a, t) {
      var i :| 0 <= i < |atoms| && atoms[i] == a;
      SinglePermits(c, a, t);
      assert singles[i] in singles;
    }
  }

  // ---------------------------------------------------------------------------------------------
  // Realized rules are recognized
  // ---------------------------------------------------------------------------------------------

  /** A permission for one peer, written with a protocol number. */
  predicate Local(p: IpPermission) {
    |PeersOf(p)| == 1 && ProtocolNumber(p.protocol) == p.protocol
    && (forall r <- p.v4 :: r.V4?) && (forall r <- p.v6 :: r.V6?) && (forall r <- p.groups :: r.Pair?)
  }

  lemma ToPermissionIsLocal(c: Catalog, o: CloudRule)
    requires Simple(c, o.rule) && Generate(o.owner, None).Ok?
    ensures Local(ToPermission(c, o).value)
  {
    var text := Generate(o.owner, None).value;
    OnePeer(c, o, text);
    var (r, p) := (o.rule, ToPermission(c, o).value);
    if r.groups == [] {
      assert r.cidrs == [r.cidrs[0]];
      OneCidr(r.cidrs[0], true, text);
      OneCidr(r.cidrs[0], false, text);
    }
  }

  lemma ListedComesBack(p: IpPermission)
    requires Local(p)
    ensures Singles(AtomsOf(Listed(p))) == [p]
  {
    assert ProtocolNumber(Canonical(p.protocol)) == p.protocol;
    var atoms := AtomsOf(Listed(p));
    assert PeersOf(Listed(p)) == PeersOf(p);
    var a := atoms[0];
    assert atoms == [a] && a == AtomFor(Listed(p), PeersOf(p)[0]);
    if |p.v4| == 1 {
      assert p.v6 == [] && p.groups == [] && PeersOf(p)[0] == p.v4[0] && p.v4[0] in p.v4 && p.v4 == [p.v4[0]];
    } else if |p.v6| == 1 {
      assert p.v4 == [] && p.groups == [] && PeersOf(p)[0] == p.v6[0] && p.v6[0] in p.v6 && p.v6 == [p.v6[0]];
    } else {
      assert p.v4 == [] && p.v6 == [] && PeersOf(p)[0] == p.groups[0] && p.groups[0] in p.groups && p.groups == [p.groups[0]];
    }
    assert Single(a) == p;
  }

  function ListedEach(ps: seq<IpPermission>): seq<IpPermission> {
    seq(|ps|, i requires 0 <= i < |ps| => Listed(ps[i]))
  }

  lemma {:induction false} ListedAllComeBack(ps: seq<IpPermission>)
    requires forall p <- ps :: Local(p)
    ensures Singles(Atoms(ListedEach(ps))) == ps
  {
    if ps != [] {
      var init, last := ps[..|ps| - 1], ps[|ps| - 1];
      assert ps == init + [last];
      ListedAllComeBack(init);
      ListedComesBack(last);
      assert ListedEach(ps)[..|init|] == ListedEach(init);
      SinglesAppend(Atoms(ListedEach(init)), AtomsOf(Listed(last)));
    }
  }

  lemma {:induction false} AllMatched(ps: seq<IpPermission>, other: multiset<IpPermission>)
    requires multiset(ps) <= other
    ensures Unmatched(ps, other) == []
  {
    UnmatchedIsDifference(ps, other);
    assert multiset(Unmatched(ps, other)) == multiset{};
    assert |Unmatched(ps, other)| == |multiset(Unmatched(ps, other))|;
  }

  /** The rule is about one address or one known group, and its owner can be described. */
  predicate OnePeered(c: Catalog, o: CloudRule) {
    Simple(c, o.rule) && AllKnown(c, o.rule.groups) && Generate(o.owner, None).Ok?
  }

  function PermissionOf(c: Catalog, o: CloudRule): IpPermission
    requires OnePeered(c, o)
  {
    ToPermission(c, o).value
  }

  function Permissions(c: Catalog, os: seq<CloudRule>): seq<IpPermission>
    requires forall i :: 0 <= i < |os| ==> OnePeered(c, os[i])
  {
    seq(|os|, i requires 0 <= i < |os| => PermissionOf(c, os[i]))
  }

  /** What is realized is recognized in the normalized listing: adding it again adds nothing. */
  lemma RealizedIsRecognized(c: Catalog, os: seq<CloudRule>)
    requires forall i :: 0 <= i < |os| ==> OnePeered(c, os[i])
    ensures Unmatched(Permissions(c, os), multiset(Singles(Atoms(ListedEach(Permissions(c, os)))))) == []
  {
    var ps := Permissions(c, os);
    forall p <- ps ensures Local(p) {
      var i :| 0 <= i < |ps| && ps[i] == p;
      ToPermissionIsLocal(c, os[i]);
    }
    ListedAllComeBack(ps);
    AllMatched(ps, multiset(ps));
  }
}
