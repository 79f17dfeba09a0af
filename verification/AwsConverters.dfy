/** Rules to AWS permissions and back: the synchronization with the cloud relies on the round trip. */
module AwsConverters {
  import opened Wrappers
  import opened Text
  import opened CloudRules
  import opened Descriptions
  import opened AwsPermissions

  const ICMP := 1
  const TCP := 6
  const UDP := 17

  const FIRST_PORT := 0
  const LAST_PORT := 65535

  /** The security groups of the cloud: ids by name, and the name and VPC each id stands for. */
  datatype Catalog = Catalog(prefix: string, idOf: map<string, string>, named: map<string, GroupId>)

  // ---------------------------------------------------------------------------------------------
  // Protocols and ports
  // ---------------------------------------------------------------------------------------------

  /** No protocol and the number -1 both read "any". */
  function ToProtocol(p: Option<int>): Protocol {
    if p.None? || p.value == -1 then Any else Number(p.value)
  }

  /** AWS gives the protocols it knows by name. */
  function Canonical(p: Protocol): Protocol {
    if p == Number(ICMP) then Icmp
    else if p == Number(TCP) then Tcp
    else if p == Number(UDP) then Udp
    else if p == Number(58) then Icmpv6
    else p
  }

  /** Only names are looked up: a number AWS did not turn into a name is read as protocol 0. */
  function FromProtocol(p: Protocol): Option<int> {
    match p
    case Any => None
    case Icmp => Some(1)
    case Igmp => Some(2)
    case Tcp => Some(6)
    case Udp => Some(17)
    case Icmpv6 => Some(58)
    case Number(_) => Some(0)
  }

  predicate ProtocolSurvives(p: Option<int>) {
    p.None? || p.value in {0, ICMP, TCP, UDP, 58}
  }

  function ToPorts(port: Option<int>, protocol: Option<int>, icmpType: Option<int>, icmpCode: Option<int>)
    : (Option<int>, Option<int>)
  {
    if port.Some? then (port, port)
    else if protocol == Some(ICMP) then (Some(icmpType.UnwrapOr(-1)), Some(icmpCode.UnwrapOr(-1)))
    else if protocol == Some(TCP) || protocol == Some(UDP) then (Some(FIRST_PORT), Some(LAST_PORT))
    else (None, None)
  }

  function FromPorts(first: Option<int>, last: Option<int>): (Option<int>, Option<int>) {
    if first.None? || last.None? then (first, last)
    else if first.value == -1 then (None, if last.value == -1 then None else last)
    else if first == last then (first, None)
    else if first.value == FIRST_PORT && last.value == LAST_PORT then (None, None)
    else (first, last)
  }

  /** The ports or the ICMP type and code of a rule come back as they were. */
  predicate PortsSurvive(r: Rule) {
    if r.protocol == Some(ICMP) then
      && r.port.None?
      && (if r.icmpType.None? then r.icmpCode != Some(-1)
          else
            && r.icmpType.value != -1 && r.icmpCode.Some? && r.icmpCode != r.icmpType
            && !(r.icmpType.value == FIRST_PORT && r.icmpCode.value == LAST_PORT))
    else r.icmpType.None? && r.icmpCode.None? && r.port != Some(-1)
  }

  // ---------------------------------------------------------------------------------------------
  // Peers
  // ---------------------------------------------------------------------------------------------

  function CloudName(c: Catalog, g: GroupId): string {
    c.prefix + "-ag-" + Lower(g.name)
  }

  /** The group is there, under its cloud name and in its VPC, and its name is in lower case. */
  predicate Known(c: Catalog, g: GroupId) {
    && CloudName(c, g) in c.idOf && c.idOf[CloudName(c, g)] in c.named
    && c.named[c.idOf[CloudName(c, g)]] == GroupId(CloudName(c, g), g.vpc)
    && Lower(g.name) == g.name
  }

  /** Without addresses and groups a rule is about every address. */
  function V4Peers(r: Rule, description: string): seq<Remote> {
    if r.cidrs == [] && r.groups == [] then [V4("0.0.0.0/0", description)]
    else CidrPeers(r.cidrs, false, description)
  }

  function V6Peers(r: Rule, description: string): seq<Remote> {
    if r.cidrs == [] && r.groups == [] then [V6("::/0", description)]
    else CidrPeers(r.cidrs, true, description)
  }

  function CidrPeers(cidrs: seq<string>, v6: bool, description: string): seq<Remote> {
    if cidrs == [] then []
    else
      CidrPeers(cidrs[..|cidrs| - 1], v6, description) +
      (var last := cidrs[|cidrs| - 1];
       if IsV6(last) != v6 then [] else if v6 then [V6(last, description)] else [V4(last, description)])
  }

  function GroupPeers(c: Catalog, groups: seq<GroupId>, description: string): seq<Remote>
    requires forall g <- groups :: CloudName(c, g) in c.idOf
  {
    seq(|groups|, i requires 0 <= i < |groups| => Pair(c.idOf[CloudName(c, groups[i])], description))
  }

  // ---------------------------------------------------------------------------------------------
  // Rules
  // ---------------------------------------------------------------------------------------------

  function ToPermission(c: Catalog, o: CloudRule): Result<IpPermission>
    requires forall g <- o.rule.groups :: CloudName(c, g) in c.idOf
  {
    var r, text := o.rule, Generate(o.owner, o.rule.priority);
    if text.Err? then Err
    else
      var ports := ToPorts(r.port, r.protocol, r.icmpType, r.icmpCode);
      Ok(IpPermission(ToProtocol(r.protocol), ports.0, ports.1,
                      V4Peers(r, text.value), V6Peers(r, text.value), GroupPeers(c, r.groups, text.value)))
  }

  /** The permission as AWS lists it. */
  function Listed(p: IpPermission): IpPermission {
    p.(protocol := Canonical(p.protocol))
  }

  /** The ports of a permission, as the fields of the rule it is turned into. */
  function WithPorts(r: Rule, p: IpPermission): Rule {
    var ports := FromPorts(p.fromPort, p.toPort);
    if r.protocol == Some(ICMP) then r.(icmpType := ports.0, icmpCode := ports.1) else r.(port := ports.0)
  }

  function BareRule(d: Direction, p: IpPermission): Rule {
    Rule(d, FromProtocol(p.protocol), None, None, None, [], [], None, None, "")
  }

  function OwnerOf(description: string): string {
    var d := Extract(description);
    if d.None? then "" else d.value.namespace + "/" + d.value.name
  }

  function Unprefixed(c: Catalog, name: string): string {
    var p := c.prefix + "-ag-";
    if p <= name then Lower(name[|p|..]) else name
  }

  function FromPeer(c: Catalog, d: Direction, p: IpPermission, peer: Remote): CloudRule
    requires peer.Pair? ==> peer.groupId in c.named
  {
    var r := if peer.Pair?
             then
               var g := c.named[peer.groupId];
               BareRule(d, p).(groups := [GroupId(Unprefixed(c, g.name), g.vpc)])
             else BareRule(d, p).(cidrs := [peer.cidr]);
    CloudRule(WithPorts(r, p), OwnerOf(peer.description))
  }

  function PeersOf(p: IpPermission): seq<Remote> {
    p.v4 + p.v6 + p.groups
  }

  predicate AllNamed(c: Catalog, p: IpPermission) {
    forall peer <- PeersOf(p) :: peer.Pair? ==> peer.groupId in c.named
  }

  /** One rule for each address and each group of the permission. */
  function FromPermission(c: Catalog, d: Direction, p: IpPermission): seq<CloudRule>
    requires AllNamed(c, p)
  {
    var peers := PeersOf(p);
    seq(|peers|, i requires 0 <= i < |peers| => FromPeer(c, d, p, peers[i]))
  }

  function FromEach(c: Catalog, d: Direction, ps: seq<IpPermission>): seq<seq<CloudRule>>
    requires forall p <- ps :: AllNamed(c, p)
  {
    seq(|ps|, i requires 0 <= i < |ps| => FromPermission(c, d, ps[i]))
  }

  function FromAll(c: Catalog, d: Direction, ps: seq<IpPermission>): seq<CloudRule>
    requires forall p <- ps :: AllNamed(c, p)
  {
    Flatten(FromEach(c, d, ps))
  }

  /** Address by address, then group by group. */
  method FromOne(c: Catalog, d: Direction, p: IpPermission) returns (rules: seq<CloudRule>)
    requires AllNamed(c, p)
    ensures rules == FromPermission(c, d, p)
  {
    rules := [];
    var peers := PeersOf(p);
    for i := 0 to |peers|
      invariant |rules| == i && forall j :: 0 <= j < i ==> rules[j] == FromPermission(c, d, p)[j]
    {
      assert peers[i] in peers;
      rules := rules + [FromPeer(c, d, p, peers[i])];
    }
  }

  /** The rule stands for one peer of one of the permissions. */
  ghost predicate Stems(c: Catalog, d: Direction, ps: seq<IpPermission>, r: CloudRule)
    requires forall p <- ps :: AllNamed(c, p)
  {
    exists p, peer :: p in ps && peer in PeersOf(p) && AllNamed(c, p) && r == FromPeer(c, d, p, peer)
  }

  lemma FromPermissionStems(c: Catalog, d: Direction, p: IpPermission, r: CloudRule)
    requires AllNamed(c, p)
    ensures r in FromPermission(c, d, p) <==> exists peer :: peer in PeersOf(p) && r == FromPeer(c, d, p, peer)
  {
    var rules := FromPermission(c, d, p);
    if r in rules {
      var i :| 0 <= i < |rules| && rules[i] == r;
      assert PeersOf(p)[i] in PeersOf(p);
    }
    if peer :| peer in PeersOf(p) && r == FromPeer(c, d, p, peer) {
      var i :| 0 <= i < |PeersOf(p)| && PeersOf(p)[i] == peer;
      assert rules[i] == r;
    }
  }

  lemma PartStems(c: Catalog, d: Direction, ps: seq<IpPermission>, i: nat, r: CloudRule)
    requires i < |ps| && (forall p <- ps :: AllNamed(c, p)) && r in FromPermission(c, d, ps[i])
    ensures Stems(c, d, ps, r)
  {
    FromPermissionStems(c, d, ps[i], r);
  }

  lemma StemIsPart(c: Catalog, d: Direction, ps: seq<IpPermission>, r: CloudRule) returns (i: nat)
    requires (forall p <- ps :: AllNamed(c, p)) && Stems(c, d, ps, r)
    ensures i < |ps| && r in FromPermission(c, d, ps[i])
  {
    var p, peer :| p in ps && peer in PeersOf(p) && AllNamed(c, p) && r == FromPeer(c, d, p, peer);
    i :| 0 <= i < |ps| && ps[i] == p;
    FromPermissionStems(c, d, p, r);
  }

  lemma FromAllStems(c: Catalog, d: Direction, ps: seq<IpPermission>, r: CloudRule)
    requires forall p <- ps :: AllNamed(c, p)
    ensures r in FromAll(c, d, ps) <==> Stems(c, d, ps, r)
  {
    var parts := FromEach(c, d, ps);
    FlattenMember(parts, r);
    if i :| 0 <= i < |parts| && r in parts[i] { PartStems(c, d, ps, i, r); }
    if Stems(c, d, ps, r) {
      var i := StemIsPart(c, d, ps, r);
      assert r in parts[i];
    }
  }

  /** The permissions of a security group: the rules are those of their peers, and no others. */
  method FromPermissions(c: Catalog, d: Direction, ps: seq<IpPermission>) returns (rules: seq<CloudRule>)
    requires forall p <- ps :: AllNamed(c, p)
    ensures rules == FromAll(c, d, ps)
    ensures forall r :: r in rules <==> Stems(c, d, ps, r)
  {
    rules := [];
    ghost var parts := FromEach(c, d, ps);
    for n := 0 to |ps|
      invariant rules == Flatten(parts[..n])
    {
      FlattenNext(parts, n);
      var more := FromOne(c, d, ps[n]);
      rules := rules + more;
    }
    assert parts[..|ps|] == parts;
    forall r ensures r in rules <==> Stems(c, d, ps, r) { FromAllStems(c, d, ps, r); }
  }

  // ---------------------------------------------------------------------------------------------
  // The round trip
  // ---------------------------------------------------------------------------------------------

  /** A rule as it is on AWS, about one address or one managed group. */
  predicate Simple(c: Catalog, r: Rule) {
    && r.priority.None? && r.action.None? && r.name == ""
    && ((|r.cidrs| == 1 && r.groups == []) || (r.cidrs == [] && |r.groups| == 1 && Known(c, r.groups[0])))
  }

  lemma ProtocolRoundTrip(p: Option<int>)
    ensures FromProtocol(Canonical(ToProtocol(p))) == p <==> ProtocolSurvives(p)
  {
  }

  lemma PortsRoundTrip(r: Rule)
    ensures (var ports := ToPorts(r.port, r.protocol, r.icmpType, r.icmpCode);
             WithPorts(r.(port := None, icmpType := None, icmpCode := None),
                       IpPermission(Any, ports.0, ports.1, [], [], [])) == r)
            <==> PortsSurvive(r)
  {
  }

  lemma OwnerRoundTrip(owner: string, namespace: string, name: string)
    requires GoodOwner(owner, namespace, name)
    ensures Generate(owner, None).Ok? && OwnerOf(Generate(owner, None).value) == owner
  {
    GenerateRoundTrip(name, namespace, None);
  }

  lemma GroupRoundTrip(c: Catalog, g: GroupId)
    requires Known(c, g)
    ensures Unprefixed(c, CloudName(c, g)) == g.name
  {
    var p := c.prefix + "-ag-";
    assert CloudName(c, g) == p + Lower(g.name);
    assert p <= CloudName(c, g) && CloudName(c, g)[|p|..] == Lower(g.name);
  }

  /** The one peer such a rule is given. */
  function PeerOf(c: Catalog, r: Rule, description: string): Remote
    requires Simple(c, r)
  {
    if r.groups != [] then Pair(c.idOf[CloudName(c, r.groups[0])], description)
    else if IsV6(r.cidrs[0]) then V6(r.cidrs[0], description) else V4(r.cidrs[0], description)
  }

  lemma OneCidr(cidr: string, v6: bool, description: string)
    ensures CidrPeers([cidr], v6, description) ==
            if IsV6(cidr) != v6 then [] else if v6 then [V6(cidr, description)] else [V4(cidr, description)]
  {
    assert [cidr][..0] == [];
  }

  lemma OnePeer(c: Catalog, o: CloudRule, text: string)
    requires Simple(c, o.rule) && Generate(o.owner, None) == Ok(text)
    ensures var p := ToPermission(c, o).value;
            p.v4 + p.v6 + p.groups == [PeerOf(c, o.rule, text)] && AllNamed(c, Listed(p))
  {
    var r, p := o.rule, ToPermission(c, o).value;
    if r.groups == [] {
      assert r.cidrs == [r.cidrs[0]];
      OneCidr(r.cidrs[0], true, text);
      OneCidr(r.cidrs[0], false, text);
      assert IsV6(r.cidrs[0]) ==> p.v4 == [] && p.v6 == [V6(r.cidrs[0], text)];
      assert !IsV6(r.cidrs[0]) ==> p.v6 == [] && p.v4 == [V4(r.cidrs[0], text)];
    } else {
      assert p.v4 == [] && p.v6 == [] && p.groups == [PeerOf(c, r, text)];
    }
  }

  /** The rule without protocol and ports, as it is rebuilt from its one peer. */
  lemma BareRoundTrip(c: Catalog, r: Rule, p: IpPermission, text: string)
    requires Simple(c, r)
    ensures FromPeer(c, r.direction, p, PeerOf(c, r, text)) ==
            CloudRule(WithPorts(r.(protocol := FromProtocol(p.protocol), port := None, icmpType := None, icmpCode := None), p),
                      OwnerOf(text))
  {
    var bare := r.(protocol := FromProtocol(p.protocol), port := None, icmpType := None, icmpCode := None);
    if r.groups != [] {
      GroupRoundTrip(c, r.groups[0]);
      assert r.groups == [r.groups[0]];
      assert BareRule(r.direction, p).(groups := r.groups) == bare;
    } else {
      assert r.cidrs == [r.cidrs[0]];
      assert BareRule(r.direction, p).(cidrs := r.cidrs) == bare;
    }
  }

  lemma PeerRoundTrip(c: Catalog, o: CloudRule, text: string)
    requires Simple(c, o.rule) && Generate(o.owner, None) == Ok(text)
    ensures var p := Listed(ToPermission(c, o).value);
            AllNamed(c, p) &&
            FromPermission(c, o.rule.direction, p) == [FromPeer(c, o.rule.direction, p, PeerOf(c, o.rule, text))]
  {
    OnePeer(c, o, text);
    var p := Listed(ToPermission(c, o).value);
    assert p.v4 + p.v6 + p.groups == [PeerOf(c, o.rule, text)];
  }

  /**
   * A rule about one address or one managed group comes back from AWS as exactly one rule, the same rule
   * with the same owner, exactly when its protocol and its ports survive.
   */
  lemma RuleRoundTrip(c: Catalog, o: CloudRule, namespace: string, name: string)
    requires Simple(c, o.rule) && GoodOwner(o.owner, namespace, name)
    ensures ToPermission(c, o).Ok? && AllNamed(c, Listed(ToPermission(c, o).value))
    ensures FromPermission(c, o.rule.direction, Listed(ToPermission(c, o).value)) == [o] <==>
            ProtocolSurvives(o.rule.protocol) && PortsSurvive(o.rule)
  {
    OwnerRoundTrip(o.owner, namespace, name);
    var text := Generate(o.owner, None).value;
    PeerRoundTrip(c, o, text);
    BareRoundTrip(c, o.rule, Listed(ToPermission(c, o).value), text);
    ProtocolRoundTrip(o.rule.protocol);
    PortsRoundTrip(o.rule);
  }

  /** A rule about every address comes back as two rules, one for each address family. */
  lemma AnyAddressComesBackTwice(c: Catalog, o: CloudRule, namespace: string, name: string)
    requires o.rule.cidrs == [] && o.rule.groups == [] && o.rule.priority.None? && GoodOwner(o.owner, namespace, name)
    ensures ToPermission(c, o).Ok? && AllNamed(c, Listed(ToPermission(c, o).value))
    ensures |FromPermission(c, o.rule.direction, Listed(ToPermission(c, o).value))| == 2
    ensures o !in FromPermission(c, o.rule.direction, Listed(ToPermission(c, o).value))
  {
    OwnerRoundTrip(o.owner, namespace, name);
    var p := Listed(ToPermission(c, o).value);
    assert |p.v4| == 1 && |p.v6| == 1 && p.groups == [];
    var rules := FromPermission(c, o.rule.direction, p);
    assert forall i :: 0 <= i < |rules| ==> |rules[i].rule.cidrs| == 1;
  }

  /** What the round trip of one rule asks for. */
  ghost predicate Survives(c: Catalog, d: Direction, o: CloudRule) {
    && o.rule.direction == d && Simple(c, o.rule) && ProtocolSurvives(o.rule.protocol) && PortsSurvive(o.rule)
    && exists namespace, name :: GoodOwner(o.owner, namespace, name)
  }

  lemma OneComesBack(c: Catalog, d: Direction, o: CloudRule)
    requires Survives(c, d, o)
    ensures ToPermission(c, o).Ok? && AllNamed(c, Listed(ToPermission(c, o).value))
    ensures FromPermission(c, d, Listed(ToPermission(c, o).value)) == [o]
  {
    var namespace, name :| GoodOwner(o.owner, namespace, name);
    RuleRoundTrip(c, o, namespace, name);
  }

  /** What AWS lists for one rule. */
  ghost function ListedFor(c: Catalog, d: Direction, o: CloudRule): (p: IpPermission)
    requires Survives(c, d, o)
    ensures AllNamed(c, p) && FromPermission(c, d, p) == [o]
  {
    OneComesBack(c, d, o);
    Listed(ToPermission(c, o).value)
  }

  /** What AWS lists for a list of rules. */
  ghost function ListedAll(c: Catalog, d: Direction, os: seq<CloudRule>): (ps: seq<IpPermission>)
    requires forall o <- os :: Survives(c, d, o)
    ensures |ps| == |os| && forall p <- ps :: AllNamed(c, p)
  {
    seq(|os|, i requires 0 <= i < |os| => ListedFor(c, d, os[i]))
  }

  /** The rules realized in a direction come back from AWS, all of them, in order, and nothing else does. */
  lemma ListRoundTrip(c: Catalog, d: Direction, os: seq<CloudRule>)
    requires forall o <- os :: Survives(c, d, o)
    ensures FromAll(c, d, ListedAll(c, d, os)) == os
  {
    var ps := ListedAll(c, d, os);
    var parts := FromEach(c, d, ps);
    forall i | 0 <= i < |os| ensures parts[i] == [os[i]] { assert ps[i] == ListedFor(c, d, os[i]); }
    FlattenSingles(parts, os);
  }
}
