/** How the rules of a policy become cloud rules: one for each address or address group and each service. */
module Expansion {
  import opened Wrappers
  import opened Decimals
  import opened CloudRules
  import opened Priorities

  /** A service names its protocol; the type and code count for ICMP only. */
  datatype Service = Service(protocol: int, port: Option<int>, icmpType: Option<int>, icmpCode: Option<int>)

  /** The other end of a rule: addresses, and address groups by name. */
  datatype NpRule = NpRule(
    name: string, direction: Direction, cidrs: seq<string>, addressGroups: seq<string>, services: seq<Service>,
    appliedTo: seq<string>, action: Option<Action>, priority: int)

  datatype NetworkPolicy = NetworkPolicy(
    name: string, tier: Option<int>, priority: Option<real>, appliedTo: seq<string>, rules: seq<NpRule>)

  /** The address groups that exist, by name: one for each VPC they have members in. */
  type Groups = map<string, seq<GroupId>>

  // ---------------------------------------------------------------------------------------------
  // Peers and services
  // ---------------------------------------------------------------------------------------------

  /** Groups without a VPC are passed over. */
  function Scoped(ids: seq<GroupId>): seq<Peer> {
    if ids == [] then []
    else Scoped(ids[..|ids| - 1]) + if ids[|ids| - 1].vpc != "" then [GroupPeer(ids[|ids| - 1])] else []
  }

  predicate Known(groups: Groups, name: string) {
    name in groups && groups[name] != []
  }

  function GroupPeers(groups: Groups, names: seq<string>): seq<Peer> {
    if names == [] then []
    else
      var last := names[|names| - 1];
      GroupPeers(groups, names[..|names| - 1]) + if last in groups then Scoped(groups[last]) else []
  }

  function CidrPeers(cidrs: seq<string>): seq<Peer> {
    seq(|cidrs|, i requires 0 <= i < |cidrs| => Cidr(cidrs[i]))
  }

  function Peers(groups: Groups, r: NpRule): seq<Peer> {
    CidrPeers(r.cidrs) + GroupPeers(groups, r.addressGroups)
  }

  /** A rule without services is about any service. */
  function Variants(r: NpRule): (vs: seq<Option<Service>>)
    ensures |vs| > 0
  {
    if r.services == [] then [None] else seq(|r.services|, i requires 0 <= i < |r.services| => Some(r.services[i]))
  }

  // ---------------------------------------------------------------------------------------------
  // One cloud rule
  // ---------------------------------------------------------------------------------------------

  function RuleName(rule: string, policy: string, n: nat): string {
    rule + "-" + policy + "-" + Print(n)
  }

  function NameSet(names: seq<string>): set<string> {
    set n <- names
  }

  /** The rule's own groups count if it has any, and the policy's otherwise. */
  function Build(np: NetworkPolicy, r: NpRule, peer: Peer, v: Option<Service>, n: nat): PolicyRule {
    var icmp := v.Some? && v.value.protocol == 1;
    PolicyRule(
      Rule(r.direction, if v.Some? then Some(v.value.protocol) else None, if v.Some? then v.value.port else None,
           if icmp then v.value.icmpType else None, if icmp then v.value.icmpCode else None,
           if peer.Cidr? then [peer.cidr] else [], if peer.GroupPeer? then [peer.id] else [],
           RulePriority(np.tier, np.priority, r.priority), r.action, RuleName(r.name, np.name, n)),
      if r.appliedTo != [] then NameSet(r.appliedTo) else NameSet(np.appliedTo))
  }

  /** One combination of peer and service, with the number its rule gets. */
  datatype Cell = Cell(peer: Peer, service: Option<Service>, number: nat)

  function Render(np: NetworkPolicy, r: NpRule, c: Cell): PolicyRule {
    Build(np, r, c.peer, c.service, c.number)
  }

  function RenderAll(np: NetworkPolicy, r: NpRule, cells: seq<Cell>): seq<PolicyRule> {
    seq(|cells|, i requires 0 <= i < |cells| => Render(np, r, cells[i]))
  }

  function CellsFor(peer: Peer, before: nat, vs: seq<Option<Service>>): seq<Cell> {
    seq(|vs|, i requires 0 <= i < |vs| => Cell(peer, vs[i], before + i + 1))
  }

  /** The combinations of the first peers, numbered from one, all services of a peer before the next peer. */
  function Cells(peers: seq<Peer>, vs: seq<Option<Service>>): seq<Cell> {
    if peers == [] then []
    else
      var init := Cells(peers[..|peers| - 1], vs);
      init + CellsFor(peers[|peers| - 1], |init|, vs)
  }

  /** The cloud rules of a rule with the given peers. */
  function Expand(np: NetworkPolicy, r: NpRule, peers: seq<Peer>): seq<PolicyRule> {
    RenderAll(np, r, Cells(peers, Variants(r)))
  }

  /** The combinations of `n` peers with `k` services each, counted peer by peer. */
  function Slots(n: nat, k: nat): nat {
    if n == 0 then 0 else Slots(n - 1, k) + k
  }

  lemma {:induction false} SlotsIs(n: nat, k: nat)
    ensures Slots(n, k) == n * k
  {
    if n > 0 {
      SlotsIs(n - 1, k);
      assert n * k == (n - 1) * k + k;
    }
  }

  lemma {:induction false} CellsLength(peers: seq<Peer>, vs: seq<Option<Service>>)
    ensures |Cells(peers, vs)| == Slots(|peers|, |vs|)
  {
    if peers != [] { CellsLength(peers[..|peers| - 1], vs); }
  }

  lemma {:induction false} CellsNumbered(peers: seq<Peer>, vs: seq<Option<Service>>, k: nat)
    requires k < |Cells(peers, vs)|
    ensures Cells(peers, vs)[k].number == k + 1
  {
    var init := peers[..|peers| - 1];
    if k < |Cells(init, vs)| { CellsNumbered(init, vs, k); }
  }

  lemma {:induction false} CellsAt(peers: seq<Peer>, vs: seq<Option<Service>>, p: nat, v: nat)
    requires p < |peers| && v < |vs|
    ensures Slots(p, |vs|) + v < |Cells(peers, vs)|
    ensures Cells(peers, vs)[Slots(p, |vs|) + v] == Cell(peers[p], vs[v], Slots(p, |vs|) + v + 1)
  {
    var n := |peers| - 1;
    CellsLength(peers[..n], vs);
    if p < n { CellsAt(peers[..n], vs, p, v); }
  }

  /** Exactly one cloud rule for each peer and each service, numbered consecutively. */
  lemma ExpandIsProduct(np: NetworkPolicy, r: NpRule, peers: seq<Peer>, p: nat, v: nat)
    requires p < |peers| && v < |Variants(r)|
    ensures |Expand(np, r, peers)| == |peers| * |Variants(r)|
    ensures p * |Variants(r)| + v < |peers| * |Variants(r)|
    ensures Expand(np, r, peers)[p * |Variants(r)| + v] ==
            Build(np, r, peers[p], Variants(r)[v], p * |Variants(r)| + v + 1)
  {
    CellsLength(peers, Variants(r));
    CellsAt(peers, Variants(r), p, v);
    SlotsIs(|peers|, |Variants(r)|);
    SlotsIs(p, |Variants(r)|);
  }

  // ---------------------------------------------------------------------------------------------
  // What rules mean
  // ---------------------------------------------------------------------------------------------

  /** The type and code of a service count for ICMP only. */
  predicate IsService(s: Service, t: Traffic) {
    && s.protocol == t.protocol && Admits(s.port, t.port)
    && (s.protocol == 1 ==> Admits(s.icmpType, t.icmpType) && Admits(s.icmpCode, t.icmpCode))
  }

  /** An address block of the rule covers it, or it is a group with a VPC under one of its address group names. */
  predicate HasPeer(groups: Groups, r: NpRule, peer: Peer) {
    match peer
    case Cidr(cidr) => exists b <- r.cidrs :: CoversCidr(b, cidr)
    case GroupPeer(id) => id.vpc != "" && exists g <- r.addressGroups :: g in groups && id in groups[g]
  }

  /** All of a rule but its peers: the groups it is applied to, or else the policy's, its direction and services. */
  predicate Concerns(np: NetworkPolicy, r: NpRule, t: Traffic) {
    && t.group in (if r.appliedTo == [] then np.appliedTo else r.appliedTo)
    && r.direction == t.direction
    && (r.services == [] || exists s <- r.services :: IsService(s, t))
  }

  /** What a rule orders: its action, and the priority folded from tier, policy and rule. */
  predicate OrdersOf(np: NetworkPolicy, r: NpRule, action: Option<Action>, priority: Option<real>) {
    r.action == action && RulePriority(np.tier, np.priority, r.priority) == priority
  }

  /** Some cloud rule is about the traffic and carries these orders. */
  predicate Decided(out: seq<PolicyRule>, t: Traffic, action: Option<Action>, priority: Option<real>) {
    exists c <- out :: Matches(c, t) && c.rule.action == action && c.rule.priority == priority
  }

  /** Some rule of the policy, read as it is written, is about the traffic and gives these orders. */
  predicate Ordered(groups: Groups, np: NetworkPolicy, rules: seq<NpRule>, t: Traffic, action: Option<Action>,
                    priority: Option<real>) {
    exists r <- rules :: HasPeer(groups, r, t.peer) && Concerns(np, r, t) && OrdersOf(np, r, action, priority)
  }

  predicate IsVariant(v: Option<Service>, t: Traffic) {
    v.None? || IsService(v.value, t)
  }

  predicate Covered(peers: seq<Peer>, x: Peer) {
    exists p <- peers :: Covers(p, x)
  }

  lemma BuildMeans(np: NetworkPolicy, r: NpRule, peer: Peer, v: Option<Service>, n: nat, t: Traffic)
    ensures var c := Build(np, r, peer, v, n);
            && (Matches(c, t) <==> Covers(peer, t.peer) && t.group in (if r.appliedTo == [] then np.appliedTo else r.appliedTo)
                                   && r.direction == t.direction && IsVariant(v, t))
            && OrdersOf(np, r, c.rule.action, c.rule.priority)
  {
  }

  lemma {:induction false} CellsFrom(peers: seq<Peer>, vs: seq<Option<Service>>, k: nat)
    requires k < |Cells(peers, vs)|
    ensures Cells(peers, vs)[k].peer in peers && Cells(peers, vs)[k].service in vs
  {
    var init := peers[..|peers| - 1];
    assert peers == init + [peers[|peers| - 1]];
    if k < |Cells(init, vs)| { CellsFrom(init, vs, k); }
  }

  lemma VariantsMean(r: NpRule, t: Traffic)
    ensures (exists v <- Variants(r) :: IsVariant(v, t)) <==> (r.services == [] || exists s <- r.services :: IsService(s, t))
  {
    if r.services != [] {
      var vs := Variants(r);
      if v :| v in vs && IsVariant(v, t) {
        var i :| 0 <= i < |vs| && vs[i] == v;
        assert r.services[i] in r.services;
      }
      if s :| s in r.services && IsService(s, t) {
        var i :| 0 <= i < |r.services| && r.services[i] == s;
        assert vs[i] in vs && IsVariant(vs[i], t);
      }
    } else {
      assert None in Variants(r);
    }
  }

  /** A cloud rule that matches stands for a rule that concerns the traffic and names its peer. */
  lemma ExpandSound(np: NetworkPolicy, r: NpRule, peers: seq<Peer>, t: Traffic, c: PolicyRule)
    requires c in Expand(np, r, peers)
    ensures OrdersOf(np, r, c.rule.action, c.rule.priority)
    ensures Matches(c, t) ==> Covered(peers, t.peer) && Concerns(np, r, t)
  {
    var cells := Cells(peers, Variants(r));
    var k :| 0 <= k < |cells| && Render(np, r, cells[k]) == c;
    CellsFrom(peers, Variants(r), k);
    BuildMeans(np, r, cells[k].peer, cells[k].service, cells[k].number, t);
    VariantsMean(r, t);
  }

  lemma ExpandComplete(np: NetworkPolicy, r: NpRule, peers: seq<Peer>, t: Traffic) returns (c: PolicyRule)
    requires Covered(peers, t.peer) && Concerns(np, r, t)
    ensures c in Expand(np, r, peers) && Matches(c, t)
  {
    var vs := Variants(r);
    VariantsMean(r, t);
    var peer :| peer in peers && Covers(peer, t.peer);
    var p :| 0 <= p < |peers| && peers[p] == peer;
    var w :| w in vs && IsVariant(w, t);
    var v :| 0 <= v < |vs| && vs[v] == w;
    CellsAt(peers, vs, p, v);
    var k := Slots(p, |vs|) + v;
    c := Render(np, r, Cells(peers, vs)[k]);
    assert Expand(np, r, peers)[k] == c;
    BuildMeans(np, r, peer, w, k + 1, t);
  }

  // ---------------------------------------------------------------------------------------------
  // Names
  // ---------------------------------------------------------------------------------------------

  lemma NoDashAfter(a: string, i: string, k: nat)
    requires '-' !in i && k < |a + "-" + i|
    ensures |a| < k ==> (a + "-" + i)[k] != '-'
  {
    if |a| < k { assert (a + "-" + i)[k] == i[k - |a| - 1]; }
  }

  lemma LastDash(a: string, i: string, b: string, j: string)
    requires a + "-" + i == b + "-" + j && '-' !in i && '-' !in j
    ensures a == b && i == j
  {
    var s, t := a + "-" + i, b + "-" + j;
    assert s[|a|] == '-' && t[|b|] == '-';
    NoDashAfter(a, i, |b|);
    NoDashAfter(b, j, |a|);
    assert a == s[..|a|] && b == t[..|b|] && i == s[|a| + 1..] && j == t[|b| + 1..];
  }

  /** Two rules of one policy never get the same name, unless they have the same name and number. */
  lemma NamesAreUnique(rule: string, other: string, policy: string, n: nat, m: nat)
    requires RuleName(rule, policy, n) == RuleName(other, policy, m)
    ensures rule == other && n == m
  {
    assert AllDigits(Print(n)) && AllDigits(Print(m));
    LastDash(rule + "-" + policy, Print(n), other + "-" + policy, Print(m));
    var (s, t) := (rule + "-" + policy, other + "-" + policy);
    assert |rule| == |other| && rule == s[..|rule|] && other == t[..|other|];
    ParsePrint(n);
    ParsePrint(m);
  }

  // ---------------------------------------------------------------------------------------------
  // A whole rule, a whole policy
  // ---------------------------------------------------------------------------------------------

  predicate AllKnown(groups: Groups, names: seq<string>) {
    forall g <- names :: Known(groups, g)
  }

  predicate Ready(groups: Groups, r: NpRule) {
    AllKnown(groups, r.addressGroups)
  }

  lemma AllKnownNext(groups: Groups, names: seq<string>, i: nat)
    requires i < |names|
    ensures AllKnown(groups, names[..i + 1]) <==> AllKnown(groups, names[..i]) && Known(groups, names[i])
    ensures !Known(groups, names[i]) ==> !AllKnown(groups, names)
  {
    assert names[..i + 1] == names[..i] + [names[i]] && names[i] in names;
  }

  lemma GroupPeersNext(groups: Groups, names: seq<string>, i: nat)
    requires i < |names| && names[i] in groups
    ensures GroupPeers(groups, names[..i + 1]) == GroupPeers(groups, names[..i]) + Scoped(groups[names[i]])
  {
    assert names[..i + 1][..i] == names[..i];
  }

  /** The peers of the address groups, or nothing if one of them is unknown. */
  method CollectGroups(groups: Groups, names: seq<string>) returns (peers: Option<seq<Peer>>)
    ensures peers == if AllKnown(groups, names) then Some(GroupPeers(groups, names)) else None
  {
    var ps: seq<Peer> := [];
    for i := 0 to |names|
      invariant ps == GroupPeers(groups, names[..i]) && AllKnown(groups, names[..i])
    {
      AllKnownNext(groups, names, i);
      if names[i] !in groups || |groups[names[i]]| == 0 { return None; }
      GroupPeersNext(groups, names, i);
      ps := ps + Scoped(groups[names[i]]);
    }
    assert names[..|names|] == names;
    return Some(ps);
  }

  /** The addresses, then the address groups, of a rule. */
  method CollectPeers(groups: Groups, r: NpRule) returns (peers: Option<seq<Peer>>)
    ensures peers == if Ready(groups, r) then Some(Peers(groups, r)) else None
  {
    var more := CollectGroups(groups, r.addressGroups);
    if more.None? { return None; }
    return Some(CidrPeers(r.cidrs) + more.value);
  }

  lemma {:induction false} ScopedAre(ids: seq<GroupId>, peer: Peer)
    ensures peer in Scoped(ids) <==> peer.GroupPeer? && peer.id.vpc != "" && peer.id in ids
  {
    if ids != [] {
      var init, last := ids[..|ids| - 1], ids[|ids| - 1];
      assert ids == init + [last];
      ScopedAre(init, peer);
    }
  }

  lemma {:induction false} GroupPeersAre(groups: Groups, names: seq<string>, peer: Peer)
    ensures peer in GroupPeers(groups, names) <==>
            peer.GroupPeer? && peer.id.vpc != "" && exists g <- names :: g in groups && peer.id in groups[g]
  {
    if names != [] {
      var init, last := names[..|names| - 1], names[|names| - 1];
      assert names == init + [last];
      GroupPeersAre(groups, init, peer);
      if last in groups { ScopedAre(groups[last], peer); }
    }
  }

  lemma CidrsCover(cidrs: seq<string>, x: Peer)
    ensures Covered(CidrPeers(cidrs), x) <==> x.Cidr? && exists b <- cidrs :: CoversCidr(b, x.cidr)
  {
    var cs := CidrPeers(cidrs);
    if p :| p in cs && Covers(p, x) {
      var i :| 0 <= i < |cs| && cs[i] == p;
      assert cidrs[i] in cidrs;
    }
    if x.Cidr? {
      if b :| b in cidrs && CoversCidr(b, x.cidr) {
        var i :| 0 <= i < |cidrs| && cidrs[i] == b;
        assert cs[i] in cs && Covers(cs[i], x);
      }
    }
  }

  lemma GroupsCover(groups: Groups, names: seq<string>, x: Peer)
    ensures Covered(GroupPeers(groups, names), x) <==>
            x.GroupPeer? && x.id.vpc != "" && exists g <- names :: g in groups && x.id in groups[g]
  {
    GroupPeersAre(groups, names, x);
    if p :| p in GroupPeers(groups, names) && Covers(p, x) { GroupPeersAre(groups, names, p); }
    if x in GroupPeers(groups, names) { assert Covers(x, x); }
  }

  /** The peers of a rule cover what it names. */
  lemma PeersAre(groups: Groups, r: NpRule, x: Peer)
    ensures Covered(Peers(groups, r), x) <==> HasPeer(groups, r, x)
  {
    CidrsCover(r.cidrs, x);
    GroupsCover(groups, r.addressGroups, x);
    var a, b := CidrPeers(r.cidrs), GroupPeers(groups, r.addressGroups);
    assert forall p :: p in a + b <==> p in a || p in b;
    assert Covered(a + b, x) <==> Covered(a, x) || Covered(b, x);
  }

  /**
   * Peer after peer and service after service, with a running number: the rules match exactly the traffic with
   * those peers that the rule concerns, and all carry its orders.
   */
  method RulesOf(np: NetworkPolicy, r: NpRule, peers: seq<Peer>) returns (rules: seq<PolicyRule>)
    ensures rules == Expand(np, r, peers)
    ensures forall t :: (exists c <- rules :: Matches(c, t)) <==> Covered(peers, t.peer) && Concerns(np, r, t)
    ensures forall c <- rules :: OrdersOf(np, r, c.rule.action, c.rule.priority)
  {
    ExpandMeans(np, r, peers);
    rules := [];
    var vs := Variants(r);
    for p := 0 to |peers|
      invariant rules == RenderAll(np, r, Cells(peers[..p], vs))
    {
      assert peers[..p + 1][..p] == peers[..p];
      rules := RulesOfPeer(np, r, peers[p], vs, rules, Cells(peers[..p], vs));
    }
    assert peers[..|peers|] == peers;
  }

  lemma ExpandMeans(np: NetworkPolicy, r: NpRule, peers: seq<Peer>)
    ensures forall t :: (exists c <- Expand(np, r, peers) :: Matches(c, t)) <==> Covered(peers, t.peer) && Concerns(np, r, t)
    ensures forall c <- Expand(np, r, peers) :: OrdersOf(np, r, c.rule.action, c.rule.priority)
  {
    forall t ensures (exists c <- Expand(np, r, peers) :: Matches(c, t)) <==> Covered(peers, t.peer) && Concerns(np, r, t) {
      if c :| c in Expand(np, r, peers) && Matches(c, t) { ExpandSound(np, r, peers, t, c); }
      if Covered(peers, t.peer) && Concerns(np, r, t) { var c := ExpandComplete(np, r, peers, t); }
    }
    forall c <- Expand(np, r, peers) ensures OrdersOf(np, r, c.rule.action, c.rule.priority) {
      ExpandSound(np, r, peers, Traffic("", Ingress, Cidr(""), 0, 0, 0, 0), c);
    }
  }

  /** The rules of one more peer. */
  method RulesOfPeer(np: NetworkPolicy, r: NpRule, peer: Peer, vs: seq<Option<Service>>, before: seq<PolicyRule>,
                     ghost cells: seq<Cell>)
    returns (rules: seq<PolicyRule>)
    requires before == RenderAll(np, r, cells)
    ensures rules == RenderAll(np, r, cells + CellsFor(peer, |cells|, vs))
  {
    rules := before;
    var count := |before| + 1;
    ghost var more := CellsFor(peer, |cells|, vs);
    for v := 0 to |vs|
      invariant count == |cells| + v + 1
      invariant rules == RenderAll(np, r, cells + more[..v])
    {
      RenderSnoc(np, r, cells + more[..v], more[v]);
      assert cells + more[..v + 1] == cells + more[..v] + [more[v]];
      rules := rules + [Build(np, r, peer, vs[v], count)];
      count := count + 1;
    }
    assert more[..|vs|] == more;
  }

  lemma RenderSnoc(np: NetworkPolicy, r: NpRule, cells: seq<Cell>, c: Cell)
    ensures RenderAll(np, r, cells + [c]) == RenderAll(np, r, cells) + [Render(np, r, c)]
  {
  }

  /** What one rule is turned into, if it is ready. */
  function FromRule(groups: Groups, np: NetworkPolicy, r: NpRule): Option<seq<PolicyRule>> {
    if Ready(groups, r) then Some(Expand(np, r, Peers(groups, r))) else None
  }

  method ExpandRule(groups: Groups, np: NetworkPolicy, r: NpRule) returns (rules: Option<seq<PolicyRule>>)
    ensures rules == FromRule(groups, np, r)
  {
    var peers := CollectPeers(groups, r);
    if peers.None? { return None; }
    var out := RulesOf(np, r, peers.value);
    return Some(out);
  }

  /** The parts one after the other, or nothing when one of them is missing. */
  function Collect(parts: seq<Option<seq<PolicyRule>>>): Option<seq<PolicyRule>> {
    if parts == [] then Some([])
    else
      var init, last := Collect(parts[..|parts| - 1]), parts[|parts| - 1];
      if init.None? || last.None? then None else Some(init.value + last.value)
  }

  lemma {:induction false} CollectSome(parts: seq<Option<seq<PolicyRule>>>)
    ensures Collect(parts).Some? <==> forall i :: 0 <= i < |parts| ==> parts[i].Some?
  {
    if parts != [] { CollectSome(parts[..|parts| - 1]); }
  }

  lemma CollectNext(parts: seq<Option<seq<PolicyRule>>>, i: nat, out: seq<PolicyRule>, more: seq<PolicyRule>)
    requires i < |parts| && Collect(parts[..i]) == Some(out) && parts[i] == Some(more)
    ensures Collect(parts[..i + 1]) == Some(out + more)
  {
    assert parts[..i + 1][..i] == parts[..i];
  }

  lemma {:induction false} CollectMember(parts: seq<Option<seq<PolicyRule>>>, c: PolicyRule)
    requires Collect(parts).Some?
    ensures c in Collect(parts).value <==> exists i :: 0 <= i < |parts| && parts[i].Some? && c in parts[i].value
  {
    if parts != [] {
      var n := |parts| - 1;
      CollectMember(parts[..n], c);
      assert c in Collect(parts).value <==> c in Collect(parts[..n]).value || c in parts[n].value;
      if i :| 0 <= i < n && parts[..n][i].Some? && c in parts[..n][i].value { assert c in parts[i].value; }
      if i :| 0 <= i < n && parts[i].Some? && c in parts[i].value { assert c in parts[..n][i].value; }
    }
  }

  function Parts(groups: Groups, np: NetworkPolicy, rules: seq<NpRule>): seq<Option<seq<PolicyRule>>> {
    seq(|rules|, i requires 0 <= i < |rules| => FromRule(groups, np, rules[i]))
  }

  /** The rules of the whole policy, or none at all when some rule is not ready. */
  function FromPolicy(groups: Groups, np: NetworkPolicy, rules: seq<NpRule>): Option<seq<PolicyRule>> {
    Collect(Parts(groups, np, rules))
  }

  lemma DecidedIsOrdered(groups: Groups, np: NetworkPolicy, rules: seq<NpRule>, t: Traffic, c: PolicyRule)
    requires FromPolicy(groups, np, rules).Some? && c in FromPolicy(groups, np, rules).value && Matches(c, t)
    ensures Ordered(groups, np, rules, t, c.rule.action, c.rule.priority)
  {
    var parts := Parts(groups, np, rules);
    CollectMember(parts, c);
    var i :| 0 <= i < |parts| && parts[i].Some? && c in parts[i].value;
    ExpandSound(np, rules[i], Peers(groups, rules[i]), t, c);
    PeersAre(groups, rules[i], t.peer);
    assert rules[i] in rules;
  }

  lemma OrderedIsDecided(groups: Groups, np: NetworkPolicy, rules: seq<NpRule>, t: Traffic, r: NpRule) returns (c: PolicyRule)
    requires FromPolicy(groups, np, rules).Some? && r in rules && HasPeer(groups, r, t.peer) && Concerns(np, r, t)
    ensures c in FromPolicy(groups, np, rules).value && Matches(c, t)
    ensures OrdersOf(np, r, c.rule.action, c.rule.priority)
  {
    var parts := Parts(groups, np, rules);
    var i :| 0 <= i < |rules| && rules[i] == r;
    CollectSome(parts);
    assert parts[i].Some?;
    PeersAre(groups, r, t.peer);
    c := ExpandComplete(np, r, Peers(groups, r), t);
    ExpandSound(np, r, Peers(groups, r), t, c);
    assert c in parts[i].value;
    CollectMember(parts, c);
  }

  /**
   * Expansion keeps the meaning: some cloud rule is about the traffic and carries these orders exactly when some
   * rule of the policy, by its own fields, is about it and gives them.
   */
  lemma ExpansionMeansPolicy(groups: Groups, np: NetworkPolicy, rules: seq<NpRule>, t: Traffic, action: Option<Action>,
                             priority: Option<real>)
    requires FromPolicy(groups, np, rules).Some?
    ensures Decided(FromPolicy(groups, np, rules).value, t, action, priority) <==>
            Ordered(groups, np, rules, t, action, priority)
  {
    var out := FromPolicy(groups, np, rules).value;
    if Decided(out, t, action, priority) {
      var c :| c in out && Matches(c, t) && c.rule.action == action && c.rule.priority == priority;
      DecidedIsOrdered(groups, np, rules, t, c);
    }
    if Ordered(groups, np, rules, t, action, priority) {
      var r :| r in rules && HasPeer(groups, r, t.peer) && Concerns(np, r, t) && OrdersOf(np, r, action, priority);
      var c := OrderedIsDecided(groups, np, rules, t, r);
    }
  }

  /**
   * Down to one group on one provider: its rules are about exactly the traffic of the group that some rule of
   * the policy is about.
   */
  lemma GroupRulesMeanPolicy(groups: Groups, np: NetworkPolicy, rules: seq<NpRule>, p: Provider, t: Traffic)
    requires FromPolicy(groups, np, rules).Some?
    ensures (exists r <- RulesFor(p, FromPolicy(groups, np, rules).value, t.group) :: RuleMatches(r, t)) <==>
            exists r <- rules :: HasPeer(groups, r, t.peer) && Concerns(np, r, t)
  {
    var out := FromPolicy(groups, np, rules).value;
    RulesForMean(p, out, t);
    if c :| c in out && Matches(c, t) { DecidedIsOrdered(groups, np, rules, t, c); }
    if r :| r in rules && HasPeer(groups, r, t.peer) && Concerns(np, r, t) {
      var c := OrderedIsDecided(groups, np, rules, t, r);
    }
  }

  /** The rules of a policy, one after the other: together they mean what the policy says, or there are none. */
  method ComputeRules(groups: Groups, np: NetworkPolicy) returns (rules: Option<seq<PolicyRule>>)
    ensures rules == FromPolicy(groups, np, np.rules)
    ensures rules.Some? ==> forall t, action, priority ::
              Decided(rules.value, t, action, priority) <==> Ordered(groups, np, np.rules, t, action, priority)
  {
    if FromPolicy(groups, np, np.rules).Some? {
      forall t, action, priority
        ensures Decided(FromPolicy(groups, np, np.rules).value, t, action, priority) <==>
                Ordered(groups, np, np.rules, t, action, priority)
      {
        ExpansionMeansPolicy(groups, np, np.rules, t, action, priority);
      }
    }
    var out: seq<PolicyRule> := [];
    ghost var parts := Parts(groups, np, np.rules);
    for i := 0 to |np.rules|
      invariant Collect(parts[..i]) == Some(out)
    {
      var more := ExpandRule(groups, np, np.rules[i]);
      assert parts[i] == more;
      if more.None? {
        CollectSome(parts);
        return None;
      }
      CollectNext(parts, i, out, more.value);
      out := out + more.value;
    }
    assert parts[..|np.rules|] == parts;
    return Some(out);
  }

  /** All or nothing: a policy has cloud rules exactly when every address group it mentions is known. */
  lemma AllOrNothing(groups: Groups, np: NetworkPolicy, rules: seq<NpRule>)
    ensures FromPolicy(groups, np, rules).Some? <==> forall r <- rules :: Ready(groups, r)
    ensures FromPolicy(groups, np, rules).Some? <==>
            forall r <- rules :: forall g <- r.addressGroups :: g in groups && groups[g] != []
  {
    var parts := Parts(groups, np, rules);
    CollectSome(parts);
    assert forall r :: Ready(groups, r) <==> forall g <- r.addressGroups :: g in groups && groups[g] != [];
    assert forall i :: 0 <= i < |rules| ==> (parts[i].Some? <==> Ready(groups, rules[i]));
  }

  // ---------------------------------------------------------------------------------------------
  // Names in blocks
  // ---------------------------------------------------------------------------------------------

  predicate Unique(names: seq<string>) {
    forall i, j :: 0 <= i < j < |names| ==> names[i] != names[j]
  }

  /** The names one rule gives, numbered from one. */
  predicate NumberedFrom(names: seq<string>, rule: string, policy: string) {
    forall k :: 0 <= k < |names| ==> names[k] == RuleName(rule, policy, k + 1)
  }

  predicate NoneShared(a: seq<string>, b: seq<string>) {
    forall n <- a :: n !in b
  }

  lemma UniqueAppend(a: seq<string>, b: seq<string>)
    ensures Unique(a + b) <==> Unique(a) && Unique(b) && NoneShared(a, b)
  {
    var c := a + b;
    if Unique(c) {
      forall i, j | 0 <= i < j < |a| ensures a[i] != a[j] { assert c[i] != c[j]; }
      forall i, j | 0 <= i < j < |b| ensures b[i] != b[j] { assert c[|a| + i] != c[|a| + j]; }
      forall i, j | 0 <= i < |a| && 0 <= j < |b| ensures a[i] != b[j] { assert c[i] != c[|a| + j]; }
    } else {
      var i, j :| 0 <= i < j < |c| && c[i] == c[j];
      if i < |a| && |a| <= j { assert a[i] in a && b[j - |a|] in b; }
    }
  }

  lemma NumberedUnique(names: seq<string>, rule: string, policy: string)
    requires NumberedFrom(names, rule, policy)
    ensures Unique(names)
  {
    forall i, j | 0 <= i < j < |names| ensures names[i] != names[j] {
      if RuleName(rule, policy, i + 1) == RuleName(rule, policy, j + 1) {
        NamesAreUnique(rule, rule, policy, i + 1, j + 1);
      }
    }
  }

  /** Two rules with names of their own share none exactly when they are called differently, or one gives none. */
  lemma BlocksShare(a: seq<string>, rule: string, b: seq<string>, other: string, policy: string)
    requires NumberedFrom(a, rule, policy) && NumberedFrom(b, other, policy)
    ensures NoneShared(a, b) <==> (rule == other ==> a == [] || b == [])
  {
    if rule == other && a != [] && b != [] {
      assert a[0] == b[0] && a[0] in a && b[0] in b;
    } else {
      forall n <- a ensures n !in b {
        if n in b {
          var i :| 0 <= i < |a| && a[i] == n;
          var j :| 0 <= j < |b| && b[j] == n;
          NamesAreUnique(rule, other, policy, i + 1, j + 1);
        }
      }
    }
  }

  lemma {:induction false} BlocksShareNone(blocks: seq<seq<string>>, b: seq<string>)
    ensures NoneShared(Flatten(blocks), b) <==> forall x :: 0 <= x < |blocks| ==> NoneShared(blocks[x], b)
  {
    if blocks != [] {
      var init, last := blocks[..|blocks| - 1], blocks[|blocks| - 1];
      BlocksShareNone(init, b);
      assert NoneShared(Flatten(blocks), b) <==> NoneShared(Flatten(init), b) && NoneShared(last, b);
      assert forall x :: 0 <= x < |init| ==> blocks[x] == init[x];
    }
  }

  predicate AllNumbered(blocks: seq<seq<string>>, rules: seq<string>, policy: string) {
    |blocks| == |rules| && forall x :: 0 <= x < |blocks| ==> NumberedFrom(blocks[x], rules[x], policy)
  }

  /** No two rules that give names are called the same. */
  predicate BlocksApart(blocks: seq<seq<string>>, rules: seq<string>)
    requires |blocks| == |rules|
  {
    forall x, y :: 0 <= x < y < |rules| && rules[x] == rules[y] ==> blocks[x] == [] || blocks[y] == []
  }

  lemma {:induction false} BlocksUnique(blocks: seq<seq<string>>, rules: seq<string>, policy: string)
    requires AllNumbered(blocks, rules, policy)
    ensures Unique(Flatten(blocks)) <==> BlocksApart(blocks, rules)
  {
    if blocks != [] {
      var m := |blocks| - 1;
      BlocksUnique(blocks[..m], rules[..m], policy);
      UniqueAppend(Flatten(blocks[..m]), blocks[m]);
      NumberedUnique(blocks[m], rules[m], policy);
      BlocksShareNone(blocks[..m], blocks[m]);
      forall x | 0 <= x < m
        ensures NoneShared(blocks[x], blocks[m]) <==> (rules[x] == rules[m] ==> blocks[x] == [] || blocks[m] == [])
      {
        BlocksShare(blocks[x], rules[x], blocks[m], rules[m], policy);
      }
      ApartSnoc(blocks, rules);
    }
  }

  lemma ApartSnoc(blocks: seq<seq<string>>, rules: seq<string>)
    requires blocks != [] && |blocks| == |rules|
    ensures var m := |rules| - 1;
            BlocksApart(blocks, rules) <==>
            && BlocksApart(blocks[..m], rules[..m])
            && forall x :: 0 <= x < m && rules[x] == rules[m] ==> blocks[x] == [] || blocks[m] == []
  {
    var m := |rules| - 1;
    if BlocksApart(blocks, rules) {
      forall x, y | 0 <= x < y < m && rules[..m][x] == rules[..m][y] ensures blocks[..m][x] == [] || blocks[..m][y] == [] {
        assert rules[x] == rules[y];
      }
    } else {
      var x, y :| 0 <= x < y < |rules| && rules[x] == rules[y] && blocks[x] != [] && blocks[y] != [];
      if y < m { assert rules[..m][x] == rules[..m][y]; }
    }
  }

  // ---------------------------------------------------------------------------------------------
  // The names of a whole policy
  // ---------------------------------------------------------------------------------------------

  function NamesOf(out: seq<PolicyRule>): seq<string> {
    seq(|out|, i requires 0 <= i < |out| => out[i].rule.name)
  }

  predicate UniqueNames(out: seq<PolicyRule>) {
    forall i, j :: 0 <= i < j < |out| ==> out[i].rule.name != out[j].rule.name
  }

  lemma UniqueNamesOf(out: seq<PolicyRule>)
    ensures UniqueNames(out) <==> Unique(NamesOf(out))
  {
    var names := NamesOf(out);
    if Unique(names) {
      forall i, j | 0 <= i < j < |out| ensures out[i].rule.name != out[j].rule.name { assert names[i] != names[j]; }
    }
  }

  /** The cloud rules of one rule carry its name and the policy's, and are numbered from one. */
  lemma ExpandNames(np: NetworkPolicy, r: NpRule, peers: seq<Peer>, k: nat)
    requires k < |Expand(np, r, peers)|
    ensures Expand(np, r, peers)[k].rule.name == RuleName(r.name, np.name, k + 1)
  {
    CellsNumbered(peers, Variants(r), k);
  }

  /** The names of one rule's cloud rules; there are some exactly if it has peers. */
  function Block(groups: Groups, np: NetworkPolicy, r: NpRule): seq<string> {
    NamesOf(Expand(np, r, Peers(groups, r)))
  }

  lemma BlockIs(groups: Groups, np: NetworkPolicy, r: NpRule)
    ensures NumberedFrom(Block(groups, np, r), r.name, np.name)
    ensures Block(groups, np, r) == [] <==> Peers(groups, r) == []
  {
    var peers := Peers(groups, r);
    forall k | 0 <= k < |Expand(np, r, peers)| ensures Block(groups, np, r)[k] == RuleName(r.name, np.name, k + 1) {
      ExpandNames(np, r, peers, k);
    }
    CellsLength(peers, Variants(r));
    SlotsIs(|peers|, |Variants(r)|);
  }

  function Blocks(groups: Groups, np: NetworkPolicy, rules: seq<NpRule>): seq<seq<string>> {
    seq(|rules|, i requires 0 <= i < |rules| => Block(groups, np, rules[i]))
  }

  lemma {:induction false} CollectNames(parts: seq<Option<seq<PolicyRule>>>, blocks: seq<seq<string>>)
    requires Collect(parts).Some? && |blocks| == |parts|
    requires forall i :: 0 <= i < |parts| ==> parts[i].Some? && blocks[i] == NamesOf(parts[i].value)
    ensures NamesOf(Collect(parts).value) == Flatten(blocks)
  {
    if parts != [] {
      var n := |parts| - 1;
      CollectNames(parts[..n], blocks[..n]);
      assert NamesOf(Collect(parts[..n]).value + parts[n].value) == NamesOf(Collect(parts[..n]).value) + NamesOf(parts[n].value);
    }
  }

  lemma PolicyBlocks(groups: Groups, np: NetworkPolicy, rules: seq<NpRule>)
    requires FromPolicy(groups, np, rules).Some?
    ensures NamesOf(FromPolicy(groups, np, rules).value) == Flatten(Blocks(groups, np, rules))
  {
    var parts := Parts(groups, np, rules);
    CollectSome(parts);
    forall i | 0 <= i < |rules| ensures parts[i].Some? && Block(groups, np, rules[i]) == NamesOf(parts[i].value) {
      assert parts[i] == FromRule(groups, np, rules[i]);
    }
    CollectNames(parts, Blocks(groups, np, rules));
  }

  function RuleNames(rules: seq<NpRule>): seq<string> {
    seq(|rules|, i requires 0 <= i < |rules| => rules[i].name)
  }

  /** No two rules that have somebody to talk to share a name. */
  predicate RulesApart(groups: Groups, rules: seq<NpRule>) {
    forall x, y :: 0 <= x < y < |rules| && rules[x].name == rules[y].name ==>
      Peers(groups, rules[x]) == [] || Peers(groups, rules[y]) == []
  }

  lemma RulesApartIs(groups: Groups, np: NetworkPolicy, rules: seq<NpRule>)
    ensures AllNumbered(Blocks(groups, np, rules), RuleNames(rules), np.name)
    ensures RulesApart(groups, rules) <==> BlocksApart(Blocks(groups, np, rules), RuleNames(rules))
  {
    var blocks, names := Blocks(groups, np, rules), RuleNames(rules);
    forall x | 0 <= x < |rules|
      ensures NumberedFrom(blocks[x], names[x], np.name) && (blocks[x] == [] <==> Peers(groups, rules[x]) == [])
    {
      BlockIs(groups, np, rules[x]);
    }
    if BlocksApart(blocks, names) {
      forall x, y | 0 <= x < y < |rules| && rules[x].name == rules[y].name
        ensures Peers(groups, rules[x]) == [] || Peers(groups, rules[y]) == []
      {
        assert names[x] == names[y];
      }
    }
  }

  /** The cloud rules of a policy have pairwise different names exactly when its rules with peers do. */
  lemma PolicyNamesAreUnique(groups: Groups, np: NetworkPolicy, rules: seq<NpRule>)
    requires FromPolicy(groups, np, rules).Some?
    ensures UniqueNames(FromPolicy(groups, np, rules).value) <==> RulesApart(groups, rules)
  {
    PolicyBlocks(groups, np, rules);
    UniqueNamesOf(FromPolicy(groups, np, rules).value);
    RulesApartIs(groups, np, rules);
    BlocksUnique(Blocks(groups, np, rules), RuleNames(rules), np.name);
  }
}
