/** Rules to Azure security rules and back: the synchronization with the cloud relies on the round trip. */
module AzureConverters {
  import opened Wrappers
  import opened Text
  import opened Decimals
  import opened CloudRules
  import opened Descriptions

  datatype AzureProtocol = Asterisk | Icmp | Tcp | Udp | OtherProtocol

  /** A port range as text: the asterisk, or one number. */
  datatype PortText = AnyPort | PortNumber(n: int)

  datatype Access = AllowAccess | DenyAccess

  /**
   * A security rule of one applied-to group. The other end is an address prefix, a list of prefixes, or
   * a list of application security groups given by their names.
   */
  datatype NsgRule = NsgRule(
    name: string, direction: Direction, protocol: AzureProtocol, sourcePort: PortText, destPort: PortText,
    prefix: Option<string>, prefixes: seq<string>, asgs: seq<string>, access: Access, description: string)

  // ---------------------------------------------------------------------------------------------
  // To Azure
  // ---------------------------------------------------------------------------------------------

  function ToProtocol(p: Option<int>): Result<AzureProtocol> {
    if p.None? then Ok(Asterisk)
    else if p.value == 1 then Ok(Icmp)
    else if p.value == 6 then Ok(Tcp)
    else if p.value == 17 then Ok(Udp)
    else Err
  }

  function TextOf(n: Option<int>): PortText {
    if n.None? then AnyPort else PortNumber(n.value)
  }

  function ToPorts(port: Option<int>, icmpType: Option<int>, icmpCode: Option<int>): (PortText, PortText) {
    if port.Some? then (AnyPort, TextOf(port)) else (TextOf(icmpType), TextOf(icmpCode))
  }

  function AsgName(prefix: string, g: GroupId): string {
    prefix + "-ag-" + Lower(g.name)
  }

  /** Every group must exist in the cloud. */
  function ToAsgs(prefix: string, known: set<string>, groups: seq<GroupId>): Result<seq<string>> {
    if groups == [] then Ok([])
    else
      var init := ToAsgs(prefix, known, groups[..|groups| - 1]);
      var last := AsgName(prefix, groups[|groups| - 1]);
      if init.Err? || last !in known then Err else Ok(init.value + [last])
  }

  /** Everything but the other end. */
  function Frame(r: Rule, protocol: AzureProtocol, description: string): NsgRule {
    var ports := ToPorts(r.port, r.icmpType, r.icmpCode);
    NsgRule(r.name, r.direction, protocol, ports.0, ports.1, None, [], [],
            if r.action == Some(Drop) then DenyAccess else AllowAccess, description)
  }

  function AddressRules(r: Rule, frame: NsgRule): seq<NsgRule> {
    if r.cidrs == [] && r.groups != [] then []
    else if r.cidrs == [] then [frame.(prefix := Some("*"))]
    else [frame.(prefixes := r.cidrs)]
  }

  function ToNsgRules(prefix: string, known: set<string>, o: CloudRule): Result<seq<NsgRule>> {
    var text := Generate(o.owner, o.rule.priority);
    var protocol := ToProtocol(o.rule.protocol);
    var asgs := ToAsgs(prefix, known, o.rule.groups);
    if text.Err? || protocol.Err? || asgs.Err? then Err
    else
      var frame := Frame(o.rule, protocol.value, text.value);
      Ok(AddressRules(o.rule, frame) + if asgs.value == [] then [] else [frame.(asgs := asgs.value)])
  }

  /** A list of rules is converted as a whole or not at all. */
  function ToAll(prefix: string, known: set<string>, os: seq<CloudRule>): Result<seq<NsgRule>> {
    if os == [] then Ok([])
    else
      var init, last := ToAll(prefix, known, os[..|os| - 1]), ToNsgRules(prefix, known, os[|os| - 1]);
      if init.Err? || last.Err? then Err else Ok(init.value + last.value)
  }

  /** The owner can be described, Azure has the protocol, and every group is in the cloud. */
  predicate Convertible(prefix: string, known: set<string>, o: CloudRule) {
    && Generate(o.owner, o.rule.priority).Ok? && ProtocolSurvives(o.rule.protocol)
    && forall g <- o.rule.groups :: AsgName(prefix, g) in known
  }

  lemma {:induction false} ToAsgsOk(prefix: string, known: set<string>, groups: seq<GroupId>)
    ensures ToAsgs(prefix, known, groups).Ok? <==> forall g <- groups :: AsgName(prefix, g) in known
  {
    if groups != [] {
      var init, last := groups[..|groups| - 1], groups[|groups| - 1];
      assert groups == init + [last];
      ToAsgsOk(prefix, known, init);
    }
  }

  lemma ToNsgRulesOk(prefix: string, known: set<string>, o: CloudRule)
    ensures ToNsgRules(prefix, known, o).Ok? <==> Convertible(prefix, known, o)
  {
    ToAsgsOk(prefix, known, o.rule.groups);
    assert ToProtocol(o.rule.protocol).Ok? <==> ProtocolSurvives(o.rule.protocol);
  }

  lemma {:induction false} ToAllOk(prefix: string, known: set<string>, os: seq<CloudRule>)
    ensures ToAll(prefix, known, os).Ok? <==> forall o <- os :: Convertible(prefix, known, o)
  {
    if os != [] {
      var init, last := os[..|os| - 1], os[|os| - 1];
      assert os == init + [last];
      ToAllOk(prefix, known, init);
      ToNsgRulesOk(prefix, known, last);
    }
  }

  /** All security rules or none: the list converts exactly when every rule of it does. */
  method ConvertToNsgRules(prefix: string, known: set<string>, os: seq<CloudRule>) returns (r: Result<seq<NsgRule>>)
    ensures r == ToAll(prefix, known, os)
    ensures r.Ok? <==> forall o <- os :: Convertible(prefix, known, o)
  {
    ToAllOk(prefix, known, os);
    var out: seq<NsgRule> := [];
    for k := 0 to |os|
      invariant ToAll(prefix, known, os[..k]) == Ok(out)
    {
      assert os[..k + 1][..k] == os[..k];
      var one := ToNsgRules(prefix, known, os[k]);
      if one.Err? {
        ToAllFails(prefix, known, os, k);
        return Err;
      }
      out := out + one.value;
    }
    assert os[..|os|] == os;
    return Ok(out);
  }

  lemma {:induction false} ToAllFails(prefix: string, known: set<string>, os: seq<CloudRule>, k: nat)
    requires k < |os| && ToNsgRules(prefix, known, os[k]).Err?
    ensures ToAll(prefix, known, os).Err?
  {
    if k < |os| - 1 { ToAllFails(prefix, known, os[..|os| - 1], k); }
  }

  // ---------------------------------------------------------------------------------------------
  // From Azure
  // ---------------------------------------------------------------------------------------------

  function FromProtocol(p: AzureProtocol): Result<Option<int>> {
    match p
    case Asterisk => Ok(None)
    case Icmp => Ok(Some(1))
    case Tcp => Ok(Some(6))
    case Udp => Ok(Some(17))
    case OtherProtocol => Err
  }

  /** Unless both are the asterisk, an asterisk is read as the number zero. */
  function FromPorts(source: PortText, dest: PortText): (Option<int>, Option<int>) {
    if source == AnyPort && dest == AnyPort then (None, None)
    else (Some(if source == AnyPort then 0 else source.n), Some(if dest == AnyPort then 0 else dest.n))
  }

  function FromPrefixes(n: NsgRule): seq<string> {
    if n.prefix == Some("*") then []
    else (if n.prefix.Some? then [n.prefix.value] else []) + n.prefixes
  }

  /** Groups that are not the controller's address groups are skipped. */
  function FromAsgs(prefix: string, asgs: seq<string>, vnet: string): seq<GroupId> {
    if asgs == [] then []
    else
      var p, last := prefix + "-ag-", asgs[|asgs| - 1];
      FromAsgs(prefix, asgs[..|asgs| - 1], vnet) +
      if p <= last then [GroupId(Lower(last[|p|..]), vnet)] else []
  }

  function WithPorts(r: Rule, n: NsgRule): Rule {
    var ports := FromPorts(n.sourcePort, n.destPort);
    if r.protocol == Some(1) then r.(icmpType := ports.0, icmpCode := ports.1) else r.(port := ports.1)
  }

  /** Everything but the other end; `desc` is the parsed description. */
  function BareRule(n: NsgRule, protocol: Option<int>, desc: Option<Description>): CloudRule {
    var bare := Rule(n.direction, protocol, None, None, None, [], [],
                     if desc.Some? then desc.value.priority else None,
                     Some(if n.access == DenyAccess then Drop else Allow), n.name);
    CloudRule(WithPorts(bare, n), if desc.Some? then desc.value.namespace + "/" + desc.value.name else "")
  }

  function FromNsgRule(prefix: string, vnet: string, n: NsgRule): Result<seq<CloudRule>> {
    var protocol := FromProtocol(n.protocol);
    if protocol.Err? then Err
    else
      var bare := BareRule(n, protocol.value, Extract(n.description));
      var ips, groups := FromPrefixes(n), FromAsgs(prefix, n.asgs, vnet);
      Ok(seq(|ips|, i requires 0 <= i < |ips| => bare.(rule := bare.rule.(cidrs := [ips[i]]))) +
         seq(|groups|, i requires 0 <= i < |groups| => bare.(rule := bare.rule.(groups := [groups[i]]))))
  }

  // ---------------------------------------------------------------------------------------------
  // The round trip
  // ---------------------------------------------------------------------------------------------

  predicate ProtocolSurvives(p: Option<int>) {
    p.None? || p.value in {1, 6, 17}
  }

  /** ICMP needs type and code together; other protocols have neither. */
  predicate PortsSurvive(r: Rule) {
    if r.protocol == Some(1) then r.port.None? && (r.icmpType.Some? <==> r.icmpCode.Some?)
    else r.icmpType.None? && r.icmpCode.None?
  }

  predicate PrioritySurvives(r: Rule) {
    r.priority.Some? ==> Round4(r.priority.value) as real / 10000.0 == r.priority.value
  }

  /** About one address, or one group that is known in this network and named in lower case. */
  predicate Simple(prefix: string, vnet: string, known: set<string>, r: Rule) {
    || (|r.cidrs| == 1 && r.cidrs[0] != "*" && r.groups == [])
    || (r.cidrs == [] && |r.groups| == 1 && AsgName(prefix, r.groups[0]) in known
        && Lower(r.groups[0].name) == r.groups[0].name && r.groups[0].vpc == vnet)
  }

  /** The one security rule a simple rule is turned into. */
  function Single(prefix: string, r: Rule, protocol: AzureProtocol, description: string): NsgRule {
    if r.groups != [] then Frame(r, protocol, description).(asgs := [AsgName(prefix, r.groups[0])])
    else Frame(r, protocol, description).(prefixes := r.cidrs)
  }

  lemma ToOneAsg(prefix: string, known: set<string>, g: GroupId)
    requires AsgName(prefix, g) in known
    ensures ToAsgs(prefix, known, [g]) == Ok([AsgName(prefix, g)])
  {
    assert [g][..0] == [];
    assert ToAsgs(prefix, known, [g][..0]) == Ok([]);
    assert [] + [AsgName(prefix, g)] == [AsgName(prefix, g)];
  }

  lemma FromOneAsg(prefix: string, g: GroupId)
    requires Lower(g.name) == g.name
    ensures FromAsgs(prefix, [AsgName(prefix, g)], g.vpc) == [g]
  {
    var p := prefix + "-ag-";
    var asgs: seq<string> := [AsgName(prefix, g)];
    assert asgs[..0] == [];
    assert asgs[0] == p + Lower(g.name) && asgs[0][|p|..] == Lower(g.name);
  }

  lemma ToSingle(prefix: string, vnet: string, known: set<string>, o: CloudRule, text: string)
    requires Simple(prefix, vnet, known, o.rule) && Generate(o.owner, o.rule.priority) == Ok(text)
    ensures ToNsgRules(prefix, known, o) ==
            if ToProtocol(o.rule.protocol).Err? then Err
            else Ok([Single(prefix, o.rule, ToProtocol(o.rule.protocol).value, text)])
  {
    if o.rule.groups != [] {
      assert o.rule.groups == [o.rule.groups[0]];
      ToOneAsg(prefix, known, o.rule.groups[0]);
    }
    if ToProtocol(o.rule.protocol).Ok? {
      var frame := Frame(o.rule, ToProtocol(o.rule.protocol).value, text);
      var single := Single(prefix, o.rule, ToProtocol(o.rule.protocol).value, text);
      assert AddressRules(o.rule, frame) == if o.rule.groups != [] then [] else [single];
      assert [] + [single] == [single] && [single] + [] == [single];
    }
  }

  lemma FromSingle(prefix: string, vnet: string, known: set<string>, r: Rule, protocol: AzureProtocol, text: string)
    requires Simple(prefix, vnet, known, r) && FromProtocol(protocol).Ok?
    ensures var n := Single(prefix, r, protocol, text);
            var bare := BareRule(n, FromProtocol(protocol).value, Extract(text));
            FromNsgRule(prefix, vnet, n) == Ok([bare.(rule := bare.rule.(cidrs := r.cidrs, groups := r.groups))])
  {
    var n := Single(prefix, r, protocol, text);
    if r.groups != [] {
      FromOneAsg(prefix, r.groups[0]);
      assert r.groups == [r.groups[0]] && FromPrefixes(n) == [];
    } else {
      assert FromPrefixes(n) == r.cidrs == [r.cidrs[0]];
      assert FromAsgs(prefix, n.asgs, vnet) == [];
    }
    var bare, out := BareRule(n, FromProtocol(protocol).value, Extract(text)), FromNsgRule(prefix, vnet, n).value;
    assert |out| == 1 && bare.rule.cidrs == [] && bare.rule.groups == [];
    assert out[0].rule == bare.rule.(cidrs := r.cidrs, groups := r.groups);
    assert out == [out[0]];
  }

  lemma PortsRoundTrip(r: Rule)
    ensures (var ports := ToPorts(r.port, r.icmpType, r.icmpCode);
             var back := FromPorts(ports.0, ports.1);
             if r.protocol == Some(1) then r.port.None? && back == (r.icmpType, r.icmpCode)
             else r.icmpType.None? && r.icmpCode.None? && back.1 == r.port) <==> PortsSurvive(r)
  {
  }

  /** A lone ICMP type comes back with code zero, a lone code with type zero. */
  lemma LoneIcmpFieldMeetsZero(n: int)
    ensures var ports := ToPorts(None, Some(n), None); FromPorts(ports.0, ports.1) == (Some(n), Some(0))
    ensures var ports := ToPorts(None, None, Some(n)); FromPorts(ports.0, ports.1) == (Some(0), Some(n))
  {
  }

  /** A rule about every address is turned into one security rule, and that comes back as no rule at all. */
  lemma AnyAddressIsLost(prefix: string, vnet: string, known: set<string>, o: CloudRule)
    requires o.rule.cidrs == [] && o.rule.groups == [] && ToNsgRules(prefix, known, o).Ok?
    ensures var ns := ToNsgRules(prefix, known, o).value; |ns| == 1 && FromNsgRule(prefix, vnet, ns[0]) == Ok([])
  {
    var n := ToNsgRules(prefix, known, o).value[0];
    assert n.prefix == Some("*") && n.asgs == [];
    assert FromPrefixes(n) == [] && FromAsgs(prefix, n.asgs, vnet) == [];
    assert FromNsgRule(prefix, vnet, n).Ok? && |FromNsgRule(prefix, vnet, n).value| == 0;
  }

  predicate NamesGroup(prefix: string, asg: string, name: string) {
    prefix + "-ag-" <= asg && name == Lower(asg[|prefix + "-ag-"|..])
  }

  /** Of the groups of a security rule exactly those named as address groups of the controller come back. */
  lemma {:induction false} FromAsgsMember(prefix: string, asgs: seq<string>, vnet: string, g: GroupId)
    ensures g in FromAsgs(prefix, asgs, vnet) <==>
            g.vpc == vnet && exists a <- asgs :: NamesGroup(prefix, a, g.name)
  {
    if asgs != [] {
      var init, last := asgs[..|asgs| - 1], asgs[|asgs| - 1];
      assert forall a :: a in asgs <==> a in init || a == last by { assert asgs == init + [last]; }
      FromAsgsMember(prefix, init, vnet, g);
      var p := prefix + "-ag-";
      var more := if p <= last then [GroupId(Lower(last[|p|..]), vnet)] else [];
      assert FromAsgs(prefix, asgs, vnet) == FromAsgs(prefix, init, vnet) + more;
      assert g in more <==> g.vpc == vnet && NamesGroup(prefix, last, g.name);
    }
  }

  lemma BareRoundTrip(prefix: string, r: Rule, protocol: AzureProtocol, text: string, desc: Description)
    requires ToProtocol(r.protocol) == Ok(protocol) && Extract(text) == Some(desc)
    ensures var bare := BareRule(Single(prefix, r, protocol, text), FromProtocol(protocol).value, Some(desc));
            bare.rule.(cidrs := r.cidrs, groups := r.groups) == r <==>
            PortsSurvive(r) && r.action.Some? && desc.priority == r.priority
  {
    PortsRoundTrip(r);
    assert FromProtocol(protocol).value == r.protocol;
    var n := Single(prefix, r, protocol, text);
    var bare := BareRule(n, r.protocol, Some(desc)).rule;
    var back := FromPorts(n.sourcePort, n.destPort);
    assert bare.protocol == r.protocol && bare.direction == r.direction && bare.name == r.name;
    assert r.protocol == Some(1) ==> bare.port.None? && bare.icmpType == back.0 && bare.icmpCode == back.1;
    assert r.protocol != Some(1) ==> bare.port == back.1 && bare.icmpType.None? && bare.icmpCode.None?;
    assert r.action.Some? ==> r.action.value.Allow? || r.action.value.Drop?;
    assert bare.action == r.action <==> r.action.Some?;
  }

  /** The security rule of a simple rule comes back as that rule. */
  lemma SingleComesBack(prefix: string, vnet: string, known: set<string>, o: CloudRule, protocol: AzureProtocol,
                        text: string, desc: Description)
    requires Simple(prefix, vnet, known, o.rule) && ToProtocol(o.rule.protocol) == Ok(protocol)
    requires Extract(text) == Some(desc) && o.owner == desc.namespace + "/" + desc.name
    ensures FromNsgRule(prefix, vnet, Single(prefix, o.rule, protocol, text)) == Ok([o]) <==>
            PortsSurvive(o.rule) && o.rule.action.Some? && desc.priority == o.rule.priority
  {
    FromSingle(prefix, vnet, known, o.rule, protocol, text);
    BareRoundTrip(prefix, o.rule, protocol, text, desc);
  }

  /** The description such a rule is given, and what it is read back as. */
  lemma OwnerText(o: CloudRule, namespace: string, name: string) returns (text: string, desc: Description)
    requires GoodOwner(o.owner, namespace, name)
    ensures Generate(o.owner, o.rule.priority) == Ok(text) && Extract(text) == Some(desc)
    ensures o.owner == desc.namespace + "/" + desc.name && (desc.priority == o.rule.priority <==> PrioritySurvives(o.rule))
  {
    GenerateRoundTrip(name, namespace, o.rule.priority);
    text := Generate(o.owner, o.rule.priority).value;
    desc := Rounded(Description(name, namespace, o.rule.priority));
  }

  /** The same of the rule as it is converted, given what its description is read back as. */
  lemma DescribedRoundTrip(prefix: string, vnet: string, known: set<string>, o: CloudRule, text: string, desc: Description)
    requires Simple(prefix, vnet, known, o.rule) && Generate(o.owner, o.rule.priority) == Ok(text)
    requires Extract(text) == Some(desc) && o.owner == desc.namespace + "/" + desc.name
    ensures (var to := ToNsgRules(prefix, known, o);
             to.Ok? && |to.value| == 1 && FromNsgRule(prefix, vnet, to.value[0]) == Ok([o])) <==>
            ProtocolSurvives(o.rule.protocol) && PortsSurvive(o.rule) && o.rule.action.Some? && desc.priority == o.rule.priority
  {
    ToSingle(prefix, vnet, known, o, text);
    assert ToProtocol(o.rule.protocol).Ok? <==> ProtocolSurvives(o.rule.protocol);
    if ToProtocol(o.rule.protocol).Ok? {
      SingleComesBack(prefix, vnet, known, o, ToProtocol(o.rule.protocol).value, text, desc);
    }
  }

  /**
   * A rule about one address or one managed group comes back from Azure as exactly one rule, the same rule
   * with the same owner, exactly when its protocol is supported, its ports survive, its action is set and
   * its priority has at most four digits after the point.
   */
  lemma RuleRoundTrip(prefix: string, vnet: string, known: set<string>, o: CloudRule, namespace: string, name: string)
    requires Simple(prefix, vnet, known, o.rule) && GoodOwner(o.owner, namespace, name)
    ensures (var to := ToNsgRules(prefix, known, o);
             to.Ok? && |to.value| == 1 && FromNsgRule(prefix, vnet, to.value[0]) == Ok([o])) <==>
            ProtocolSurvives(o.rule.protocol) && PortsSurvive(o.rule) && o.rule.action.Some? && PrioritySurvives(o.rule)
  {
    var text, desc := OwnerText(o, namespace, name);
    DescribedRoundTrip(prefix, vnet, known, o, text, desc);
  }

  /** What the round trip of one rule asks for. */
  ghost predicate Survives(prefix: string, vnet: string, known: set<string>, o: CloudRule) {
    && Simple(prefix, vnet, known, o.rule) && ProtocolSurvives(o.rule.protocol) && PortsSurvive(o.rule)
    && o.rule.action.Some? && PrioritySurvives(o.rule)
    && exists namespace, name :: GoodOwner(o.owner, namespace, name)
  }

  lemma OneComesBack(prefix: string, vnet: string, known: set<string>, o: CloudRule)
    requires Survives(prefix, vnet, known, o)
    ensures var to := ToNsgRules(prefix, known, o);
            to.Ok? && |to.value| == 1 && FromNsgRule(prefix, vnet, to.value[0]) == Ok([o])
  {
    var namespace, name :| GoodOwner(o.owner, namespace, name);
    RuleRoundTrip(prefix, vnet, known, o, namespace, name);
  }

  /** Rule by rule, the security rules come back as the list. */
  predicate AllComeBack(prefix: string, vnet: string, ns: seq<NsgRule>, os: seq<CloudRule>) {
    |ns| == |os| && forall i :: 0 <= i < |os| ==> FromNsgRule(prefix, vnet, ns[i]) == Ok([os[i]])
  }

  lemma ComeBackSnoc(prefix: string, vnet: string, ns: seq<NsgRule>, os: seq<CloudRule>, n: NsgRule, o: CloudRule)
    requires AllComeBack(prefix, vnet, ns, os) && FromNsgRule(prefix, vnet, n) == Ok([o])
    ensures AllComeBack(prefix, vnet, ns + [n], os + [o])
  {
  }

  lemma ToAllSnoc(prefix: string, known: set<string>, os: seq<CloudRule>, o: CloudRule)
    ensures var (init, last) := (ToAll(prefix, known, os), ToNsgRules(prefix, known, o));
            ToAll(prefix, known, os + [o]) == if init.Err? || last.Err? then Err else Ok(init.value + last.value)
  {
    assert (os + [o])[..|os|] == os;
  }

  /** The whole list is converted, and comes back. */
  ghost predicate Back(prefix: string, vnet: string, known: set<string>, os: seq<CloudRule>) {
    var to := ToAll(prefix, known, os);
    to.Ok? && AllComeBack(prefix, vnet, to.value, os)
  }

  lemma BackSnoc(prefix: string, vnet: string, known: set<string>, os: seq<CloudRule>, o: CloudRule)
    requires Back(prefix, vnet, known, os) && Survives(prefix, vnet, known, o)
    ensures Back(prefix, vnet, known, os + [o])
  {
    OneComesBack(prefix, vnet, known, o);
    var ns, last := ToAll(prefix, known, os).value, ToNsgRules(prefix, known, o).value;
    assert last == [last[0]];
    ComeBackSnoc(prefix, vnet, ns, os, last[0], o);
    ToAllSnoc(prefix, known, os, o);
  }

  ghost predicate AllSurvive(prefix: string, vnet: string, known: set<string>, os: seq<CloudRule>) {
    forall o <- os :: Survives(prefix, vnet, known, o)
  }

  /** The security rules made of a list come back as that list. */
  lemma {:induction false} ListRoundTrip(prefix: string, vnet: string, known: set<string>, os: seq<CloudRule>)
    requires AllSurvive(prefix, vnet, known, os)
    ensures Back(prefix, vnet, known, os)
  {
    if os != [] {
      var init, o := os[..|os| - 1], os[|os| - 1];
      assert os == init + [o];
      ListRoundTrip(prefix, vnet, known, init);
      BackSnoc(prefix, vnet, known, init, o);
    }
  }
}
