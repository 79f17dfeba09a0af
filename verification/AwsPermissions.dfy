/**
 * Rules of one AWS security group: permissions as AWS lists them are normalized, additions that are
 * already there are dropped, and the rest is realized in four calls that are undone when one fails.
 */
module AwsPermissions {
  import opened Wrappers
  import opened Matching

  /** The other end of a permission. Every range and group pair has its own description. */
  datatype Remote =
    | V4(cidr: string, description: string)
    | V6(cidr: string, description: string)
    | Pair(groupId: string, description: string)

  /** AWS names some protocols and numbers the others. */
  datatype Protocol = Any | Icmp | Igmp | Tcp | Udp | Icmpv6 | Number(number: int)

  datatype IpPermission = IpPermission(
    protocol: Protocol, fromPort: Option<int>, toPort: Option<int>,
    v4: seq<Remote>, v6: seq<Remote>, groups: seq<Remote>)

  // ---------------------------------------------------------------------------------------------
  // Normalization
  // ---------------------------------------------------------------------------------------------

  /** One permission for one peer, its protocol given by number where AWS has a name for it. */
  datatype Atom = Atom(protocol: Protocol, fromPort: Option<int>, toPort: Option<int>, peer: Remote)

  function ProtocolNumber(p: Protocol): Protocol {
    match p
    case Icmp => Number(1)
    case Igmp => Number(2)
    case Tcp => Number(6)
    case Udp => Number(17)
    case Icmpv6 => Number(58)
    case _ => p
  }

  function AtomFor(p: IpPermission, peer: Remote): Atom {
    Atom(ProtocolNumber(p.protocol), p.fromPort, p.toPort, peer)
  }

  function AtomsOf(p: IpPermission): (r: seq<Atom>)
    ensures |r| == |p.v4| + |p.v6| + |p.groups|
    ensures forall i :: 0 <= i < |r| ==> r[i] == AtomFor(p, (p.v4 + p.v6 + p.groups)[i])
  {
    var peers := p.v4 + p.v6 + p.groups;
    seq(|peers|, i requires 0 <= i < |peers| => AtomFor(p, peers[i]))
  }

  /** What a list of permissions allows, peer by peer. */
  function Atoms(ps: seq<IpPermission>): seq<Atom> {
    if ps == [] then [] else Atoms(ps[..|ps| - 1]) + AtomsOf(ps[|ps| - 1])
  }

  function Single(a: Atom): IpPermission {
    IpPermission(a.protocol, a.fromPort, a.toPort,
                 if a.peer.V4? then [a.peer] else [], if a.peer.V6? then [a.peer] else [],
                 if a.peer.Pair? then [a.peer] else [])
  }

  function Singles(atoms: seq<Atom>): seq<IpPermission> {
    seq(|atoms|, i requires 0 <= i < |atoms| => Single(atoms[i]))
  }

  /** The permissions of one loop over peers of one kind. */
  method SeparatePeers(p: IpPermission, peers: seq<Remote>) returns (out: seq<IpPermission>)
    ensures |out| == |peers| && forall i :: 0 <= i < |peers| ==> out[i] == Single(AtomFor(p, peers[i]))
  {
    out := [];
    for i := 0 to |peers|
      invariant |out| == i && forall j :: 0 <= j < i ==> out[j] == Single(AtomFor(p, peers[j]))
    {
      var single := IpPermission(ProtocolNumber(p.protocol), p.fromPort, p.toPort, [], [], []);
      match peers[i] {
        case V4(_, _) => single := single.(v4 := [peers[i]]);
        case V6(_, _) => single := single.(v6 := [peers[i]]);
        case Pair(_, _) => single := single.(groups := [peers[i]]);
      }
      out := out + [single];
    }
  }

  method Separate(p: IpPermission) returns (out: seq<IpPermission>)
    ensures out == Singles(AtomsOf(p))
  {
    var a := SeparatePeers(p, p.v4);
    var b := SeparatePeers(p, p.v6);
    var c := SeparatePeers(p, p.groups);
    out := a + b + c;
    assert p.v4 + p.v6 + p.groups == p.v4 + (p.v6 + p.groups);
  }

  lemma SinglesAppend(a: seq<Atom>, b: seq<Atom>)
    ensures Singles(a + b) == Singles(a) + Singles(b)
  {
  }

  /** Separates every peer of a permission into a permission of its own. */
  method NormalizeIpPermissions(ps: seq<IpPermission>) returns (out: seq<IpPermission>)
    ensures out == Singles(Atoms(ps))
  {
    out := [];
    for n := 0 to |ps|
      invariant out == Singles(Atoms(ps[..n]))
    {
      assert ps[..n + 1][..n] == ps[..n];
      SinglesAppend(Atoms(ps[..n]), AtomsOf(ps[n]));
      var singles := Separate(ps[n]);
      out := out + singles;
    }
    assert ps[..|ps|] == ps;
  }

  predicate Numbered(a: Atom) {
    ProtocolNumber(a.protocol) == a.protocol
  }

  lemma {:induction false} AtomsNumbered(ps: seq<IpPermission>)
    ensures forall a <- Atoms(ps) :: Numbered(a)
  {
    if ps != [] {
      var last := AtomsOf(ps[|ps| - 1]);
      assert forall i :: 0 <= i < |last| ==> Numbered(last[i]);
      AtomsNumbered(ps[..|ps| - 1]);
    }
  }

  lemma AtomsOfSingle(a: Atom)
    requires Numbered(a)
    ensures AtomsOf(Single(a)) == [a]
  {
    var p := Single(a);
    assert p.v4 + p.v6 + p.groups == [a.peer];
    assert AtomsOf(p)[0] == a;
  }

  lemma {:induction false} AtomsOfSingles(atoms: seq<Atom>)
    requires forall a <- atoms :: Numbered(a)
    ensures Atoms(Singles(atoms)) == atoms
  {
    if atoms != [] {
      var init, last := atoms[..|atoms| - 1], atoms[|atoms| - 1];
      AtomsOfSingles(init);
      assert Singles(atoms)[..|init|] == Singles(init);
      AtomsOfSingle(last);
      assert atoms == init + [last];
    }
  }

  /** Normalization keeps what is allowed, peer by peer and in order, and does nothing a second time. */
  lemma NormalizationPreservesMeaning(ps: seq<IpPermission>)
    ensures Atoms(Singles(Atoms(ps))) == Atoms(ps)
    ensures Singles(Atoms(Singles(Atoms(ps)))) == Singles(Atoms(ps))
  {
    AtomsNumbered(ps);
    AtomsOfSingles(Atoms(ps));
  }

  // ---------------------------------------------------------------------------------------------
  // Dropping what is already there
  // ---------------------------------------------------------------------------------------------

  /** Moves an entry to the end of the kept ones. */
  method MoveTo(local: array<IpPermission>, n: nat, i: nat)
    requires n <= i < local.Length
    modifies local
    ensures local[..n + 1] == old(local[..n]) + [old(local[i])]
    ensures forall j :: i < j < local.Length ==> local[j] == old(local[j])
  {
    local[n] := local[i];
  }

  /**
   * Compacts `local` in place: its first `n` entries become the multiset difference of the two lists, in
   * the original order; matched cloud entries are cleared. `have` are the permissions of the cloud.
   */
  method DedupIpPermissions(local: array<IpPermission>, cloud: array<Option<IpPermission>>, ghost have: multiset<IpPermission>)
    returns (n: nat)
    requires Left(cloud[..], have, multiset{})
    modifies local, cloud
    ensures n <= local.Length && local[..n] == Unmatched(old(local[..]), have)
  {
    n := 0;
    ghost var all := local[..];
    for i := 0 to local.Length
      invariant 0 <= n <= i
      invariant local[..n] == Unmatched(all[..i], have)
      invariant forall j :: i <= j < local.Length ==> local[j] == all[j]
      invariant Left(cloud[..], have, multiset(all[..i]))
    {
      ghost var before := local[..];
      UnmatchedNext(all, i, have);
      var found := Use(local[i], cloud, have, multiset(all[..i]));
      assert local[..] == before;
      if !found {
        MoveTo(local, n, i);
        n := n + 1;
      }
    }
    assert all[..local.Length] == all;
  }
}
