/**
 * What a group event makes of the members: each VPC's group ends with the members it had, without those
 * removed and with those added, and the cloud is told.
 */
module GroupMemberProofs {
  import opened Wrappers
  import opened GroupLifecycle
  import opened GroupNameProofs

  predicate Once(vs: seq<Vpc>) {
    forall i, j :: 0 <= i < j < |vs| ==> vs[i] != vs[j]
  }

  /** How many calls of a kind are in flight for an object. */
  function CallsFor(fs: seq<Flight>, id: nat, call: Call): nat {
    if fs == [] then 0 else CallsFor(fs[..|fs| - 1], id, call) + if fs[|fs| - 1] == Flight(id, call) then 1 else 0
  }

  /** The calls in flight for an object are those before, and one more of the given kind if there is one. */
  ghost predicate Issued(c: Ctl, d: Ctl, id: nat, more: Option<Call>) {
    forall call :: CallsFor(d.flight, id, call) == CallsFor(c.flight, id, call) + if more == Some(call) then 1 else 0
  }

  /** What events and routines never change. */
  predicate SameWorld(c: Ctl, d: Ctl) {
    && d.membershipOnly == c.membershipOnly && d.synced == c.synced && d.vpcs == c.vpcs && d.vpcOf == c.vpcOf
    && |d.sgs| >= |c.sgs|
  }

  /** Nothing happened in the VPC, and nothing was issued for objects yet to come. */
  ghost predicate Untouched(c: Ctl, d: Ctl, v: Vpc) {
    && SameWorld(c, d) && SameAt(c, d, v)
    && (Lookup(c, v).Some? ==> Issued(c, d, Lookup(c, v).value, None))
    && forall q: nat :: q >= |d.sgs| ==> Issued(c, d, q, None)
  }

  lemma UntouchedThen(c: Ctl, d: Ctl, e: Ctl, v: Vpc)
    requires Untouched(c, d, v) && Untouched(d, e, v)
    ensures Untouched(c, e, v)
  {
    if Lookup(c, v).Some? { IssuedThen(c, d, e, Lookup(c, v).value, None); }
    forall q: nat | q >= |e.sgs| ensures Issued(c, e, q, None) {
      assert Issued(c, d, q, None) && Issued(d, e, q, None);
      IssuedThen(c, d, e, q, None);
    }
  }

  lemma IssuedThen(c: Ctl, d: Ctl, e: Ctl, id: nat, more: Option<Call>)
    requires (Issued(c, d, id, None) && Issued(d, e, id, more)) || (Issued(c, d, id, more) && Issued(d, e, id, None))
    ensures Issued(c, e, id, more)
  {
  }

  lemma IssueIssues(c: Ctl, id: nat, call: Call, q: nat)
    ensures Issued(c, Issue(c, id, call), q, if q == id then Some(call) else None)
  {
    var d := Issue(c, id, call);
    assert d.flight[..|c.flight|] == c.flight;
  }

  lemma SetIssues(c: Ctl, id: nat, s: Sg, q: nat)
    ensures Issued(c, Set(c, id, s), q, None)
  {
  }

  // ---------------------------------------------------------------------------------------------
  // One object
  // ---------------------------------------------------------------------------------------------

  /** A group that tells the cloud of new members. */
  predicate Tells(s: Sg) {
    s.state == Created && s.retryOp.None?
  }

  function TellCall(s: Sg): Option<Call> {
    if Tells(s) then Some(SetMembers) else None
  }

  /** The members of an object change, and nothing else of it. */
  lemma UpdateHere(c: Ctl, id: nat, added: set<Member>, removed: set<Member>)
    requires id < |c.sgs| && (added != {} || removed != {})
    ensures var (d, s) := (UpdateImpl(c, id, added, removed), At(c, id));
            && At(d, id) == s.(members := s.members - removed + added) && Issued(c, d, id, TellCall(s))
            && d.indexer == c.indexer && SameWorld(c, d) && |d.sgs| == |c.sgs|
  {
    var s := At(c, id);
    var t := s.(members := s.members - removed + added);
    var c1 := Set(c, id, t);
    SetIssues(c, id, t, id);
    if Tells(s) {
      assert Record(t, SetMembers) == t;
      IssueIssues(c1, id, SetMembers, id);
      IssuedThen(c, c1, Issue(c1, id, SetMembers), id, Some(SetMembers));
    }
  }

  lemma UpdateOther(c: Ctl, id: nat, added: set<Member>, removed: set<Member>, q: nat)
    requires q != id
    ensures Issued(c, UpdateImpl(c, id, added, removed), q, None)
  {
    var t := At(c, id).(members := At(c, id).members - removed + added);
    var c1 := Set(c, id, t);
    SetIssues(c, id, t, q);
    IssueIssues(c1, id, SetMembers, q);
    IssuedThen(c, c1, Issue(c1, id, SetMembers), q, None);
  }

  lemma UpdateElsewhere(c: Ctl, w: Vpc, added: set<Member>, removed: set<Member>, v: Vpc)
    requires Lookup(c, w).Some? && v != w
    ensures Untouched(c, UpdateImpl(c, Lookup(c, w).value, added, removed), v)
  {
    var id := Lookup(c, w).value;
    UpdateSame(c, id, added, removed, v);
    UpdateWorld(c, id, added, removed);
    if Lookup(c, v).Some? { UpdateOther(c, id, added, removed, Lookup(c, v).value); }
    UpdateCallsNoOther(c, id, added, removed);
  }

  lemma {:induction false} UpdateWorld(c: Ctl, id: nat, added: set<Member>, removed: set<Member>)
    ensures SameWorld(c, UpdateImpl(c, id, added, removed)) && |UpdateImpl(c, id, added, removed).sgs| == |c.sgs|
  {
    var s := At(c, id);
    var d := Set(c, id, s.(members := s.members - removed + added));
    assert SameWorld(c, d);
    assert SameWorld(d, Issue(d, id, SetMembers));
  }

  lemma UpdateCallsNoOther(c: Ctl, id: nat, added: set<Member>, removed: set<Member>)
    requires id < |c.sgs|
    ensures forall q: nat :: q >= |c.sgs| ==> Issued(c, UpdateImpl(c, id, added, removed), q, None)
  {
    forall q: nat | q >= |c.sgs| ensures Issued(c, UpdateImpl(c, id, added, removed), q, None) {
      UpdateOther(c, id, added, removed, q);
    }
  }

  lemma UpdateSame(c: Ctl, id: nat, added: set<Member>, removed: set<Member>, v: Vpc)
    requires At(c, id).vpc != v
    ensures SameAt(c, UpdateImpl(c, id, added, removed), v)
  {
    var s := At(c, id);
    var t := s.(members := s.members - removed + added);
    SetElsewhere(c, id, t, v);
    var c1 := Set(c, id, t);
    SetElsewhere(c1, id, Record(At(c1, id), SetMembers), v);
  }

  /** A new group as it is once it was added. */
  function Fresh(c: Ctl, v: Vpc, ms: set<Member>): Sg {
    if c.synced then NewSg(v, ms).(status := InProgress) else NewSg(v, ms)
  }

  function CreateCall(c: Ctl): Option<Call> {
    if c.synced then Some(Create) else None
  }

  lemma NewHere(c: Ctl, v: Vpc, ms: set<Member>)
    ensures var (d, id) := (AddImpl(NewGroup(c, v, ms), |c.sgs|), |c.sgs|);
            && Lookup(d, v) == Some(id) && At(d, id) == Fresh(c, v, ms) && Issued(c, d, id, CreateCall(c))
            && SameWorld(c, d) && |d.sgs| == |c.sgs| + 1
  {
    var c1 := NewGroup(c, v, ms);
    var id := |c.sgs|;
    var c2 := c1.(indexer := Filed(c1, id));
    assert At(c2, id) == NewSg(v, ms);
    if c.synced {
      var s := NewSg(v, ms).(status := InProgress);
      assert Record(s, Create) == s;
      IssueIssues(Set(c2, id, s), id, Create, id);
    }
  }

  lemma NewOther(c: Ctl, w: Vpc, ms: set<Member>, q: nat)
    requires q != |c.sgs|
    ensures Issued(c, AddImpl(NewGroup(c, w, ms), |c.sgs|), q, None)
    ensures At(AddImpl(NewGroup(c, w, ms), |c.sgs|), q) == At(c, q)
  {
    var c1 := NewGroup(c, w, ms);
    var id := |c.sgs|;
    var c2 := c1.(indexer := Filed(c1, id));
    assert At(c1, id) == NewSg(w, ms) && At(c1, q) == At(c, q);
    IssueIssues(Set(c2, id, NewSg(w, ms).(status := InProgress)), id, Create, q);
  }

  lemma NewElsewhere(c: Ctl, w: Vpc, ms: set<Member>, v: Vpc)
    requires v != w
    ensures Untouched(c, AddImpl(NewGroup(c, w, ms), |c.sgs|), v)
  {
    var d := AddImpl(NewGroup(c, w, ms), |c.sgs|);
    NewHere(c, w, ms);
    assert d.indexer == c.indexer[w := |c.sgs|];
    if v in c.indexer && c.indexer[v] < |c.sgs| { NewOther(c, w, ms, c.indexer[v]); }
    if Lookup(c, v).Some? { NewOther(c, w, ms, Lookup(c, v).value); }
    forall q: nat | q >= |d.sgs| ensures Issued(c, d, q, None) { NewOther(c, w, ms, q); }
  }

  // ---------------------------------------------------------------------------------------------
  // The pass that adds
  // ---------------------------------------------------------------------------------------------

  /** The object under the VPC became `s`, and the given call was issued for it. */
  ghost predicate Became(c: Ctl, d: Ctl, v: Vpc, id: nat, s: Sg, more: Option<Call>) {
    && SameWorld(c, d) && Lookup(d, v) == Some(id) && At(d, id) == s && Issued(c, d, id, more)
    && forall q: nat :: q >= |d.sgs| ==> Issued(c, d, q, None)
  }

  lemma UntouchedBecame(c: Ctl, d: Ctl, e: Ctl, v: Vpc, id: nat, s: Sg, more: Option<Call>)
    requires Untouched(c, d, v) && Became(d, e, v, id, s, more) && (Lookup(c, v) == Some(id) || id >= |d.sgs|)
    ensures Became(c, e, v, id, s, more)
  {
    IssuedThen(c, d, e, id, more);
    forall q: nat | q >= |e.sgs| ensures Issued(c, e, q, None) {
      assert Issued(c, d, q, None) && Issued(d, e, q, None);
      IssuedThen(c, d, e, q, None);
    }
  }

  lemma BecameUntouched(c: Ctl, d: Ctl, e: Ctl, v: Vpc, id: nat, s: Sg, more: Option<Call>)
    requires Became(c, d, v, id, s, more) && Untouched(d, e, v)
    ensures Became(c, e, v, id, s, more)
  {
    IssuedThen(c, d, e, id, more);
    forall q: nat | q >= |e.sgs| ensures Issued(c, e, q, None) {
      assert Issued(c, d, q, None) && Issued(d, e, q, None);
      IssuedThen(c, d, e, q, None);
    }
  }

  /** One round of the pass. */
  function AddOne(c: Ctl, w: Vpc, added: set<Member>, removed: set<Member>, left: set<Vpc>): (Ctl, set<Vpc>) {
    var ms := InVpc(c, added, w);
    if ms == {} then (c, left)
    else if Lookup(c, w).None? then (AddImpl(NewGroup(c, w, ms), |c.sgs|), left)
    else if At(c, Lookup(c, w).value).members == ms then (c, left)
    else (UpdateImpl(c, Lookup(c, w).value, ms, InVpc(c, removed, w)), left - {w})
  }

  lemma AddPassNext(c: Ctl, vs: seq<Vpc>, added: set<Member>, removed: set<Member>, left: set<Vpc>)
    requires vs != []
    ensures var one := AddOne(c, vs[0], added, removed, left);
            AddPass(c, vs, added, removed, left) == AddPass(one.0, vs[1..], added, removed, one.1)
  {
  }

  /** The added members are those the group has already, or there are none. */
  predicate NothingNew(c: Ctl, v: Vpc, added: set<Member>) {
    InVpc(c, added, v) == {} || (Lookup(c, v).Some? && At(c, Lookup(c, v).value).members == InVpc(c, added, v))
  }

  /** What the pass leaves in the VPC. */
  ghost predicate AddOutcome(c: Ctl, d: Ctl, v: Vpc, added: set<Member>, removed: set<Member>, left: set<Vpc>, rest: set<Vpc>) {
    var ms := InVpc(c, added, v);
    if NothingNew(c, v, added) then Untouched(c, d, v) && (v in rest <==> v in left)
    else if Lookup(c, v).None? then
      && (v in rest <==> v in left) && Lookup(d, v).Some? && Lookup(d, v).value >= |c.sgs|
      && Became(c, d, v, Lookup(d, v).value, Fresh(c, v, ms), CreateCall(c))
    else
      var (id, s) := (Lookup(c, v).value, At(c, Lookup(c, v).value));
      v !in rest && Became(c, d, v, id, s.(members := s.members - InVpc(c, removed, v) + ms), TellCall(s))
  }

  lemma AddOneHere(c: Ctl, v: Vpc, added: set<Member>, removed: set<Member>, left: set<Vpc>)
    ensures var one := AddOne(c, v, added, removed, left);
            AddOutcome(c, one.0, v, added, removed, left, one.1)
  {
    var ms := InVpc(c, added, v);
    if NothingNew(c, v, added) {
    } else if Lookup(c, v).None? {
      NewHere(c, v, ms);
      var d := AddImpl(NewGroup(c, v, ms), |c.sgs|);
      forall q: nat | q >= |d.sgs| ensures Issued(c, d, q, None) { NewOther(c, v, ms, q); }
    } else {
      var (id, rs) := (Lookup(c, v).value, InVpc(c, removed, v));
      UpdateHere(c, id, ms, rs);
      var d := UpdateImpl(c, id, ms, rs);
      forall q: nat | q >= |d.sgs| ensures Issued(c, d, q, None) { UpdateOther(c, id, ms, rs, q); }
    }
  }

  lemma AddOneElsewhere(c: Ctl, w: Vpc, added: set<Member>, removed: set<Member>, left: set<Vpc>, v: Vpc)
    requires v != w
    ensures var one := AddOne(c, w, added, removed, left);
            Untouched(c, one.0, v) && (v in one.1 <==> v in left)
  {
    var ms := InVpc(c, added, w);
    if NothingNew(c, w, added) {
    } else if Lookup(c, w).None? {
      NewElsewhere(c, w, ms, v);
    } else {
      UpdateElsewhere(c, w, ms, InVpc(c, removed, w), v);
    }
  }

  lemma {:induction false} AddPassElsewhere(c: Ctl, vs: seq<Vpc>, added: set<Member>, removed: set<Member>,
                                            left: set<Vpc>, v: Vpc)
    requires v !in vs
    ensures var pass := AddPass(c, vs, added, removed, left);
            Untouched(c, pass.0, v) && (v in pass.1 <==> v in left)
    decreases vs
  {
    if vs != [] {
      var one := AddOne(c, vs[0], added, removed, left);
      AddPassNext(c, vs, added, removed, left);
      AddOneElsewhere(c, vs[0], added, removed, left, v);
      AddPassElsewhere(one.0, vs[1..], added, removed, one.1, v);
      UntouchedThen(c, one.0, AddPass(c, vs, added, removed, left).0, v);
    }
  }

  lemma OutcomeLater(c: Ctl, d: Ctl, e: Ctl, v: Vpc, added: set<Member>, removed: set<Member>, left: set<Vpc>,
                     mid: set<Vpc>, rest: set<Vpc>)
    requires Untouched(c, d, v) && (v in mid <==> v in left) && AddOutcome(d, e, v, added, removed, mid, rest)
    ensures AddOutcome(c, e, v, added, removed, left, rest)
  {
    var ms := InVpc(c, added, v);
    assert InVpc(d, added, v) == ms && InVpc(d, removed, v) == InVpc(c, removed, v);
    assert NothingNew(d, v, added) <==> NothingNew(c, v, added);
    if NothingNew(c, v, added) {
      UntouchedThen(c, d, e, v);
    } else if Lookup(c, v).None? {
      UntouchedBecame(c, d, e, v, Lookup(e, v).value, Fresh(c, v, ms), CreateCall(c));
    } else {
      var s := At(c, Lookup(c, v).value);
      UntouchedBecame(c, d, e, v, Lookup(c, v).value, s.(members := s.members - InVpc(c, removed, v) + ms), TellCall(s));
    }
  }

  lemma OutcomeStays(c: Ctl, d: Ctl, e: Ctl, v: Vpc, added: set<Member>, removed: set<Member>, left: set<Vpc>,
                     mid: set<Vpc>, rest: set<Vpc>)
    requires AddOutcome(c, d, v, added, removed, left, mid) && Untouched(d, e, v) && (v in rest <==> v in mid)
    ensures AddOutcome(c, e, v, added, removed, left, rest)
  {
    var ms := InVpc(c, added, v);
    if NothingNew(c, v, added) {
      UntouchedThen(c, d, e, v);
    } else if Lookup(c, v).None? {
      BecameUntouched(c, d, e, v, Lookup(d, v).value, Fresh(c, v, ms), CreateCall(c));
    } else {
      var s := At(c, Lookup(c, v).value);
      BecameUntouched(c, d, e, v, Lookup(c, v).value, s.(members := s.members - InVpc(c, removed, v) + ms), TellCall(s));
    }
  }

  lemma {:induction false} AddPassHere(c: Ctl, vs: seq<Vpc>, added: set<Member>, removed: set<Member>, left: set<Vpc>, v: Vpc)
    requires v in vs && Once(vs)
    ensures var pass := AddPass(c, vs, added, removed, left);
            AddOutcome(c, pass.0, v, added, removed, left, pass.1)
    decreases vs
  {
    var one := AddOne(c, vs[0], added, removed, left);
    var pass := AddPass(c, vs, added, removed, left);
    AddPassNext(c, vs, added, removed, left);
    if vs[0] == v {
      AddOneHere(c, v, added, removed, left);
      assert v !in vs[1..];
      AddPassElsewhere(one.0, vs[1..], added, removed, one.1, v);
      OutcomeStays(c, one.0, pass.0, v, added, removed, left, one.1, pass.1);
    } else {
      AddOneElsewhere(c, vs[0], added, removed, left, v);
      assert v in vs[1..];
      AddPassHere(one.0, vs[1..], added, removed, one.1, v);
      OutcomeLater(c, one.0, pass.0, v, added, removed, left, one.1, pass.1);
    }
  }

  // ---------------------------------------------------------------------------------------------
  // The pass that removes
  // ---------------------------------------------------------------------------------------------

  function RemoveOne(c: Ctl, w: Vpc, removed: set<Member>, left: set<Vpc>): Ctl {
    if InVpc(c, removed, w) == {} || w !in left || Lookup(c, w).None? then c
    else UpdateImpl(c, Lookup(c, w).value, {}, InVpc(c, removed, w))
  }

  lemma RemovePassNext(c: Ctl, vs: seq<Vpc>, removed: set<Member>, left: set<Vpc>)
    requires vs != []
    ensures RemovePass(c, vs, removed, left) == RemovePass(RemoveOne(c, vs[0], removed, left), vs[1..], removed, left)
  {
  }

  ghost predicate RemoveOutcome(c: Ctl, d: Ctl, v: Vpc, removed: set<Member>, left: set<Vpc>) {
    var rs := InVpc(c, removed, v);
    if rs == {} || v !in left || Lookup(c, v).None? then Untouched(c, d, v)
    else
      var (id, s) := (Lookup(c, v).value, At(c, Lookup(c, v).value));
      Became(c, d, v, id, s.(members := s.members - rs), TellCall(s))
  }

  lemma RemoveOneHere(c: Ctl, v: Vpc, removed: set<Member>, left: set<Vpc>)
    ensures RemoveOutcome(c, RemoveOne(c, v, removed, left), v, removed, left)
  {
    var rs := InVpc(c, removed, v);
    if !(rs == {} || v !in left || Lookup(c, v).None?) {
      var (id, s) := (Lookup(c, v).value, At(c, Lookup(c, v).value));
      UpdateHere(c, id, {}, rs);
      assert s.members - rs + {} == s.members - rs;
      var d := UpdateImpl(c, id, {}, rs);
      forall q: nat | q >= |d.sgs| ensures Issued(c, d, q, None) { UpdateOther(c, id, {}, rs, q); }
    }
  }

  lemma RemoveOneElsewhere(c: Ctl, w: Vpc, removed: set<Member>, left: set<Vpc>, v: Vpc)
    requires v != w
    ensures Untouched(c, RemoveOne(c, w, removed, left), v)
  {
    if Lookup(c, w).Some? { UpdateElsewhere(c, w, {}, InVpc(c, removed, w), v); }
  }

  lemma {:induction false} RemovePassElsewhere(c: Ctl, vs: seq<Vpc>, removed: set<Member>, left: set<Vpc>, v: Vpc)
    requires v !in vs
    ensures Untouched(c, RemovePass(c, vs, removed, left), v)
    decreases vs
  {
    if vs != [] {
      var d := RemoveOne(c, vs[0], removed, left);
      RemovePassNext(c, vs, removed, left);
      RemoveOneElsewhere(c, vs[0], removed, left, v);
      RemovePassElsewhere(d, vs[1..], removed, left, v);
      UntouchedThen(c, d, RemovePass(c, vs, removed, left), v);
    }
  }

  lemma RemoveLater(c: Ctl, d: Ctl, e: Ctl, v: Vpc, removed: set<Member>, left: set<Vpc>)
    requires Untouched(c, d, v) && RemoveOutcome(d, e, v, removed, left)
    ensures RemoveOutcome(c, e, v, removed, left)
  {
    var rs := InVpc(c, removed, v);
    assert InVpc(d, removed, v) == rs;
    if rs == {} || v !in left || Lookup(c, v).None? {
      UntouchedThen(c, d, e, v);
    } else {
      var s := At(c, Lookup(c, v).value);
      UntouchedBecame(c, d, e, v, Lookup(c, v).value, s.(members := s.members - rs), TellCall(s));
    }
  }

  lemma RemoveStays(c: Ctl, d: Ctl, e: Ctl, v: Vpc, removed: set<Member>, left: set<Vpc>)
    requires RemoveOutcome(c, d, v, removed, left) && Untouched(d, e, v)
    ensures RemoveOutcome(c, e, v, removed, left)
  {
    var rs := InVpc(c, removed, v);
    if rs == {} || v !in left || Lookup(c, v).None? {
      UntouchedThen(c, d, e, v);
    } else {
      var s := At(c, Lookup(c, v).value);
      BecameUntouched(c, d, e, v, Lookup(c, v).value, s.(members := s.members - rs), TellCall(s));
    }
  }

  lemma {:induction false} RemovePassHere(c: Ctl, vs: seq<Vpc>, removed: set<Member>, left: set<Vpc>, v: Vpc)
    requires v in vs && Once(vs)
    ensures RemoveOutcome(c, RemovePass(c, vs, removed, left), v, removed, left)
    decreases vs
  {
    var d := RemoveOne(c, vs[0], removed, left);
    var e := RemovePass(c, vs, removed, left);
    RemovePassNext(c, vs, removed, left);
    if vs[0] == v {
      RemoveOneHere(c, v, removed, left);
      assert v !in vs[1..];
      RemovePassElsewhere(d, vs[1..], removed, left, v);
      RemoveStays(c, d, e, v, removed, left);
    } else {
      RemoveOneElsewhere(c, vs[0], removed, left, v);
      assert v in vs[1..];
      RemovePassHere(d, vs[1..], removed, left, v);
      RemoveLater(c, d, e, v, removed, left);
    }
  }

  // ---------------------------------------------------------------------------------------------
  // A group event
  // ---------------------------------------------------------------------------------------------

  function AddsOf(e: GroupEvent): set<Member> {
    if e.Deleted? then {} else e.added
  }

  function RemovesOf(e: GroupEvent): set<Member> {
    if e.Modified? then e.removed else {}
  }

  function MembersAt(c: Ctl, v: Vpc): set<Member> {
    if Lookup(c, v).Some? then At(c, Lookup(c, v).value).members else {}
  }

  /** The cloud is told of the change. */
  predicate HasNews(s: Sg, ms: set<Member>, rs: set<Member>) {
    s.state == Created && s.retryOp.None? && (rs != {} || (ms != {} && ms != s.members))
  }

  /**
   * The group of the VPC has the members it had, without those removed and with those added, and is otherwise
   * as it was; the cloud is told of a change to a group it has, unless something is being retried. Where there
   * was no group the added members make one, which is created in the cloud once the controller is in sync.
   */
  ghost predicate Follows(c: Ctl, d: Ctl, v: Vpc, added: set<Member>, removed: set<Member>) {
    var (ms, rs) := (InVpc(c, added, v), InVpc(c, removed, v));
    if Lookup(c, v).Some? then
      var (id, s) := (Lookup(c, v).value, At(c, Lookup(c, v).value));
      && Lookup(d, v) == Some(id) && At(d, id) == s.(members := s.members - rs + ms)
      && Issued(c, d, id, if HasNews(s, ms, rs) then Some(SetMembers) else None)
    else if ms == {} then Lookup(d, v).None?
    else
      && Lookup(d, v).Some? && Lookup(d, v).value >= |c.sgs|
      && At(d, Lookup(d, v).value).members == ms && At(d, Lookup(d, v).value).state == Init
      && Issued(c, d, Lookup(d, v).value, if c.synced then Some(Create) else None)
  }

  /** The members both passes leave, whatever is both added and removed. */
  function Left(c: Ctl, v: Vpc, ms: set<Member>, rs: set<Member>): set<Member> {
    if Lookup(c, v).Some? && ms != {} && MembersAt(c, v) != ms then MembersAt(c, v) - rs + ms
    else if Lookup(c, v).Some? then MembersAt(c, v) - rs
    else ms - rs
  }

  lemma BothPassesNew(c: Ctl, d: Ctl, e: Ctl, v: Vpc, added: set<Member>, removed: set<Member>, left: set<Vpc>, rest: set<Vpc>)
    requires AddOutcome(c, d, v, added, removed, left, rest) && v in left && RemoveOutcome(d, e, v, removed, rest)
    requires Lookup(c, v).None?
    ensures MembersAt(e, v) == Left(c, v, InVpc(c, added, v), InVpc(c, removed, v))
    ensures InVpc(c, added, v) !! InVpc(c, removed, v) ==> Follows(c, e, v, added, removed)
  {
    var (ms, rs) := (InVpc(c, added, v), InVpc(c, removed, v));
    assert InVpc(d, removed, v) == rs;
    if ms != {} {
      var (id, s) := (Lookup(d, v).value, Fresh(c, v, ms));
      if rs == {} {
        BecameUntouched(c, d, e, v, id, s, CreateCall(c));
      } else {
        assert TellCall(s) == None;
        IssuedThen(c, d, e, id, CreateCall(c));
      }
      if ms !! rs { assert ms - rs == ms; }
    }
  }

  lemma BothPassesHere(c: Ctl, d: Ctl, e: Ctl, v: Vpc, added: set<Member>, removed: set<Member>, left: set<Vpc>, rest: set<Vpc>)
    requires AddOutcome(c, d, v, added, removed, left, rest) && v in left && RemoveOutcome(d, e, v, removed, rest)
    requires Lookup(c, v).Some?
    ensures MembersAt(e, v) == Left(c, v, InVpc(c, added, v), InVpc(c, removed, v))
    ensures InVpc(c, added, v) !! InVpc(c, removed, v) ==> Follows(c, e, v, added, removed)
  {
    var (ms, rs) := (InVpc(c, added, v), InVpc(c, removed, v));
    var (id, s) := (Lookup(c, v).value, At(c, Lookup(c, v).value));
    assert InVpc(d, removed, v) == rs;
    if NothingNew(c, v, added) {
      if rs == {} {
        UntouchedThen(c, d, e, v);
        assert s == s.(members := s.members - rs + ms);
      } else {
        IssuedThen(c, d, e, id, TellCall(s));
        if ms !! rs { assert s.members - rs == s.members - rs + ms; }
      }
    } else {
      BecameUntouched(c, d, e, v, id, s.(members := s.members - rs + ms), TellCall(s));
    }
  }

  lemma ApplyFollows(c: Ctl, added: set<Member>, removed: set<Member>, v: Vpc)
    requires v in c.vpcs && Once(c.vpcs)
    ensures var d := ApplyMembers(c, added, removed);
            && MembersAt(d, v) == Left(c, v, InVpc(c, added, v), InVpc(c, removed, v))
            && (InVpc(c, added, v) !! InVpc(c, removed, v) ==> Follows(c, d, v, added, removed))
  {
    var left := set w <- c.vpcs;
    var pass := AddPass(c, c.vpcs, added, removed, left);
    AddPassHere(c, c.vpcs, added, removed, left, v);
    RemovePassHere(pass.0, c.vpcs, removed, pass.1, v);
    var e := RemovePass(pass.0, c.vpcs, removed, pass.1);
    if Lookup(c, v).None? {
      BothPassesNew(c, pass.0, e, v, added, removed, left, pass.1);
    } else {
      BothPassesHere(c, pass.0, e, v, added, removed, left, pass.1);
    }
  }

  /** A group event, not deferred and with all machines known, is followed in every VPC. */
  lemma EventIsFollowed(c: Ctl, e: GroupEvent, env: Env, v: Vpc)
    requires c.pend.None? && Once(c.vpcs) && v in c.vpcs && !e.Deleted? && AllFound(c, AddsOf(e))
    requires InVpc(c, AddsOf(e), v) !! InVpc(c, RemovesOf(e), v)
    ensures Follows(c, ProcessGroup(c, e, env), v, AddsOf(e), RemovesOf(e))
    ensures MembersAt(ProcessGroup(c, e, env), v) == MembersAt(c, v) - InVpc(c, RemovesOf(e), v) + InVpc(c, AddsOf(e), v)
  {
    ApplyFollows(c, AddsOf(e), RemovesOf(e), v);
  }

  /**
   * Whatever the event lists, the members come out as removed first and added then, exactly unless a member is
   * both added and removed and the group is new, or has the added members already: then it ends up removed.
   */
  lemma MembersMergeExactly(c: Ctl, e: GroupEvent, env: Env, v: Vpc)
    requires c.pend.None? && Once(c.vpcs) && v in c.vpcs && !e.Deleted? && AllFound(c, AddsOf(e))
    ensures var (ms, rs) := (InVpc(c, AddsOf(e), v), InVpc(c, RemovesOf(e), v));
            MembersAt(ProcessGroup(c, e, env), v) == MembersAt(c, v) - rs + ms <==>
            ms !! rs || (Lookup(c, v).Some? && MembersAt(c, v) != ms)
  {
    ApplyFollows(c, AddsOf(e), RemovesOf(e), v);
    MergeDecides(Lookup(c, v).Some?, MembersAt(c, v), InVpc(c, AddsOf(e), v), InVpc(c, RemovesOf(e), v));
  }

  lemma MergeDecides(there: bool, had: set<Member>, ms: set<Member>, rs: set<Member>)
    requires there || had == {}
    ensures var left := if there && ms != {} && had != ms then had - rs + ms else if there then had - rs else ms - rs;
            left == had - rs + ms <==> ms !! rs || (there && had != ms)
  {
    if ms !! rs {
      forall m <- ms ensures m in ms - rs { assert m !in rs; }
      assert ms - rs == ms;
    }
    var left := if there && ms != {} && had != ms then had - rs + ms else if there then had - rs else ms - rs;
    if left == had - rs + ms && !(there && had != ms) {
      forall m <- ms ensures m !in rs { assert m in left; }
    }
  }

  /** A member that its first event both adds and removes ends up in no group. */
  lemma NewMemberVanishes()
    ensures MembersAt(Step(Start(false, true, [1], map[7 := 1]), Group(Modified({7}, {7}), Env({}, {}))), 1) == {}
  {
    var c := Start(false, true, [1], map[7 := 1]);
    assert InVpc(c, {7}, 1) == {7};
    ApplyFollows(c, {7}, {7}, 1);
  }

  /** An event that is put off, because a machine is not known yet, changes nothing. */
  lemma UnknownMembersWait(c: Ctl, e: GroupEvent, env: Env)
    requires c.pend.None? && !e.Deleted? && !AllFound(c, AddsOf(e))
    ensures ProcessGroup(c, e, env) == c
  {
  }

  /** When deferred events are replayed, they are followed like one event that adds what they leave in an empty group. */
  lemma ReplayIsFollowed(c: Ctl, moreOps: bool, v: Vpc)
    requires c.pend.Some? && Faithful(c.pend) && c.pend.value.refCnt <= 1 && !moreOps && Fold(c.pend.value.hist) != {}
    requires Once(c.vpcs) && v in c.vpcs && AllFound(c, Fold(c.pend.value.hist))
    ensures Follows(c, PendingDeleteAnswered(c, moreOps), v, Fold(c.pend.value.hist), {})
    ensures Lookup(c, v).None? ==>
            MembersAt(PendingDeleteAnswered(c, moreOps), v) == InVpc(c, Fold(c.pend.value.hist), v)
  {
    var p := Uncount(c.pend.value, moreOps);
    var d := c.(pend := None, replays := c.replays + [Replay(p.added, p.hist, DeletesIn(c.flight))]);
    EventIsFollowed(d, Added(p.added), Env({}, {}), v);
    assert Follows(d, ReplayItem(c, p), v, p.added, {});
    SameSlots(c, d, ReplayItem(c, p), v, p.added);
  }

  lemma SameSlots(c: Ctl, d: Ctl, e: Ctl, v: Vpc, added: set<Member>)
    requires d == c.(pend := d.pend, replays := d.replays) && Follows(d, e, v, added, {})
    ensures Follows(c, e, v, added, {})
    ensures Lookup(c, v).None? ==> MembersAt(e, v) == InVpc(c, added, v)
  {
    assert Lookup(c, v) == Lookup(d, v) && InVpc(c, added, v) == InVpc(d, added, v);
  }
}
