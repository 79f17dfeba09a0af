/**
 * Which security groups the network interfaces of a VPC carry on AWS. A membership update of one group
 * plans a new set of groups for some interfaces, and each planned change succeeds or fails on its own.
 */
module AwsNics {
  import opened Wrappers
  import opened Text

  /** Security group ids, network interface ids and instance ids. */
  datatype SgId = SgId(id: string)
  datatype NicId = NicId(id: string)
  datatype VmId = VmId(id: string)

  datatype Kind = AddressGroup | AppliedToGroup | OtherGroup

  datatype Nic = Nic(vm: Option<VmId>, groups: set<SgId>)

  type Nics = map<NicId, Nic>

  /** The VPC: how its security groups are called and which one is its default. */
  datatype Vpc = Vpc(nameOf: SgId -> string, defaultSg: SgId, prefix: string)

  /** One membership update: the group and the instances and interfaces that are to carry it. */
  datatype Request = Request(sg: SgId, membershipOnly: bool, vms: set<VmId>, nics: set<NicId>)

  function KindOf(v: Vpc, sg: SgId): Kind {
    var name := Lower(v.nameOf(sg));
    if v.prefix + "-ag-" <= name then AddressGroup
    else if v.prefix + "-at-" <= name then AppliedToGroup
    else OtherGroup
  }

  /** The name of a security group tells its kind, in whatever case it is written. */
  lemma KindsByName(v: Vpc, sg: SgId)
    ensures KindOf(v, sg) == AddressGroup <==> exists rest :: Lower(v.nameOf(sg)) == v.prefix + "-ag-" + rest
    ensures KindOf(v, sg) == AppliedToGroup <==> exists rest :: Lower(v.nameOf(sg)) == v.prefix + "-at-" + rest
  {
    var name := Lower(v.nameOf(sg));
    var ag, at := v.prefix + "-ag-", v.prefix + "-at-";
    if ag <= name { assert name == ag + name[|ag|..]; }
    if at <= name { assert name == at + name[|at|..]; }
    assert ag[|v.prefix| + 1] == 'a' && ag[|v.prefix| + 2] == 'g' && at[|v.prefix| + 2] == 't';
  }

  /** The default group is not the controller's, and the group of the request is known by its name. */
  ghost predicate Fits(v: Vpc, req: Request) {
    && KindOf(v, v.defaultSg) == OtherGroup
    && KindOf(v, req.sg) == (if req.membershipOnly then AddressGroup else AppliedToGroup)
    && forall sg :: SameName(v, sg, req.sg) ==> sg == req.sg
  }

  function OfKind(v: Vpc, groups: set<SgId>, k: Kind): set<SgId> {
    set sg <- groups | KindOf(v, sg) == k
  }

  function Others(v: Vpc, groups: set<SgId>): set<SgId> {
    OfKind(v, groups, OtherGroup)
  }

  function AppliedTo(v: Vpc, groups: set<SgId>): set<SgId> {
    OfKind(v, groups, AppliedToGroup)
  }

  /** The groups the controller made. */
  function Managed(v: Vpc, groups: set<SgId>): set<SgId> {
    groups - Others(v, groups)
  }

  predicate IsMember(req: Request, id: NicId, vm: VmId) {
    vm in req.vms || id in req.nics
  }

  // ---------------------------------------------------------------------------------------------
  // The plan for one interface
  // ---------------------------------------------------------------------------------------------

  /** Member-only groups on an interface without applied-to group: its other groups stay, or the default comes. */
  function KeepingOthers(v: Vpc, managed: set<SgId>, others: set<SgId>): set<SgId> {
    managed + others + if others == {} then {v.defaultSg} else {}
  }

  /** The groups an interface is to carry, if they are to change. */
  function Planned(v: Vpc, req: Request, member: bool, groups: set<SgId>): Option<set<SgId>> {
    var managed, others, at := Managed(v, groups), Others(v, groups), AppliedTo(v, groups);
    if req.sg in groups then
      if !member then
        var rest := managed - {req.sg};
        if req.membershipOnly && at == {} then Some(KeepingOthers(v, rest, others))
        else if !req.membershipOnly && at == {req.sg} then Some(rest + {v.defaultSg})
        else Some(rest)
      else if !req.membershipOnly && others != {} then Some(managed)
      else None
    else if !member then None
    else if req.membershipOnly && at == {} then Some(KeepingOthers(v, managed + {req.sg}, others))
    else Some(managed + {req.sg})
  }

  /** What an interface carries after a request that reached it. */
  function Assigned(v: Vpc, req: Request, member: bool, groups: set<SgId>): set<SgId> {
    Planned(v, req, member, groups).UnwrapOr(groups)
  }

  /** With an applied-to group an interface carries the controller's groups only; without, some other group. */
  predicate Guarded(v: Vpc, groups: set<SgId>) {
    AppliedTo(v, groups) != {} <==> Others(v, groups) == {}
  }

  /** The target is carried exactly by members, and the controller's other groups stay as they were. */
  lemma PlanIsExact(v: Vpc, req: Request, member: bool, groups: set<SgId>)
    requires Fits(v, req)
    ensures req.sg in Assigned(v, req, member, groups) <==> member
    ensures Managed(v, Assigned(v, req, member, groups)) - {req.sg} == Managed(v, groups) - {req.sg}
  {
  }

  /**
   * What becomes of the groups the controller did not make. An interface that needs no change keeps them. An
   * address group request never takes them from an interface without applied-to group; joining an applied-to
   * group takes them all; when the last applied-to group leaves, or an address group would be all there is,
   * the default comes.
   */
  predicate OthersMeet(v: Vpc, req: Request, member: bool, before: set<SgId>, after: set<SgId>) {
    && ((req.sg in before <==> member) && (req.membershipOnly || !member || Others(v, before) == {}) ==> after == before)
    && (req.membershipOnly && (req.sg in before <==> !member) ==>
          Others(v, after) == if AppliedTo(v, before) != {} then {}
                              else if Others(v, before) == {} then {v.defaultSg} else Others(v, before))
    && (!req.membershipOnly && member ==> Others(v, after) == {})
    && (!req.membershipOnly && !member && req.sg in before ==>
          Others(v, after) == if AppliedTo(v, before) == {req.sg} then {v.defaultSg} else {})
  }

  lemma PlanMeets(v: Vpc, req: Request, member: bool, groups: set<SgId>)
    requires Fits(v, req)
    ensures OthersMeet(v, req, member, groups, Assigned(v, req, member, groups))
  {
  }

  lemma PlanGuards(v: Vpc, req: Request, member: bool, groups: set<SgId>)
    requires Fits(v, req) && Guarded(v, groups)
    ensures Guarded(v, Assigned(v, req, member, groups))
  {
    PlanIsExact(v, req, member, groups);
    var after := Assigned(v, req, member, groups);
    var at := AppliedTo(v, groups);
    if req.membershipOnly {
      AddressLeavesAppliedTo(v, req, member, groups);
      assert AppliedTo(v, after) == at;
    } else if member {
      assert req.sg in AppliedTo(v, after);
      assert Others(v, after) == {};
    } else if at == {req.sg} {
      assert AppliedTo(v, after) == {};
      assert v.defaultSg in Others(v, after);
    } else if req.sg in groups {
      var sg :| sg in at && sg != req.sg;
      assert sg in AppliedTo(v, after);
      assert Others(v, after) == {};
    }
  }

  lemma AddressLeavesAppliedTo(v: Vpc, req: Request, member: bool, groups: set<SgId>)
    requires Fits(v, req) && Guarded(v, groups) && req.membershipOnly
    ensures AppliedTo(v, Assigned(v, req, member, groups)) == AppliedTo(v, groups)
    ensures Others(v, Assigned(v, req, member, groups)) == {} <==> Others(v, groups) == {}
  {
  }

  /** A planned set is never empty, and repeating a request plans nothing. */
  lemma PlanIsStable(v: Vpc, req: Request, member: bool, groups: set<SgId>)
    requires Fits(v, req)
    ensures Planned(v, req, member, groups).Some? ==> Planned(v, req, member, groups).value != {}
    ensures Planned(v, req, member, Assigned(v, req, member, groups)).None?
  {
    PlanIsExact(v, req, member, groups);
    var at, after := AppliedTo(v, groups), Assigned(v, req, member, groups);
    if !req.membershipOnly && member {
      assert Others(v, after) == {} || after == groups;
    } else if !member && req.sg in groups {
      if req.membershipOnly && at != {} {
        var sg :| sg in at;
        assert sg in after;
      } else if !req.membershipOnly && at != {req.sg} {
        assert req.sg in at;
        var sg :| sg in at && sg != req.sg;
        assert sg in after;
      }
    }
  }

  // ---------------------------------------------------------------------------------------------
  // All interfaces of the VPC
  // ---------------------------------------------------------------------------------------------

  /** Interfaces without an instance are skipped. */
  function PlanFor(v: Vpc, req: Request, id: NicId, nic: Nic): Option<set<SgId>> {
    if nic.vm.None? then None else Planned(v, req, IsMember(req, id, nic.vm.value), nic.groups)
  }

  function Plan(v: Vpc, req: Request, nics: Nics, todo: set<NicId>): map<NicId, set<SgId>> {
    map id | id in nics && id !in todo && PlanFor(v, req, id, nics[id]).Some? :: PlanFor(v, req, id, nics[id]).value
  }

  predicate SameName(v: Vpc, a: SgId, b: SgId) {
    Lower(v.nameOf(a)) == Lower(v.nameOf(b))
  }

  lemma OfKindNext(v: Vpc, groups: set<SgId>, sg: SgId, k: Kind)
    requires sg !in groups
    ensures OfKind(v, groups + {sg}, k) == OfKind(v, groups, k) + if KindOf(v, sg) == k then {sg} else {}
    ensures |OfKind(v, groups + {sg}, k)| == |OfKind(v, groups, k)| + if KindOf(v, sg) == k then 1 else 0
  {
    assert sg !in OfKind(v, groups, k);
  }

  predicate Classified(v: Vpc, done: set<SgId>, managed: set<SgId>, others: set<SgId>, appliedTo: int) {
    managed == Managed(v, done) && others == Others(v, done) && appliedTo == |AppliedTo(v, done)|
  }

  lemma ManagedNext(v: Vpc, done: set<SgId>, sg: SgId)
    requires sg !in done
    ensures Managed(v, done + {sg}) == if KindOf(v, sg) == OtherGroup then Managed(v, done) else Managed(v, done) + {sg}
  {
    OfKindNext(v, done, sg, OtherGroup);
  }

  lemma ClassifiedNext(v: Vpc, done: set<SgId>, managed: set<SgId>, others: set<SgId>, appliedTo: int, sg: SgId)
    requires Classified(v, done, managed, others, appliedTo) && sg !in done
    ensures KindOf(v, sg) == OtherGroup ==> Classified(v, done + {sg}, managed, others + {sg}, appliedTo)
    ensures KindOf(v, sg) == AddressGroup ==> Classified(v, done + {sg}, managed + {sg}, others, appliedTo)
    ensures KindOf(v, sg) == AppliedToGroup ==> Classified(v, done + {sg}, managed + {sg}, others, appliedTo + 1)
  {
    ManagedNext(v, done, sg);
    OfKindNext(v, done, sg, OtherGroup);
    OfKindNext(v, done, sg, AppliedToGroup);
  }

  /** The group is recognized by its name. */
  lemma NamedTarget(v: Vpc, req: Request, sg: SgId)
    requires Fits(v, req) && KindOf(v, sg) != OtherGroup
    ensures SameName(v, sg, req.sg) <==> sg == req.sg
  {
  }

  /** One group of the interface. */
  method ClassifyOne(v: Vpc, req: Request, sg: SgId, ghost done: set<SgId>, managed: set<SgId>, others: set<SgId>,
                     appliedTo: int, attached: bool)
    returns (m: set<SgId>, o: set<SgId>, n: int, a: bool)
    requires Fits(v, req) && Classified(v, done, managed, others, appliedTo) && sg !in done
    ensures Classified(v, done + {sg}, m, o, n)
    ensures a <==> attached || sg == req.sg
  {
    m, o, n, a := managed, others, appliedTo, attached;
    ClassifiedNext(v, done, managed, others, appliedTo, sg);
    var k := KindOf(v, sg);
    if k == OtherGroup {
      o := o + {sg};
    } else {
      NamedTarget(v, req, sg);
      m := m + {sg};
      if k == AppliedToGroup { n := n + 1; }
      if SameName(v, sg, req.sg) { a := true; }
    }
  }

  lemma OneLess(groups: set<SgId>, todo: set<SgId>, sg: SgId)
    requires todo <= groups && sg in todo
    ensures groups - (todo - {sg}) == groups - todo + {sg}
  {
  }

  /** Sorts the groups of one interface, counting the applied-to groups among them. */
  method Classify(v: Vpc, req: Request, groups: set<SgId>)
    returns (managed: set<SgId>, others: set<SgId>, appliedTo: int, attached: bool)
    requires Fits(v, req)
    ensures Classified(v, groups, managed, others, appliedTo)
    ensures attached <==> req.sg in groups
  {
    managed, others, appliedTo, attached := {}, {}, 0, false;
    var todo := groups;
    assert groups - todo == {};
    while todo != {}
      invariant todo <= groups
      invariant Classified(v, groups - todo, managed, others, appliedTo)
      invariant attached <==> req.sg in groups - todo
      decreases todo
    {
      var sg :| sg in todo;
      managed, others, appliedTo, attached := ClassifyOne(v, req, sg, groups - todo, managed, others, appliedTo, attached);
      OneLess(groups, todo, sg);
      todo := todo - {sg};
    }
    assert groups - todo == groups;
  }

  lemma OneElement(s: set<SgId>, x: SgId)
    requires x in s
    ensures |s| == 1 <==> s == {x}
  {
    assert |s| == |s - {x}| + 1;
  }

  method PlanNic(v: Vpc, req: Request, member: bool, groups: set<SgId>) returns (plan: Option<set<SgId>>)
    requires Fits(v, req)
    ensures plan == Planned(v, req, member, groups)
    ensures plan.Some? ==>
      && (req.sg in plan.value <==> member) && Managed(v, plan.value) - {req.sg} == Managed(v, groups) - {req.sg}
      && OthersMeet(v, req, member, groups, plan.value)
  {
    PlanIsExact(v, req, member, groups);
    PlanMeets(v, req, member, groups);
    var managed, others, appliedTo, attached := Classify(v, req, groups);
    if req.sg in AppliedTo(v, groups) { OneElement(AppliedTo(v, groups), req.sg); }
    if attached {
      if !member {
        var toAttach := managed - {req.sg};
        if !req.membershipOnly && appliedTo == 1 { toAttach := toAttach + {v.defaultSg}; }
        if req.membershipOnly && appliedTo == 0 { toAttach := KeepingOthers(v, toAttach, others); }
        return Some(toAttach);
      } else if !req.membershipOnly && |others| > 0 {
        return Some(managed);
      }
    } else if member {
      var toAttach := managed + {req.sg};
      if req.membershipOnly && appliedTo == 0 { toAttach := KeepingOthers(v, toAttach, others); }
      return Some(toAttach);
    }
    return None;
  }

  /** The interfaces to modify, in no given order, and the groups each is to carry. */
  method PlanUpdate(v: Vpc, req: Request, nics: Nics) returns (plan: map<NicId, set<SgId>>)
    requires Fits(v, req)
    ensures plan == Plan(v, req, nics, {})
  {
    plan := map[];
    var todo := nics.Keys;
    while todo != {}
      invariant todo <= nics.Keys && plan == Plan(v, req, nics, todo)
      decreases todo
    {
      var id :| id in todo;
      todo := todo - {id};
      var nic := nics[id];
      if nic.vm.None? { continue; }
      var p := PlanNic(v, req, IsMember(req, id, nic.vm.value), nic.groups);
      if p.Some? { plan := plan[id := p.value]; }
    }
  }

  /** The planned changes are made one by one; those of `failed` are refused and change nothing. */
  function Modified(nics: Nics, plan: map<NicId, set<SgId>>, failed: set<NicId>): Nics {
    map id | id in nics :: if id in plan && id !in failed then nics[id].(groups := plan[id]) else nics[id]
  }

  datatype Update = Update(req: Request, failed: set<NicId>)

  function Updated(v: Vpc, nics: Nics, u: Update): Nics {
    Modified(nics, Plan(v, u.req, nics, {}), u.failed)
  }

  function Run(v: Vpc, nics: Nics, us: seq<Update>): Nics
    decreases us
  {
    if us == [] then nics else Run(v, Updated(v, nics, us[0]), us[1..])
  }

  /** Every interface of an instance is guarded. */
  predicate AllGuarded(v: Vpc, nics: Nics) {
    forall id <- nics :: nics[id].vm.Some? ==> Guarded(v, nics[id].groups)
  }

  ghost predicate AllFit(v: Vpc, us: seq<Update>) {
    forall i :: 0 <= i < |us| ==> Fits(v, us[i].req)
  }

  /** What an update leaves of one interface that it could modify. */
  lemma UpdateIsExact(v: Vpc, nics: Nics, u: Update, id: NicId)
    requires Fits(v, u.req) && id in nics && nics[id].vm.Some? && id !in u.failed
    ensures var after := Updated(v, nics, u)[id].groups;
            && (u.req.sg in after <==> nics[id].vm.value in u.req.vms || id in u.req.nics)
            && Managed(v, after) - {u.req.sg} == Managed(v, nics[id].groups) - {u.req.sg}
            && (nics[id].groups != {} ==> after != {})
  {
    var member := IsMember(u.req, id, nics[id].vm.value);
    PlanIsExact(v, u.req, member, nics[id].groups);
    PlanIsStable(v, u.req, member, nics[id].groups);
    assert Updated(v, nics, u)[id].groups == Assigned(v, u.req, member, nics[id].groups);
  }

  /** What an update leaves of the groups the controller did not make, on an interface it could modify. */
  lemma UpdateOnOthers(v: Vpc, nics: Nics, u: Update, id: NicId)
    requires Fits(v, u.req) && id in nics && nics[id].vm.Some? && id !in u.failed
    ensures OthersMeet(v, u.req, IsMember(u.req, id, nics[id].vm.value), nics[id].groups, Updated(v, nics, u)[id].groups)
  {
    var member := IsMember(u.req, id, nics[id].vm.value);
    assert Updated(v, nics, u)[id].groups == Assigned(v, u.req, member, nics[id].groups);
    PlanMeets(v, u.req, member, nics[id].groups);
  }

  /** An interface without instance, or whose change is refused, is left alone. */
  lemma UpdateSpares(v: Vpc, nics: Nics, u: Update, id: NicId)
    requires id in nics && (nics[id].vm.None? || id in u.failed)
    ensures Updated(v, nics, u)[id] == nics[id]
  {
  }

  lemma UpdateGuards(v: Vpc, nics: Nics, u: Update)
    requires Fits(v, u.req) && AllGuarded(v, nics)
    ensures AllGuarded(v, Updated(v, nics, u)) && Updated(v, nics, u).Keys == nics.Keys
  {
    forall id <- nics | nics[id].vm.Some? ensures Guarded(v, Updated(v, nics, u)[id].groups) {
      PlanGuards(v, u.req, IsMember(u.req, id, nics[id].vm.value), nics[id].groups);
    }
  }

  /** Over every sequence of updates of any groups, failures included, every interface stays guarded. */
  lemma {:induction false} NicsStayGuarded(v: Vpc, nics: Nics, us: seq<Update>)
    requires AllGuarded(v, nics) && AllFit(v, us)
    ensures AllGuarded(v, Run(v, nics, us)) && Run(v, nics, us).Keys == nics.Keys
    decreases us
  {
    if us != [] {
      UpdateGuards(v, nics, us[0]);
      NicsStayGuarded(v, Updated(v, nics, us[0]), us[1..]);
    }
  }

  /** No applied-to group takes up the interface. */
  predicate Unapplied(u: Update, id: NicId, vm: VmId) {
    u.req.membershipOnly || !IsMember(u.req, id, vm)
  }

  lemma AppliedToComesFrom(v: Vpc, before: set<SgId>, after: set<SgId>, sg: SgId)
    requires Managed(v, after) - {sg} == Managed(v, before) - {sg}
    ensures AppliedTo(v, after) - {sg} == AppliedTo(v, before) - {sg}
  {
    forall x | x != sg ensures x in AppliedTo(v, after) <==> x in AppliedTo(v, before) {
      assert x in Managed(v, after) - {sg} <==> x in Managed(v, before) - {sg};
    }
  }

  lemma UpdateKeepsOthers(v: Vpc, nics: Nics, u: Update, id: NicId)
    requires Fits(v, u.req) && id in nics && nics[id].vm.Some? && Unapplied(u, id, nics[id].vm.value)
    requires AppliedTo(v, nics[id].groups) == {} && Others(v, nics[id].groups) != {}
    ensures var after := Updated(v, nics, u)[id];
            && after.vm == nics[id].vm && AppliedTo(v, after.groups) == {}
            && Others(v, after.groups) == Others(v, nics[id].groups)
  {
    if id in u.failed {
      UpdateSpares(v, nics, u, id);
    } else {
      UpdateIsExact(v, nics, u, id);
      UpdateOnOthers(v, nics, u, id);
      var before, after := nics[id].groups, Updated(v, nics, u)[id].groups;
      if !u.req.membershipOnly { assert u.req.sg in before ==> u.req.sg in AppliedTo(v, before); }
      AppliedToComesFrom(v, before, after, u.req.sg);
    }
  }

  /**
   * A user's groups stay where they are until an applied-to group takes up the interface, whatever address
   * groups come and go and whatever happens to other interfaces.
   */
  lemma {:induction false} UserGroupsStay(v: Vpc, nics: Nics, us: seq<Update>, id: NicId)
    requires AllGuarded(v, nics) && AllFit(v, us) && id in nics && nics[id].vm.Some?
    requires AppliedTo(v, nics[id].groups) == {} && forall u <- us :: Unapplied(u, id, nics[id].vm.value)
    ensures id in Run(v, nics, us) && Others(v, Run(v, nics, us)[id].groups) == Others(v, nics[id].groups)
    decreases us
  {
    if us != [] {
      assert us[0] in us && Guarded(v, nics[id].groups);
      UpdateKeepsOthers(v, nics, us[0], id);
      UpdateGuards(v, nics, us[0]);
      UserGroupsStay(v, Updated(v, nics, us[0]), us[1..], id);
    }
  }

  lemma AddressUpdateKeepsOthers(v: Vpc, nics: Nics, u: Update, id: NicId)
    requires Fits(v, u.req) && u.req.membershipOnly && id in nics && (nics[id].vm.Some? ==> Guarded(v, nics[id].groups))
    ensures Others(v, Updated(v, nics, u)[id].groups) == Others(v, nics[id].groups)
  {
    if nics[id].vm.None? || id in u.failed {
      UpdateSpares(v, nics, u, id);
    } else {
      UpdateOnOthers(v, nics, u, id);
    }
  }

  /** Address group requests never change the other groups of any interface, with applied-to group or without. */
  lemma {:induction false} AddressGroupsSpareOthers(v: Vpc, nics: Nics, us: seq<Update>, id: NicId)
    requires AllGuarded(v, nics) && AllFit(v, us) && id in nics && forall u <- us :: u.req.membershipOnly
    ensures id in Run(v, nics, us) && Others(v, Run(v, nics, us)[id].groups) == Others(v, nics[id].groups)
    decreases us
  {
    if us != [] {
      assert us[0] in us;
      AddressUpdateKeepsOthers(v, nics, us[0], id);
      UpdateGuards(v, nics, us[0]);
      AddressGroupsSpareOthers(v, Updated(v, nics, us[0]), us[1..], id);
    }
  }

  /** Once an update went through, the same request plans no change at all. */
  lemma UpdateIsIdempotent(v: Vpc, nics: Nics, req: Request)
    requires Fits(v, req)
    ensures Plan(v, req, Updated(v, nics, Update(req, {})), {}) == map[]
  {
    var after := Updated(v, nics, Update(req, {}));
    forall id <- after ensures PlanFor(v, req, id, after[id]).None? {
      if nics[id].vm.Some? {
        PlanIsStable(v, req, IsMember(req, id, nics[id].vm.value), nics[id].groups);
      }
    }
  }
}
