/**
 * Over whole runs: as long as the name is not deleted, the groups have the members the group events say,
 * whatever answers, failures, retries and policies come between.
 */
module GroupFollowProofs {
  import opened Wrappers
  import opened GroupLifecycle
  import opened GroupLifecycleProofs
  import opened GroupReplayProofs
  import opened GroupDeadProofs
  import opened GroupMemberProofs

  /** Every object is the one indexed under its VPC. */
  ghost predicate Sole(c: Ctl) {
    forall q: nat :: q < |c.sgs| ==> Lookup(c, At(c, q).vpc) == Some(q)
  }

  /** Every object has the members and the VPC it had, and the index is the same. */
  ghost predicate SameMembers(c: Ctl, d: Ctl) {
    && SameWorld(c, d) && |d.sgs| == |c.sgs| && d.indexer == c.indexer
    && forall q: nat :: At(d, q).members == At(c, q).members && At(d, q).vpc == At(c, q).vpc
  }

  ghost predicate Still(c: Ctl, d: Ctl) {
    Sole(c) ==> Sole(d) && SameMembers(c, d)
  }

  // ---------------------------------------------------------------------------------------------
  // Nothing but group events changes members
  // ---------------------------------------------------------------------------------------------

  lemma SameIsStill(c: Ctl, d: Ctl)
    requires SameMembers(c, d)
    ensures Still(c, d)
  {
    if Sole(c) {
      forall q: nat | q < |d.sgs| ensures Lookup(d, At(d, q).vpc) == Some(q) {
        assert Lookup(c, At(c, q).vpc) == Some(q);
      }
    }
  }

  lemma SameObjectsStill(c: Ctl, d: Ctl)
    requires SameWorld(c, d) && d.sgs == c.sgs && d.indexer == c.indexer
    ensures Still(c, d)
  {
    forall q: nat ensures At(d, q) == At(c, q) {}
    SameIsStill(c, d);
  }

  lemma SetStill(c: Ctl, id: nat, s: Sg)
    requires s.members == At(c, id).members && s.vpc == At(c, id).vpc
    ensures Still(c, Set(c, id, s))
  {
    SameIsStill(c, Set(c, id, s));
  }

  lemma IssueStill(c: Ctl, id: nat, call: Call)
    ensures Still(c, Issue(c, id, call))
  {
    var s := Record(At(c, id), call);
    SetStill(c, id, s);
    SameObjectsStill(Set(c, id, s), Issue(c, id, call));
  }

  /** An object that is indexed already is filed where it is. */
  lemma FiledStill(c: Ctl, id: nat)
    ensures Still(c, c.(indexer := Filed(c, id)))
  {
    if Sole(c) && id < |c.sgs| {
      assert Lookup(c, At(c, id).vpc) == Some(id);
      assert Filed(c, id) == c.indexer;
    }
  }

  lemma AddImplStill(c: Ctl, id: nat)
    ensures Still(c, AddImpl(c, id))
  {
    var c1 := c.(indexer := Filed(c, id));
    var s := At(c, id).(status := InProgress);
    FiledStill(c, id);
    SetStill(c1, id, s);
    IssueStill(Set(c1, id, s), id, Create);
  }

  lemma RetryRemoveStill(c: Ctl, v: Vpc)
    ensures Still(c, RetryRemove(c, v))
  {
    if Queued(c, v).Some? {
      var id := Queued(c, v).value.sg;
      var s := At(c, id).(retryOp := None);
      SetStill(c, id, s);
      SameObjectsStill(Set(c, id, s), RetryRemove(c, v));
    }
  }

  lemma RefreshStill(c: Ctl, id: nat)
    ensures Still(c, UpdateImpl(c, id, {}, {}))
  {
    var s := At(c, id).(members := At(c, id).members - {} + {});
    assert s.members == At(c, id).members;
    SetStill(c, id, s);
    IssueStill(Set(c, id, s), id, SetMembers);
  }

  lemma ClearMembersStill(c: Ctl, id: nat)
    ensures Still(c, ClearMembersImpl(c, id))
  {
    IssueStill(c, id, ClearMembers);
    SetStill(c, id, At(c, id).(ruleReady := false));
  }

  lemma UpdateAnpRulesStill(c: Ctl, id: nat, o: NpOutcome)
    ensures Still(c, UpdateAnpRules(c, id, o))
  {
    match o
    case NoPolicies => ClearMembersStill(c, id);
    case ComputeError => SetStill(c, id, At(c, id).(status := Failed));
    case NoDelta => IssueStill(c, id, NoRuleChange);
    case Delta =>
      var s := At(c, id).(cloudOpInProgress := true);
      SetStill(c, id, s);
      IssueStill(Set(c, id, s), id, UpdateRules);
    case NotReady =>
  }

  lemma {:induction false} UpdateAnpsStill(c: Ctl, id: nat, os: seq<NpOutcome>)
    ensures Still(c, UpdateAnps(c, id, os))
    decreases os
  {
    if os != [] {
      UpdateAnpRulesStill(c, id, os[0]);
      UpdateAnpsStill(UpdateAnpRules(c, id, os[0]), id, os[1..]);
    }
  }

  lemma UpdateAllRulesStill(c: Ctl, id: nat, os: seq<NpOutcome>)
    ensures Still(c, UpdateAllRules(c, id, os))
  {
    ClearMembersStill(c, id);
    UpdateAnpsStill(c, id, os);
  }

  lemma RedoStill(c: Ctl, id: nat, op: Op, os: seq<NpOutcome>, referred: bool)
    requires op != OpDelete
    ensures Still(c, Redo(c, id, op, os, referred))
  {
    if op == OpAdd {
      AddImplStill(c, id);
    } else if op == OpUpdateMembers {
      RefreshStill(c, id);
    } else {
      UpdateAllRulesStill(c, id, os);
      SameObjectsStill(c, c.(panicked := true));
    }
  }

  lemma RunPendingItemStill(c: Ctl, id: nat, os: seq<NpOutcome>, referred: bool)
    requires At(c, id).retryOp.Some? && NoDeleteDue(c)
    ensures Still(c, RunPendingItem(c, id, os, referred))
  {
    var op := At(c, id).retryOp.value;
    assert !DeleteDue(c.membershipOnly, At(c, id));
    var c1 := ClearRetry(c, id);
    SetStill(c, id, At(c, id).(retryOp := None));
    RedoStill(c1, id, op, os, referred);
    var c2 := Redo(c1, id, op, os, referred);
    SetStill(c2, id, At(c2, id).(retryInProgress := true, retryOp := Some(op)));
  }

  lemma SpendStill(c: Ctl, v: Vpc, count: int, least: int)
    ensures Still(c, Spend(c, v, count, least))
  {
    SameObjectsStill(c, SetCount(c, v, count - 1));
    RetryRemoveStill(SetCount(c, v, count - 1), v);
  }

  lemma RetryUpdateStill(c: Ctl, v: Vpc, checkRun: bool, op: Op, os: seq<NpOutcome>, referred: bool)
    requires NoDeleteDue(c)
    ensures Still(c, RetryUpdate(c, v, checkRun, op, os, referred))
  {
    if Queued(c, v).Some? {
      var i := Queued(c, v).value;
      var c1 := TellItem(c, i.sg, op);
      SetStill(c, i.sg, UpdatePendingItem(At(c, i.sg), op));
      SetMeek(c, i.sg, UpdatePendingItem(At(c, i.sg), op));
      RetryRemoveStill(c1, v);
      if At(c1, i.sg).retryOp.Some? {
        RunPendingItemStill(c1, i.sg, os, referred);
        SpendStill(RunPendingItem(c1, i.sg, os, referred), v, i.count, 1);
      }
    }
  }

  lemma RetrySweepStill(c: Ctl, v: Vpc, os: seq<NpOutcome>, referred: bool)
    requires NoDeleteDue(c)
    ensures Still(c, RetrySweep(c, v, os, referred))
  {
    if Queued(c, v).Some? {
      var i := Queued(c, v).value;
      RetryRemoveStill(c, v);
      SpendStill(c, v, i.count, 0);
      if At(c, i.sg).retryOp.Some? {
        RunPendingItemStill(c, i.sg, os, referred);
        SpendStill(RunPendingItem(c, i.sg, os, referred), v, i.count, 0);
      }
    }
  }

  lemma QueueRetryStill(c: Ctl, id: nat, op: Op)
    ensures Still(c, QueueRetry(c, id, op))
  {
    var s := At(c, id).(retryOp := Some(op));
    SetStill(c, id, s);
    if QueueRetry(c, id, op) != c { SameObjectsStill(Set(c, id, s), QueueRetry(c, id, op)); }
  }

  lemma RetriedStill(c: Ctl, id: nat, op: Op, ok: bool, os: seq<NpOutcome>, referred: bool)
    requires op != OpDelete && NoDeleteDue(c)
    ensures Still(c, Retried(c, id, op, ok, os, referred))
  {
    if ok {
      RetryUpdateStill(c, At(c, id).vpc, true, op, os, referred);
    } else {
      QueueRetryStill(c, id, op);
      QueueRetryMeek(c, id, op);
      RetryUpdateStill(QueueRetry(c, id, op), At(c, id).vpc, false, op, os, referred);
    }
  }

  lemma RulesRefreshedStill(c: Ctl, id: nat)
    ensures Still(c, RulesRefreshed(c, id))
  {
    var d := c.(indexer := Filed(c, id));
    FiledStill(c, id);
    SetStill(d, id, At(d, id).(ruleReady := true));
    assert RulesRefreshed(c, id) == Set(d, id, At(d, id).(ruleReady := true));
  }

  lemma OnSuccessStill(c: Ctl, id: nat, op: Op, os: seq<NpOutcome>)
    ensures Still(c, OnSuccess(c, id, op, os))
  {
    match op
    case OpAdd =>
      SetStill(c, id, At(c, id).(state := if At(c, id).state == Init then Created else At(c, id).state));
      RefreshStill(BecomeCreated(c, id), id);
      UpdateAllRulesStill(BecomeCreated(c, id), id, os);
    case OpUpdateMembers =>
      SetStill(c, id, At(c, id).(hasMembers := true));
    case OpUpdateRules =>
      RulesRefreshedStill(c, id);
      RefreshStill(RulesRefreshed(c, id), id);
    case OpClearMembers =>
      SetStill(c, id, At(c, id).(hasMembers := false));
      UpdateAllRulesStill(SetHasMembers(c, id, false), id, os);
    case OpDelete =>
  }

  lemma AfterStatusStill(c: Ctl, id: nat, op: Op, ok: bool, os: seq<NpOutcome>, referred: bool)
    requires NoDeleteDue(c)
    ensures Still(c, AfterStatus(c, id, op, ok, os, referred))
  {
    var v := At(c, id).vpc;
    RetryUpdateStill(c, v, false, op, [], referred);
    OnSuccessStill(RetryUpdate(c, v, false, op, [], referred), id, op, os);
  }

  lemma NotifyStill(c: Ctl, id: nat, op: Op, ok: bool, os: seq<NpOutcome>, retryOs: seq<NpOutcome>,
                    drain: seq<NpOutcome>, referred: bool)
    requires op != OpDelete && NoDeleteDue(c)
    ensures Still(c, Notify(c, id, op, ok, os, retryOs, drain, referred))
  {
    var c1 := SetStatus(c, id, op, ok);
    SetStill(c, id, At(c, id).(status := if ok then StatusOk else Failed));
    SetMeek(c, id, At(c, id).(status := if ok then StatusOk else Failed));
    var c2 := AfterStatus(c1, id, op, ok, os, referred);
    AfterStatusStill(c1, id, op, ok, os, referred);
    AfterStatusMeek(c1, id, op, ok, os, referred);
    RetriedStill(c2, id, op, ok, retryOs, referred);
    UpdateAnpsStill(NotifyImpl(c2, id, op, ok, retryOs, referred), id, drain);
  }

  // ---------------------------------------------------------------------------------------------
  // A name that is not being deleted
  // ---------------------------------------------------------------------------------------------

  /** The name is not being deleted, no deletion is to come, and every VPC has at most one group. */
  ghost predicate Orderly(c: Ctl) {
    c.pend.None? && NoDeleteDue(c) && DeletesIn(c.flight) == 0 && Sole(c) && Once(c.vpcs)
  }

  lemma RespondStaysOrderly(c: Ctl, k: nat, op: Op, ok: bool, os: seq<NpOutcome>, retryOs: seq<NpOutcome>,
                            drain: seq<NpOutcome>, referred: bool)
    requires Orderly(c)
    ensures Orderly(Respond(c, k, op, ok, os, retryOs, drain, referred))
    ensures SameMembers(c, Respond(c, k, op, ok, os, retryOs, drain, referred))
  {
    if k < |c.flight| && Answers(c.flight[k].call, op, ok) {
      NoDeleteLands(c, k);
      var d := Land(c, k);
      SameObjects(c, d);
      SameObjectsStill(c, d);
      NotifyMeek(d, c.flight[k].sg, op, ok, os, retryOs, drain, referred);
      NotifyStill(d, c.flight[k].sg, op, ok, os, retryOs, drain, referred);
    }
  }

  lemma QuietStaysOrderly(c: Ctl, e: Event)
    requires Orderly(c)
    ensures Orderly(QuietStep(c, e)) && SameMembers(c, QuietStep(c, e))
  {
    match e
    case Sweep(v, os, referred) =>
      RetrySweepMeek(c, v, os, referred);
      RetrySweepStill(c, v, os, referred);
    case Policy(id, o) =>
      UpdateAnpRulesMeek(c, id, o);
      UpdateAnpRulesStill(c, id, o);
    case RulesDone(id) =>
      SetMeek(c, id, At(c, id).(cloudOpInProgress := false));
      SetStill(c, id, At(c, id).(cloudOpInProgress := false));
    case RefDropped(v, _) =>
      if Lookup(c, v).Some? { assert !DeleteDue(c.membershipOnly, At(c, Lookup(c, v).value)); }
    case _ =>
  }

  /** Whatever is not a group event leaves the members alone. */
  lemma StepStaysOrderly(c: Ctl, e: Event)
    requires Orderly(c) && !e.Group?
    ensures Orderly(Step(c, e)) && SameMembers(c, Step(c, e))
  {
    match e
    case Response(k, op, ok, os, retryOs, drain, referred) =>
      RespondStaysOrderly(c, k, op, ok, os, retryOs, drain, referred);
    case _ => QuietStaysOrderly(c, e);
  }

  // ---------------------------------------------------------------------------------------------
  // Group events
  // ---------------------------------------------------------------------------------------------

  /** Every VPC keeps at most one group, and no deletion comes up. */
  ghost predicate Tidy(c: Ctl, d: Ctl) {
    Sole(c) && NoDeleteDue(c) ==> Sole(d) && NoDeleteDue(d) && SameWorld(c, d)
  }

  lemma UpdateTidy(c: Ctl, id: nat, added: set<Member>, removed: set<Member>)
    ensures Tidy(c, UpdateImpl(c, id, added, removed))
  {
    UpdateImplMeek(c, id, added, removed);
    var s := At(c, id).(members := At(c, id).members - removed + added);
    SetSole(c, id, s);
    IssueStill(Set(c, id, s), id, SetMembers);
  }

  lemma SetSole(c: Ctl, id: nat, s: Sg)
    requires s.vpc == At(c, id).vpc
    ensures Sole(c) ==> Sole(Set(c, id, s))
  {
    if Sole(c) {
      var d := Set(c, id, s);
      forall q: nat | q < |d.sgs| ensures Lookup(d, At(d, q).vpc) == Some(q) {
        assert Lookup(c, At(c, q).vpc) == Some(q);
      }
    }
  }

  lemma NewTidy(c: Ctl, w: Vpc, ms: set<Member>)
    requires Lookup(c, w).None?
    ensures Tidy(c, AddImpl(NewGroup(c, w, ms), |c.sgs|))
  {
    var (c1, id) := (NewGroup(c, w, ms), |c.sgs|);
    var d := AddImpl(c1, id);
    NewHere(c, w, ms);
    if Sole(c) && NoDeleteDue(c) {
      forall q: nat ensures !DeleteDue(c1.membershipOnly, At(c1, q)) {
        assert At(c1, q) == if q == id then NewSg(w, ms) else At(c, q);
      }
      AddImplMeek(c1, id);
      assert d.indexer == c.indexer[w := id];
      forall q: nat | q < |d.sgs| ensures Lookup(d, At(d, q).vpc) == Some(q) {
        if q != id {
          NewOther(c, w, ms, q);
          assert Lookup(c, At(c, q).vpc) == Some(q);
        }
      }
    }
  }

  lemma {:induction false} AddPassTidy(c: Ctl, vs: seq<Vpc>, added: set<Member>, removed: set<Member>, left: set<Vpc>)
    ensures Tidy(c, AddPass(c, vs, added, removed, left).0)
    decreases vs
  {
    if vs != [] {
      var one := AddOne(c, vs[0], added, removed, left);
      AddPassNext(c, vs, added, removed, left);
      AddOneTidy(c, vs[0], added, removed, left);
      AddPassTidy(one.0, vs[1..], added, removed, one.1);
    }
  }

  lemma AddOneTidy(c: Ctl, w: Vpc, added: set<Member>, removed: set<Member>, left: set<Vpc>)
    ensures Tidy(c, AddOne(c, w, added, removed, left).0)
  {
    if Lookup(c, w).None? {
      NewTidy(c, w, InVpc(c, added, w));
    } else {
      UpdateTidy(c, Lookup(c, w).value, InVpc(c, added, w), InVpc(c, removed, w));
    }
  }

  lemma {:induction false} RemovePassTidy(c: Ctl, vs: seq<Vpc>, removed: set<Member>, left: set<Vpc>)
    ensures Tidy(c, RemovePass(c, vs, removed, left))
    decreases vs
  {
    if vs != [] {
      RemovePassNext(c, vs, removed, left);
      if Lookup(c, vs[0]).Some? { UpdateTidy(c, Lookup(c, vs[0]).value, {}, InVpc(c, removed, vs[0])); }
      RemovePassTidy(RemoveOne(c, vs[0], removed, left), vs[1..], removed, left);
    }
  }

  lemma ApplyTidy(c: Ctl, added: set<Member>, removed: set<Member>)
    ensures Tidy(c, ApplyMembers(c, added, removed))
  {
    var left := set w <- c.vpcs;
    var pass := AddPass(c, c.vpcs, added, removed, left);
    AddPassTidy(c, c.vpcs, added, removed, left);
    RemovePassTidy(pass.0, c.vpcs, removed, pass.1);
  }

  lemma GroupEventStaysOrderly(c: Ctl, e: GroupEvent, env: Env)
    requires Orderly(c) && !e.Deleted?
    ensures Orderly(ProcessGroup(c, e, env)) && SameWorld(c, ProcessGroup(c, e, env))
  {
    ApplyTidy(c, AddsOf(e), RemovesOf(e));
  }

  // ---------------------------------------------------------------------------------------------
  // Every run
  // ---------------------------------------------------------------------------------------------

  /** The controller takes the group event in: it runs, and all machines the event adds are known. */
  predicate Heard(c: Ctl, e: Event) {
    e.Group? && !c.panicked && AllFound(c, AddsOf(e.e))
  }

  /** The group events taken in during the run. */
  function Heeded(c: Ctl, es: seq<Event>): seq<GroupEvent> {
    if es == [] then []
    else
      var init, last := es[..|es| - 1], es[|es| - 1];
      Heeded(c, init) + if Heard(Run(c, init), last) then [last.e] else []
  }

  lemma HeededNext(c: Ctl, es: seq<Event>, e: Event)
    ensures Heeded(c, es + [e]) == if Heard(Run(c, es), e) then Heeded(c, es) + [e.e] else Heeded(c, es)
  {
    assert (es + [e])[..|es|] == es;
    assert Heeded(c, es) + [] == Heeded(c, es);
  }

  /** The name is not deleted, and no event adds and removes the same member. */
  predicate Plain(e: Event) {
    e.Group? ==> !e.e.Deleted? && AddsOf(e.e) !! RemovesOf(e.e)
  }

  lemma ApplyInVpc(c: Ctl, before: set<Member>, e: GroupEvent, v: Vpc)
    requires !e.Deleted?
    ensures InVpc(c, Apply(before, e), v) == InVpc(c, before, v) - InVpc(c, RemovesOf(e), v) + InVpc(c, AddsOf(e), v)
  {
  }

  lemma StepFollows(c: Ctl, e: Event, v: Vpc)
    requires Orderly(c) && Plain(e) && v in c.vpcs
    ensures Orderly(Step(c, e)) && SameWorld(c, Step(c, e))
    ensures MembersAt(Step(c, e), v) ==
            if Heard(c, e) then MembersAt(c, v) - InVpc(c, RemovesOf(e.e), v) + InVpc(c, AddsOf(e.e), v) else MembersAt(c, v)
  {
    if !e.Group? {
      StepStaysOrderly(c, e);
    } else if !c.panicked {
      GroupEventStaysOrderly(c, e.e, e.env);
      if Heard(c, e) { EventIsFollowed(c, e.e, e.env, v); } else { UnknownMembersWait(c, e.e, e.env); }
    }
  }

  /**
   * From the start, as long as the name is not deleted: after any run the group of each VPC has exactly the
   * members of that VPC that the group events taken in leave, one after the other.
   */
  lemma {:induction false} MembersFollowEvents(membershipOnly: bool, synced: bool, vpcs: seq<Vpc>, vpcOf: map<Member, Vpc>,
                                               es: seq<Event>, v: Vpc)
    requires Once(vpcs) && v in vpcs && forall e <- es :: Plain(e)
    ensures var start := Start(membershipOnly, synced, vpcs, vpcOf);
            && Orderly(Run(start, es)) && SameWorld(start, Run(start, es))
            && MembersAt(Run(start, es), v) == InVpc(start, Fold(Heeded(start, es)), v)
    decreases |es|
  {
    var start := Start(membershipOnly, synced, vpcs, vpcOf);
    if es != [] {
      var init, last := es[..|es| - 1], es[|es| - 1];
      assert es == init + [last];
      MembersFollowEvents(membershipOnly, synced, vpcs, vpcOf, init, v);
      var c := Run(start, init);
      RunAppend(start, init, last);
      HeededNext(start, init, last);
      StepFollows(c, last, v);
      if Heard(c, last) {
        FoldSnoc(Heeded(start, init), last.e);
        ApplyInVpc(start, Fold(Heeded(start, init)), last.e, v);
        SameInVpc(start, c, last.e, v);
      }
    }
  }

  lemma SameInVpc(c: Ctl, d: Ctl, e: GroupEvent, v: Vpc)
    requires SameWorld(c, d)
    ensures InVpc(d, AddsOf(e), v) == InVpc(c, AddsOf(e), v) && InVpc(d, RemovesOf(e), v) == InVpc(c, RemovesOf(e), v)
  {
  }
}
