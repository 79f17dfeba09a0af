/**
 * A VPC that is shut for good: its indexed group is garbage and so is every group it ever had. No event of
 * any kind makes a group there again.
 */
module GroupGoneProofs {
  import opened Wrappers
  import opened GroupLifecycle
  import opened GroupLifecycleProofs
  import opened GroupIndexProofs

  /** Every group made in the VPC so far is garbage. */
  ghost predicate AllGarbage(c: Ctl, v: Vpc) {
    forall q: nat :: q < |c.sgs| && At(c, q).vpc == v ==> At(c, q).state == Garbage
  }

  ghost predicate Gone(c: Ctl, v: Vpc) {
    Shut(c, v) && AllGarbage(c, v)
  }

  ghost predicate Stays(c: Ctl, d: Ctl, v: Vpc) {
    Gone(c, v) ==> Gone(d, v)
  }

  // ---------------------------------------------------------------------------------------------
  // One group
  // ---------------------------------------------------------------------------------------------

  lemma SameGone(c: Ctl, d: Ctl, v: Vpc)
    requires d.sgs == c.sgs && d.indexer == c.indexer
    ensures Stays(c, d, v)
  {
    forall q: nat ensures At(d, q) == At(c, q) {}
  }

  lemma SetGone(c: Ctl, id: nat, s: Sg, v: Vpc)
    requires s.vpc == At(c, id).vpc && (At(c, id).state == Garbage ==> s.state == Garbage)
    ensures Stays(c, Set(c, id, s), v)
  {
  }

  lemma IssueGone(c: Ctl, id: nat, call: Call, v: Vpc)
    ensures Stays(c, Issue(c, id, call), v)
  {
    var s := Record(At(c, id), call);
    SetGone(c, id, s, v);
    SameGone(Set(c, id, s), Issue(c, id, call), v);
  }

  /** Filing an object changes nothing for such a VPC: all it has are garbage. */
  lemma FiledGone(c: Ctl, id: nat, v: Vpc)
    ensures Stays(c, c.(indexer := Filed(c, id)), v)
  {
    var d := c.(indexer := Filed(c, id));
    forall q: nat ensures At(d, q) == At(c, q) {}
  }

  lemma AddImplGone(c: Ctl, id: nat, v: Vpc)
    ensures Stays(c, AddImpl(c, id), v)
  {
    var c1 := c.(indexer := Filed(c, id));
    var s := At(c, id).(status := InProgress);
    FiledGone(c, id, v);
    SetGone(c1, id, s, v);
    IssueGone(Set(c1, id, s), id, Create, v);
  }

  lemma RetryRemoveGone(c: Ctl, w: Vpc, v: Vpc)
    ensures Stays(c, RetryRemove(c, w), v)
  {
    if Queued(c, w).Some? {
      var id := Queued(c, w).value.sg;
      var s := At(c, id).(retryOp := None);
      SetGone(c, id, s, v);
      SameGone(Set(c, id, s), RetryRemove(c, w), v);
    }
  }

  lemma IssueDeleteGone(c: Ctl, id: nat, v: Vpc)
    requires c.pend.Some?
    ensures Stays(c, IssueDelete(c, id), v)
  {
    var c1 := CountDelete(c);
    var s := At(c, id).(status := InProgress);
    SameGone(c, c1, v);
    SetGone(c1, id, s, v);
    IssueGone(Set(c1, id, s), id, Delete, v);
  }

  lemma UnindexGone(c: Ctl, w: Vpc, v: Vpc)
    requires w != v
    ensures Stays(c, Unindex(c, w), v)
  {
    var c1 := c.(indexer := c.indexer - {w});
    forall q: nat ensures At(c1, q) == At(c, q) {}
    assert Lookup(c1, v) == Lookup(c, v);
    RetryRemoveGone(c1, w, v);
  }

  lemma CondemnGone(c: Ctl, id: nat, v: Vpc)
    requires c.pend.Some? && At(c, id).vpc != v
    ensures Stays(c, Condemn(c, id), v)
  {
    var c1 := Unindex(c, At(c, id).vpc);
    UnindexGone(c, At(c, id).vpc, v);
    SetGone(c1, id, At(c1, id).(retryOp := None), v);
    SetGone(c1, id, At(c1, id).(retryOp := None, state := Garbage), v);
    IssueDeleteGone(MarkGarbage(c1, id), id, v);
  }

  lemma DeleteImplGone(c: Ctl, id: nat, referred: bool, v: Vpc)
    requires id < |c.sgs|
    ensures Stays(c, DeleteImpl(c, id, referred), v)
  {
    var c1 := EnsurePending(c);
    SameGone(c, c1, v);
    SetGone(c1, id, At(c, id).(deletePending := true), v);
    IssueDeleteGone(c1, id, v);
    if At(c, id).vpc != v { CondemnGone(c1, id, v); }
  }

  lemma UpdateImplGone(c: Ctl, id: nat, added: set<Member>, removed: set<Member>, v: Vpc)
    ensures Stays(c, UpdateImpl(c, id, added, removed), v)
  {
    var s := At(c, id).(members := At(c, id).members - removed + added);
    SetGone(c, id, s, v);
    IssueGone(Set(c, id, s), id, SetMembers, v);
  }

  lemma ClearMembersGone(c: Ctl, id: nat, v: Vpc)
    ensures Stays(c, ClearMembersImpl(c, id), v)
  {
    IssueGone(c, id, ClearMembers, v);
    SetGone(c, id, At(c, id).(ruleReady := false), v);
  }

  lemma UpdateAnpRulesGone(c: Ctl, id: nat, o: NpOutcome, v: Vpc)
    ensures Stays(c, UpdateAnpRules(c, id, o), v)
  {
    match o
    case NoPolicies => ClearMembersGone(c, id, v);
    case ComputeError => SetGone(c, id, At(c, id).(status := Failed), v);
    case NoDelta => IssueGone(c, id, NoRuleChange, v);
    case Delta =>
      var s := At(c, id).(cloudOpInProgress := true);
      SetGone(c, id, s, v);
      IssueGone(Set(c, id, s), id, UpdateRules, v);
    case NotReady =>
  }

  lemma {:induction false} UpdateAnpsGone(c: Ctl, id: nat, os: seq<NpOutcome>, v: Vpc)
    ensures Stays(c, UpdateAnps(c, id, os), v)
    decreases os
  {
    if os != [] {
      UpdateAnpRulesGone(c, id, os[0], v);
      UpdateAnpsGone(UpdateAnpRules(c, id, os[0]), id, os[1..], v);
    }
  }

  lemma UpdateAllRulesGone(c: Ctl, id: nat, os: seq<NpOutcome>, v: Vpc)
    ensures Stays(c, UpdateAllRules(c, id, os), v)
  {
    ClearMembersGone(c, id, v);
    UpdateAnpsGone(c, id, os, v);
  }

  // ---------------------------------------------------------------------------------------------
  // Retries
  // ---------------------------------------------------------------------------------------------

  lemma RedoGone(c: Ctl, id: nat, op: Op, os: seq<NpOutcome>, referred: bool, v: Vpc)
    requires id < |c.sgs|
    ensures Stays(c, Redo(c, id, op, os, referred), v)
  {
    match op
    case OpAdd => AddImplGone(c, id, v);
    case OpUpdateMembers => UpdateImplGone(c, id, {}, {}, v);
    case OpDelete => DeleteImplGone(c, id, referred, v);
    case _ =>
      UpdateAllRulesGone(c, id, os, v);
      SameGone(c, c.(panicked := true), v);
  }

  lemma RunPendingItemGone(c: Ctl, id: nat, os: seq<NpOutcome>, referred: bool, v: Vpc)
    requires At(c, id).retryOp.Some?
    ensures Stays(c, RunPendingItem(c, id, os, referred), v)
  {
    var op := At(c, id).retryOp.value;
    var c1 := ClearRetry(c, id);
    SetGone(c, id, At(c, id).(retryOp := None), v);
    RedoGone(c1, id, op, os, referred, v);
    var c2 := Redo(c1, id, op, os, referred);
    SetGone(c2, id, At(c2, id).(retryInProgress := true, retryOp := Some(op)), v);
  }

  lemma SpendGone(c: Ctl, w: Vpc, count: int, least: int, v: Vpc)
    ensures Stays(c, Spend(c, w, count, least), v)
  {
    SameGone(c, SetCount(c, w, count - 1), v);
    RetryRemoveGone(SetCount(c, w, count - 1), w, v);
  }

  lemma RetryUpdateGone(c: Ctl, w: Vpc, checkRun: bool, op: Op, os: seq<NpOutcome>, referred: bool, v: Vpc)
    ensures Stays(c, RetryUpdate(c, w, checkRun, op, os, referred), v)
  {
    if Queued(c, w).Some? {
      var i := Queued(c, w).value;
      var c1 := TellItem(c, i.sg, op);
      SetGone(c, i.sg, UpdatePendingItem(At(c, i.sg), op), v);
      RetryRemoveGone(c1, w, v);
      if At(c1, i.sg).retryOp.Some? {
        RunPendingItemGone(c1, i.sg, os, referred, v);
        SpendGone(RunPendingItem(c1, i.sg, os, referred), w, i.count, 1, v);
      }
    }
  }

  lemma RetrySweepGone(c: Ctl, w: Vpc, os: seq<NpOutcome>, referred: bool, v: Vpc)
    ensures Stays(c, RetrySweep(c, w, os, referred), v)
  {
    if Queued(c, w).Some? {
      var i := Queued(c, w).value;
      RetryRemoveGone(c, w, v);
      SpendGone(c, w, i.count, 0, v);
      if At(c, i.sg).retryOp.Some? {
        RunPendingItemGone(c, i.sg, os, referred, v);
        SpendGone(RunPendingItem(c, i.sg, os, referred), w, i.count, 0, v);
      }
    }
  }

  // ---------------------------------------------------------------------------------------------
  // Group events
  // ---------------------------------------------------------------------------------------------

  /** A group is made only where none is indexed. */
  lemma NewGroupGone(c: Ctl, w: Vpc, ms: set<Member>, v: Vpc)
    requires w != v
    ensures Stays(c, AddImpl(NewGroup(c, w, ms), |c.sgs|), v)
  {
    var d := NewGroup(c, w, ms);
    forall q: nat ensures At(d, q) == if q == |c.sgs| then NewSg(w, ms) else At(c, q) {}
    AddImplGone(d, |c.sgs|, v);
  }

  lemma {:induction false} AddPassGone(c: Ctl, vs: seq<Vpc>, added: set<Member>, removed: set<Member>, left: set<Vpc>, v: Vpc)
    ensures Stays(c, AddPass(c, vs, added, removed, left).0, v)
    decreases vs
  {
    if vs != [] && Gone(c, v) {
      var w := vs[0];
      var ms := InVpc(c, added, w);
      if ms == {} {
        AddPassGone(c, vs[1..], added, removed, left, v);
      } else if Lookup(c, w).None? {
        NewGroupGone(c, w, ms, v);
        AddPassGone(AddImpl(NewGroup(c, w, ms), |c.sgs|), vs[1..], added, removed, left, v);
      } else if At(c, Lookup(c, w).value).members == ms {
        AddPassGone(c, vs[1..], added, removed, left, v);
      } else {
        UpdateImplGone(c, Lookup(c, w).value, ms, InVpc(c, removed, w), v);
        AddPassGone(UpdateImpl(c, Lookup(c, w).value, ms, InVpc(c, removed, w)), vs[1..], added, removed, left - {w}, v);
      }
    }
  }

  lemma {:induction false} RemovePassGone(c: Ctl, vs: seq<Vpc>, removed: set<Member>, left: set<Vpc>, v: Vpc)
    ensures Stays(c, RemovePass(c, vs, removed, left), v)
    decreases vs
  {
    if vs != [] {
      var w := vs[0];
      var ms := InVpc(c, removed, w);
      if ms == {} || w !in left || Lookup(c, w).None? {
        RemovePassGone(c, vs[1..], removed, left, v);
      } else {
        UpdateImplGone(c, Lookup(c, w).value, {}, ms, v);
        RemovePassGone(UpdateImpl(c, Lookup(c, w).value, {}, ms), vs[1..], removed, left, v);
      }
    }
  }

  lemma {:induction false} DeletePassGone(c: Ctl, vs: seq<Vpc>, env: Env, v: Vpc)
    ensures Stays(c, DeletePass(c, vs, env), v)
    decreases vs
  {
    if vs != [] {
      if Lookup(c, vs[0]).None? || Spared(c, vs[0], env) {
        DeletePassGone(c, vs[1..], env, v);
      } else {
        DeleteImplGone(c, Lookup(c, vs[0]).value, vs[0] in env.referred, v);
        DeletePassGone(DeleteImpl(c, Lookup(c, vs[0]).value, vs[0] in env.referred), vs[1..], env, v);
      }
    }
  }

  lemma ApplyMembersGone(c: Ctl, added: set<Member>, removed: set<Member>, v: Vpc)
    ensures Stays(c, ApplyMembers(c, added, removed), v)
  {
    var pass := AddPass(c, c.vpcs, added, removed, set w <- c.vpcs);
    AddPassGone(c, c.vpcs, added, removed, (set w <- c.vpcs), v);
    RemovePassGone(pass.0, c.vpcs, removed, pass.1, v);
  }

  lemma ProcessGroupGone(c: Ctl, e: GroupEvent, env: Env, v: Vpc)
    ensures Stays(c, ProcessGroup(c, e, env), v)
  {
    if c.pend.Some? {
      SameGone(c, ProcessGroup(c, e, env), v);
    } else {
      match e
      case Added(a) => ApplyMembersGone(c, a, {}, v);
      case Modified(a, r) => ApplyMembersGone(c, a, r, v);
      case Deleted => DeletePassGone(c, c.vpcs, env, v);
    }
  }

  // ---------------------------------------------------------------------------------------------
  // Responses
  // ---------------------------------------------------------------------------------------------

  lemma ReplayItemGone(c: Ctl, p: PendingGroup, v: Vpc)
    ensures Stays(c, ReplayItem(c, p), v)
  {
    var d := c.(pend := None, replays := c.replays + [Replay(p.added, p.hist, DeletesIn(c.flight))]);
    SameGone(c, d, v);
    ProcessGroupGone(d, Added(p.added), Env({}, {}), v);
  }

  lemma PendingDeleteGone(c: Ctl, moreOps: bool, v: Vpc)
    ensures Stays(c, PendingDeleteAnswered(c, moreOps), v)
  {
    if c.pend.Some? {
      var p := Uncount(c.pend.value, moreOps);
      SameGone(c, c.(pend := Some(p)), v);
      SameGone(c, c.(pend := None), v);
      ReplayItemGone(c, p, v);
    }
  }

  lemma QueueRetryGone(c: Ctl, id: nat, op: Op, v: Vpc)
    ensures Stays(c, QueueRetry(c, id, op), v)
  {
    var s := At(c, id).(retryOp := Some(op));
    SetGone(c, id, s, v);
    if QueueRetry(c, id, op) != c { SameGone(Set(c, id, s), QueueRetry(c, id, op), v); }
  }

  lemma NotifyImplGone(c: Ctl, id: nat, op: Op, ok: bool, os: seq<NpOutcome>, referred: bool, v: Vpc)
    ensures Stays(c, NotifyImpl(c, id, op, ok, os, referred), v)
  {
    var w := At(c, id).vpc;
    var c0 := if ok then c else QueueRetry(c, id, op);
    QueueRetryGone(c, id, op, v);
    RetryUpdateGone(c0, w, ok, op, os, referred, v);
    var c1 := Retried(c, id, op, ok, os, referred);
    PendingDeleteGone(c1, MoreOps(c1, w), v);
  }

  lemma RulesRefreshedGone(c: Ctl, id: nat, v: Vpc)
    ensures Stays(c, RulesRefreshed(c, id), v)
  {
    var d := c.(indexer := Filed(c, id));
    FiledGone(c, id, v);
    SetGone(d, id, At(d, id).(ruleReady := true), v);
    assert RulesRefreshed(c, id) == Set(d, id, At(d, id).(ruleReady := true));
  }

  lemma OnSuccessGone(c: Ctl, id: nat, op: Op, os: seq<NpOutcome>, v: Vpc)
    ensures Stays(c, OnSuccess(c, id, op, os), v)
  {
    match op
    case OpAdd =>
      SetGone(c, id, At(c, id).(state := if At(c, id).state == Init then Created else At(c, id).state), v);
      UpdateImplGone(BecomeCreated(c, id), id, {}, {}, v);
      UpdateAllRulesGone(BecomeCreated(c, id), id, os, v);
    case OpUpdateMembers =>
      SetGone(c, id, At(c, id).(hasMembers := true), v);
    case OpUpdateRules =>
      RulesRefreshedGone(c, id, v);
      UpdateImplGone(RulesRefreshed(c, id), id, {}, {}, v);
    case OpClearMembers =>
      SetGone(c, id, At(c, id).(hasMembers := false), v);
      UpdateAllRulesGone(SetHasMembers(c, id, false), id, os, v);
    case OpDelete =>
  }

  lemma AfterStatusGone(c: Ctl, id: nat, op: Op, ok: bool, os: seq<NpOutcome>, referred: bool, v: Vpc)
    ensures Stays(c, AfterStatus(c, id, op, ok, os, referred), v)
  {
    var w := At(c, id).vpc;
    RetryUpdateGone(c, w, false, op, [], referred, v);
    OnSuccessGone(RetryUpdate(c, w, false, op, [], referred), id, op, os, v);
  }

  lemma NotifyGone(c: Ctl, id: nat, op: Op, ok: bool, os: seq<NpOutcome>, retryOs: seq<NpOutcome>,
                   drain: seq<NpOutcome>, referred: bool, v: Vpc)
    ensures Stays(c, Notify(c, id, op, ok, os, retryOs, drain, referred), v)
  {
    var c1 := SetStatus(c, id, op, ok);
    SetGone(c, id, At(c, id).(status := if ok then StatusOk else Failed), v);
    var c2 := AfterStatus(c1, id, op, ok, os, referred);
    AfterStatusGone(c1, id, op, ok, os, referred, v);
    NotifyImplGone(c2, id, op, ok, retryOs, referred, v);
    UpdateAnpsGone(NotifyImpl(c2, id, op, ok, retryOs, referred), id, drain, v);
  }

  // ---------------------------------------------------------------------------------------------
  // Every run
  // ---------------------------------------------------------------------------------------------

  lemma QuietStepGone(c: Ctl, e: Event, v: Vpc)
    ensures Stays(c, QuietStep(c, e), v)
  {
    match e
    case Sweep(w, os, referred) => RetrySweepGone(c, w, os, referred, v);
    case Policy(id, o) => UpdateAnpRulesGone(c, id, o, v);
    case RulesDone(id) => SetGone(c, id, At(c, id).(cloudOpInProgress := false), v);
    case RefDropped(w, referred) => if Lookup(c, w).Some? { DeleteImplGone(c, Lookup(c, w).value, referred, v); }
    case _ =>
  }

  lemma StepGone(c: Ctl, e: Event, v: Vpc)
    ensures Stays(c, Step(c, e), v)
  {
    if !c.panicked {
      match e
      case Group(g, env) => ProcessGroupGone(c, g, env, v);
      case Response(k, op, ok, os, retryOs, drain, referred) =>
        if k < |c.flight| && Answers(c.flight[k].call, op, ok) {
          SameGone(c, Land(c, k), v);
          NotifyGone(Land(c, k), c.flight[k].sg, op, ok, os, retryOs, drain, referred, v);
        }
      case _ => QuietStepGone(c, e, v);
    }
  }

  /** Group events, answers of whatever kind, retries, policies, replays: nothing brings a group to the VPC again. */
  lemma {:induction false} GoneForever(c: Ctl, es: seq<Event>, v: Vpc)
    requires Gone(c, v)
    ensures Gone(Run(c, es), v)
    decreases es
  {
    if es != [] {
      StepGone(c, es[0], v);
      GoneForever(Step(c, es[0]), es[1..], v);
    }
  }

  lemma LateKeepsGarbage(c: Ctl, id: nat, os: seq<NpOutcome>, referred: bool, v: Vpc)
    requires AllDominated(c) && Late(c, id, OpUpdateRules, true) && AllGarbage(c, v)
    ensures AllGarbage(AfterStatus(c, id, OpUpdateRules, true, os, referred), v)
  {
    var d := AfterStatus(c, id, OpUpdateRules, true, os, referred);
    assert |d.sgs| == |c.sgs|;
    forall q: nat | q < |d.sgs| && At(d, q).vpc == v ensures At(d, q).state == Garbage {
      AfterStatusKeeps(c, id, OpUpdateRules, true, os, referred, q);
    }
  }

  /** A late answer shuts the VPC for good when every group made there so far is garbage. */
  lemma LateNotifyIsFinal(c: Ctl, id: nat, os: seq<NpOutcome>, retryOs: seq<NpOutcome>, drain: seq<NpOutcome>,
                          referred: bool, v: Vpc)
    requires AllDominated(c) && Late(c, id, OpUpdateRules, true) && id < |c.sgs| && v == At(c, id).vpc && AllGarbage(c, v)
    ensures Gone(Notify(c, id, OpUpdateRules, true, os, retryOs, drain, referred), v)
  {
    var c2 := AfterStatus(c, id, OpUpdateRules, true, os, referred);
    LateTold(c, id, os, referred, v);
    LateKeepsGarbage(c, id, os, referred, v);
    RetryUpdateGone(c2, v, true, OpUpdateRules, retryOs, referred, v);
    UpdateAnpsGone(RetryUpdate(c2, v, true, OpUpdateRules, retryOs, referred), id, drain, v);
    LateNotifies(c, id, os, retryOs, drain, referred);
  }

  lemma LateAnswerIsFinal(c: Ctl, e: Event, es: seq<Event>, v: Vpc)
    requires AllDominated(c) && LateEvent(c, e) && v == At(c, c.flight[e.k].sg).vpc && AllGarbage(c, v)
    ensures Gone(Run(Step(c, e), es), v)
  {
    var (d, id) := (Land(c, e.k), c.flight[e.k].sg);
    forall k: nat ensures At(d, k) == At(c, k) {}
    LateNotifyIsFinal(d, id, e.os, e.retryOs, e.drain, e.isReferred, v);
    GoneForever(Step(c, e), es, v);
  }
}
