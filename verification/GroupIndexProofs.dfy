/** Which objects the index holds: a garbage group gets back into it in one way only, and then stays. */
module GroupIndexProofs {
  import opened Wrappers
  import opened GroupLifecycle
  import opened GroupLifecycleProofs
  import opened GroupNameProofs

  /** The group indexed under the VPC is not garbage. */
  predicate CleanAt(c: Ctl, v: Vpc) {
    Lookup(c, v).Some? ==> At(c, Lookup(c, v).value).state != Garbage
  }

  ghost predicate IndexClean(c: Ctl) {
    forall v: Vpc :: CleanAt(c, v)
  }

  predicate Clean(c: Ctl, d: Ctl, v: Vpc) {
    CleanAt(c, v) ==> CleanAt(d, v)
  }

  /** Where the index points in a VPC. */
  function Pointed(c: Ctl, v: Vpc): nat {
    if v in c.indexer then c.indexer[v] else 0
  }

  lemma UnchangedClean(c: Ctl, d: Ctl, v: Vpc)
    requires d.indexer == c.indexer && |d.sgs| == |c.sgs| && Keeps(c, d, Pointed(c, v))
    requires At(d, Pointed(c, v)).state == At(c, Pointed(c, v)).state
    ensures Clean(c, d, v)
  {
  }

  lemma AddImplClean(c: Ctl, id: nat, v: Vpc)
    requires At(c, id).state != Garbage
    ensures Clean(c, AddImpl(c, id), v)
  {
    AddImplKeeps(c, id, Pointed(c, v));
    AddImplKeeps(c, id, id);
  }

  lemma CondemnIndex(c: Ctl, id: nat)
    requires c.pend.Some?
    ensures Condemn(c, id).indexer == c.indexer - {At(c, id).vpc}
  {
  }

  lemma DeleteImplClean(c: Ctl, id: nat, referred: bool, v: Vpc)
    ensures Clean(c, DeleteImpl(c, id, referred), v)
  {
    if At(c, id).vpc != v {
      DeleteElsewhere(c, id, referred, v);
    } else if At(c, id).state != Garbage && !(c.membershipOnly && referred) {
      CondemnIndex(EnsurePending(c), id);
    } else {
      UnfinishedDelete(c, id, referred, Pointed(c, v));
      UnchangedClean(c, DeleteImpl(c, id, referred), v);
    }
  }

  /** A deletion that is put off, or issued again, changes no state and no index entry. */
  lemma UnfinishedDelete(c: Ctl, id: nat, referred: bool, q: nat)
    requires At(c, id).state == Garbage || (c.membershipOnly && referred)
    ensures var d := DeleteImpl(c, id, referred);
            d.indexer == c.indexer && |d.sgs| == |c.sgs| && Keeps(c, d, q) && At(d, q).state == At(c, q).state
  {
    var c1 := EnsurePending(c);
    if At(c, id).state != Garbage {
      SetKeeps(c1, id, At(c, id).(deletePending := true), q);
    } else if At(c, id).retryOp.None? {
      IssueDeleteKeeps(c1, id, q);
    }
  }

  lemma UpdateImplClean(c: Ctl, id: nat, added: set<Member>, removed: set<Member>, v: Vpc)
    ensures Clean(c, UpdateImpl(c, id, added, removed), v)
  {
    UpdateImplKeeps(c, id, added, removed, Pointed(c, v));
    UnchangedClean(c, UpdateImpl(c, id, added, removed), v);
  }

  lemma UpdateAllRulesClean(c: Ctl, id: nat, os: seq<NpOutcome>, v: Vpc)
    ensures Clean(c, UpdateAllRules(c, id, os), v)
  {
    UpdateAllRulesKeeps(c, id, os, Pointed(c, v));
    UnchangedClean(c, UpdateAllRules(c, id, os), v);
  }

  lemma UpdateAnpsClean(c: Ctl, id: nat, os: seq<NpOutcome>, v: Vpc)
    ensures Clean(c, UpdateAnps(c, id, os), v)
  {
    UpdateAnpsKeeps(c, id, os, Pointed(c, v));
    UnchangedClean(c, UpdateAnps(c, id, os), v);
  }

  lemma RedoClean(c: Ctl, id: nat, op: Op, os: seq<NpOutcome>, referred: bool, v: Vpc)
    requires At(c, id).state == Garbage ==> op == OpDelete
    ensures Clean(c, Redo(c, id, op, os, referred), v)
  {
    match op
    case OpAdd => AddImplClean(c, id, v);
    case OpUpdateMembers => UpdateImplClean(c, id, {}, {}, v);
    case OpDelete => DeleteImplClean(c, id, referred, v);
    case _ => UpdateAllRulesClean(c, id, os, v);
  }

  lemma SetClean(c: Ctl, id: nat, s: Sg, v: Vpc)
    requires s.state == At(c, id).state && s.vpc == At(c, id).vpc
    ensures Clean(c, Set(c, id, s), v)
  {
  }

  lemma RunPendingItemClean(c: Ctl, id: nat, os: seq<NpOutcome>, referred: bool, v: Vpc)
    requires At(c, id).retryOp.Some? && Dominated(At(c, id))
    ensures Clean(c, RunPendingItem(c, id, os, referred), v)
  {
    var op := At(c, id).retryOp.value;
    var c1 := ClearRetry(c, id);
    SetClean(c, id, At(c, id).(retryOp := None), v);
    var c2 := Redo(c1, id, op, os, referred);
    RedoClean(c1, id, op, os, referred, v);
    SetClean(c2, id, At(c2, id).(retryInProgress := true, retryOp := Some(op)), v);
  }

  lemma RetryRemoveClean(c: Ctl, w: Vpc, v: Vpc)
    ensures Clean(c, RetryRemove(c, w), v)
  {
    RetryRemoveKeeps(c, w, Pointed(c, v));
    UnchangedClean(c, RetryRemove(c, w), v);
  }

  lemma SpendClean(c: Ctl, w: Vpc, count: int, least: int, v: Vpc)
    ensures Clean(c, Spend(c, w, count, least), v)
  {
    RetryRemoveClean(SetCount(c, w, count - 1), w, v);
  }

  lemma RetryUpdateClean(c: Ctl, w: Vpc, checkRun: bool, op: Op, os: seq<NpOutcome>, referred: bool, v: Vpc)
    requires AllDominated(c)
    ensures Clean(c, RetryUpdate(c, w, checkRun, op, os, referred), v)
  {
    if Queued(c, w).Some? {
      var i := Queued(c, w).value;
      var c1 := TellItem(c, i.sg, op);
      SetClean(c, i.sg, UpdatePendingItem(At(c, i.sg), op), v);
      TellItemKeeps(c, i.sg, op, i.sg);
      RetryRemoveClean(c1, w, v);
      if At(c1, i.sg).retryOp.Some? {
        RunPendingItemClean(c1, i.sg, os, referred, v);
        SpendClean(RunPendingItem(c1, i.sg, os, referred), w, i.count, 1, v);
      }
    }
  }

  lemma RetrySweepClean(c: Ctl, w: Vpc, os: seq<NpOutcome>, referred: bool, v: Vpc)
    requires AllDominated(c)
    ensures Clean(c, RetrySweep(c, w, os, referred), v)
  {
    if Queued(c, w).Some? {
      var i := Queued(c, w).value;
      RetryRemoveClean(c, w, v);
      SpendClean(c, w, i.count, 0, v);
      if At(c, i.sg).retryOp.Some? {
        RunPendingItemClean(c, i.sg, os, referred, v);
        SpendClean(RunPendingItem(c, i.sg, os, referred), w, i.count, 0, v);
      }
    }
  }

  lemma NewGroupClean(c: Ctl, w: Vpc, ms: set<Member>, v: Vpc)
    ensures Clean(c, AddImpl(NewGroup(c, w, ms), |c.sgs|), v)
  {
    AddImplClean(NewGroup(c, w, ms), |c.sgs|, v);
  }

  lemma {:induction false} AddPassClean(c: Ctl, vs: seq<Vpc>, added: set<Member>, removed: set<Member>, left: set<Vpc>, v: Vpc)
    ensures Clean(c, AddPass(c, vs, added, removed, left).0, v)
    decreases vs
  {
    if vs != [] {
      var w := vs[0];
      var ms := InVpc(c, added, w);
      if ms == {} {
        AddPassClean(c, vs[1..], added, removed, left, v);
      } else if Lookup(c, w).None? {
        NewGroupClean(c, w, ms, v);
        AddPassClean(AddImpl(NewGroup(c, w, ms), |c.sgs|), vs[1..], added, removed, left, v);
      } else if At(c, Lookup(c, w).value).members == ms {
        AddPassClean(c, vs[1..], added, removed, left, v);
      } else {
        UpdateImplClean(c, Lookup(c, w).value, ms, InVpc(c, removed, w), v);
        AddPassClean(UpdateImpl(c, Lookup(c, w).value, ms, InVpc(c, removed, w)), vs[1..], added, removed, left - {w}, v);
      }
    }
  }

  lemma {:induction false} RemovePassClean(c: Ctl, vs: seq<Vpc>, removed: set<Member>, left: set<Vpc>, v: Vpc)
    ensures Clean(c, RemovePass(c, vs, removed, left), v)
    decreases vs
  {
    if vs != [] {
      var w := vs[0];
      var ms := InVpc(c, removed, w);
      if ms == {} || w !in left || Lookup(c, w).None? {
        RemovePassClean(c, vs[1..], removed, left, v);
      } else {
        UpdateImplClean(c, Lookup(c, w).value, {}, ms, v);
        RemovePassClean(UpdateImpl(c, Lookup(c, w).value, {}, ms), vs[1..], removed, left, v);
      }
    }
  }

  lemma {:induction false} DeletePassClean(c: Ctl, vs: seq<Vpc>, env: Env, v: Vpc)
    ensures Clean(c, DeletePass(c, vs, env), v)
    decreases vs
  {
    if vs != [] {
      if !Taken(c, vs[0], env) {
        DeletePassClean(c, vs[1..], env, v);
      } else {
        DeleteImplClean(c, Lookup(c, vs[0]).value, vs[0] in env.referred, v);
        DeletePassClean(DeleteImpl(c, Lookup(c, vs[0]).value, vs[0] in env.referred), vs[1..], env, v);
      }
    }
  }

  lemma ApplyMembersClean(c: Ctl, added: set<Member>, removed: set<Member>, v: Vpc)
    ensures Clean(c, ApplyMembers(c, added, removed), v)
  {
    var pass := AddPass(c, c.vpcs, added, removed, set w <- c.vpcs);
    AddPassClean(c, c.vpcs, added, removed, (set w <- c.vpcs), v);
    RemovePassClean(pass.0, c.vpcs, removed, pass.1, v);
  }

  lemma ProcessGroupClean(c: Ctl, e: GroupEvent, env: Env, v: Vpc)
    ensures Clean(c, ProcessGroup(c, e, env), v)
  {
    if c.pend.None? {
      match e
      case Added(a) => ApplyMembersClean(c, a, {}, v);
      case Modified(a, r) => ApplyMembersClean(c, a, r, v);
      case Deleted => DeletePassClean(c, c.vpcs, env, v);
    }
  }

  lemma PendingDeleteClean(c: Ctl, moreOps: bool, v: Vpc)
    ensures Clean(c, PendingDeleteAnswered(c, moreOps), v)
  {
    if c.pend.Some? {
      var p := Uncount(c.pend.value, moreOps);
      var replay := Replay(p.added, p.hist, DeletesIn(c.flight));
      ProcessGroupClean(c.(pend := None, replays := c.replays + [replay]), Added(p.added), Env({}, {}), v);
    }
  }

  lemma QueueRetryClean(c: Ctl, id: nat, op: Op, v: Vpc)
    ensures Clean(c, QueueRetry(c, id, op), v)
  {
    SetClean(c, id, At(c, id).(retryOp := Some(op)), v);
  }

  lemma RetriedClean(c: Ctl, id: nat, op: Op, ok: bool, os: seq<NpOutcome>, referred: bool, v: Vpc)
    requires AllDominated(c)
    ensures Clean(c, Retried(c, id, op, ok, os, referred), v)
  {
    if ok {
      RetryUpdateClean(c, At(c, id).vpc, true, op, os, referred, v);
    } else {
      var c1 := QueueRetry(c, id, op);
      forall k: nat ensures Dominated(At(c1, k)) { QueueRetryKeeps(c, id, op, k); }
      QueueRetryClean(c, id, op, v);
      RetryUpdateClean(c1, At(c, id).vpc, false, op, os, referred, v);
    }
  }

  lemma NotifyImplClean(c: Ctl, id: nat, op: Op, ok: bool, os: seq<NpOutcome>, referred: bool, v: Vpc)
    requires AllDominated(c)
    ensures Clean(c, NotifyImpl(c, id, op, ok, os, referred), v)
  {
    var c1 := Retried(c, id, op, ok, os, referred);
    RetriedClean(c, id, op, ok, os, referred, v);
    if op == OpDelete { PendingDeleteClean(c1, MoreOps(c1, At(c, id).vpc), v); }
  }

  /** The answer to a rule update lands on a group that is garbage by then. */
  predicate Late(c: Ctl, id: nat, op: Op, ok: bool) {
    !c.membershipOnly && op == OpUpdateRules && ok && At(c, id).state == Garbage
  }

  lemma BecomeCreatedClean(c: Ctl, id: nat, v: Vpc)
    ensures Clean(c, BecomeCreated(c, id), v)
  {
  }

  lemma RulesRefreshedClean(c: Ctl, id: nat, v: Vpc)
    requires At(c, id).state != Garbage
    ensures Clean(c, RulesRefreshed(c, id), v)
  {
  }

  lemma OnSuccessClean(c: Ctl, id: nat, op: Op, os: seq<NpOutcome>, v: Vpc)
    requires !Late(c, id, op, true)
    ensures Clean(c, OnSuccess(c, id, op, os), v)
  {
    match op
    case OpAdd =>
      BecomeCreatedClean(c, id, v);
      UpdateImplClean(BecomeCreated(c, id), id, {}, {}, v);
      UpdateAllRulesClean(BecomeCreated(c, id), id, os, v);
    case OpUpdateMembers =>
      SetClean(c, id, At(c, id).(hasMembers := true), v);
    case OpUpdateRules =>
      if !c.membershipOnly {
        RulesRefreshedClean(c, id, v);
        UpdateImplClean(RulesRefreshed(c, id), id, {}, {}, v);
      }
    case OpClearMembers =>
      SetClean(c, id, At(c, id).(hasMembers := false), v);
      UpdateAllRulesClean(SetHasMembers(c, id, false), id, os, v);
    case OpDelete =>
  }

  lemma AfterStatusClean(c: Ctl, id: nat, op: Op, ok: bool, os: seq<NpOutcome>, referred: bool, v: Vpc)
    requires AllDominated(c) && !Late(c, id, op, ok)
    ensures Clean(c, AfterStatus(c, id, op, ok, os, referred), v)
  {
    if ok {
      var w := At(c, id).vpc;
      RetryUpdateClean(c, w, false, op, [], referred, v);
      var d := RetryUpdate(c, w, false, op, [], referred);
      assert At(d, id).state == At(c, id).state;
      OnSuccessClean(d, id, op, os, v);
    }
  }

  lemma NotifyClean(c: Ctl, id: nat, op: Op, ok: bool, os: seq<NpOutcome>, retryOs: seq<NpOutcome>,
                    drain: seq<NpOutcome>, referred: bool, v: Vpc)
    requires AllDominated(c) && !Late(c, id, op, ok)
    ensures Clean(c, Notify(c, id, op, ok, os, retryOs, drain, referred), v)
  {
    var c1 := SetStatus(c, id, op, ok);
    forall k: nat ensures Dominated(At(c1, k)) { SetStatusKeeps(c, id, op, ok, k); }
    SetClean(c, id, At(c, id).(status := if ok then StatusOk else Failed), v);
    var c2 := AfterStatus(c1, id, op, ok, os, referred);
    forall k: nat ensures Dominated(At(c2, k)) { AfterStatusKeeps(c1, id, op, ok, os, referred, k); }
    AfterStatusClean(c1, id, op, ok, os, referred, v);
    NotifyImplClean(c2, id, op, ok, retryOs, referred, v);
    UpdateAnpsClean(NotifyImpl(c2, id, op, ok, retryOs, referred), id, drain, v);
  }

  /** The event is such an answer. */
  predicate LateEvent(c: Ctl, e: Event) {
    && e.Response? && !c.panicked && e.k < |c.flight| && Answers(c.flight[e.k].call, e.op, e.ok)
    && Late(c, c.flight[e.k].sg, e.op, e.ok)
  }

  lemma StepClean(c: Ctl, e: Event, v: Vpc)
    requires AllDominated(c) && !LateEvent(c, e)
    ensures Clean(c, Step(c, e), v)
  {
    if !c.panicked {
      match e
      case Group(g, env) => ProcessGroupClean(c, g, env, v);
      case Response(k, op, ok, os, retryOs, drain, referred) =>
        if k < |c.flight| && Answers(c.flight[k].call, op, ok) { RespondClean(c, k, op, ok, os, retryOs, drain, referred, v); }
      case _ => QuietStepClean(c, e, v);
    }
  }

  lemma RespondClean(c: Ctl, k: nat, op: Op, ok: bool, os: seq<NpOutcome>, retryOs: seq<NpOutcome>,
                     drain: seq<NpOutcome>, referred: bool, v: Vpc)
    requires AllDominated(c) && k < |c.flight| && !Late(c, c.flight[k].sg, op, ok)
    ensures Clean(c, Respond(c, k, op, ok, os, retryOs, drain, referred), v)
  {
    LandKeeps(c, k, c.flight[k].sg);
    LandKeeps(c, k, Pointed(c, v));
    NotifyClean(Land(c, k), c.flight[k].sg, op, ok, os, retryOs, drain, referred, v);
  }

  lemma QuietStepClean(c: Ctl, e: Event, v: Vpc)
    requires AllDominated(c)
    ensures Clean(c, QuietStep(c, e), v)
  {
    match e
    case Sweep(w, os, referred) => RetrySweepClean(c, w, os, referred, v);
    case Policy(id, o) =>
      UpdateAnpRulesKeeps(c, id, o, Pointed(c, v));
      UnchangedClean(c, UpdateAnpRules(c, id, o), v);
    case RulesDone(id) => SetClean(c, id, At(c, id).(cloudOpInProgress := false), v);
    case RefDropped(w, referred) => if Lookup(c, w).Some? { DeleteImplClean(c, Lookup(c, w).value, referred, v); }
    case _ =>
  }

  // ---------------------------------------------------------------------------------------------
  // A late answer puts garbage back
  // ---------------------------------------------------------------------------------------------

  /** The name has a garbage group in the VPC's place. */
  predicate Shut(c: Ctl, v: Vpc) {
    Lookup(c, v).Some? && At(c, Lookup(c, v).value).state == Garbage
  }

  predicate StaysShut(c: Ctl, d: Ctl, v: Vpc) {
    Shut(c, v) ==> Shut(d, v) && Lookup(d, v) == Lookup(c, v)
  }

  lemma UnchangedShut(c: Ctl, d: Ctl, v: Vpc)
    requires d.indexer == c.indexer && |d.sgs| >= |c.sgs| && Keeps(c, d, Pointed(c, v))
    requires At(d, Pointed(c, v)).state == At(c, Pointed(c, v)).state
    ensures StaysShut(c, d, v)
  {
  }

  /** Redoing the operation changes what the index holds for the group's VPC. */
  predicate Reindexes(s: Sg) {
    s.retryOp == Some(OpAdd) || (s.retryOp == Some(OpDelete) && s.state != Garbage)
  }

  /** An operation that waits to be retried in the VPC would put another group there, or take the group out. */
  predicate Rescued(c: Ctl, v: Vpc) {
    Queued(c, v).Some? && (var s := At(c, Queued(c, v).value.sg); !s.retryInProgress && Reindexes(s))
  }

  lemma SetShut(c: Ctl, id: nat, s: Sg, v: Vpc)
    requires s.state == At(c, id).state && s.vpc == At(c, id).vpc
    ensures StaysShut(c, Set(c, id, s), v)
  {
  }

  lemma RedoStays(c: Ctl, id: nat, op: Op, os: seq<NpOutcome>, referred: bool, v: Vpc)
    requires op != OpAdd && (op == OpDelete ==> At(c, id).state == Garbage)
    ensures StaysShut(c, Redo(c, id, op, os, referred), v)
  {
    var q := Pointed(c, v);
    match op
    case OpUpdateMembers =>
      UpdateImplKeeps(c, id, {}, {}, q);
      UnchangedShut(c, UpdateImpl(c, id, {}, {}), v);
    case OpDelete =>
      UnfinishedDelete(c, id, referred, q);
      UnchangedShut(c, DeleteImpl(c, id, referred), v);
    case _ =>
      UpdateAllRulesKeeps(c, id, os, q);
      UnchangedShut(c, UpdateAllRules(c, id, os), v);
  }

  lemma RunStays(c: Ctl, id: nat, os: seq<NpOutcome>, referred: bool, v: Vpc)
    requires At(c, id).retryOp.Some? && !Reindexes(At(c, id))
    ensures StaysShut(c, RunPendingItem(c, id, os, referred), v)
  {
    var op := At(c, id).retryOp.value;
    var c1 := ClearRetry(c, id);
    SetShut(c, id, At(c, id).(retryOp := None), v);
    RedoStays(c1, id, op, os, referred, v);
    var c2 := Redo(c1, id, op, os, referred);
    SetShut(c2, id, At(c2, id).(retryInProgress := true, retryOp := Some(op)), v);
  }

  lemma RunRescues(c: Ctl, id: nat, os: seq<NpOutcome>, referred: bool, v: Vpc)
    requires !c.membershipOnly && At(c, id).vpc == v && Reindexes(At(c, id)) && Dominated(At(c, id))
    ensures CleanAt(RunPendingItem(c, id, os, referred), v)
  {
    var op := At(c, id).retryOp.value;
    var c1 := ClearRetry(c, id);
    var c2 := Redo(c1, id, op, os, referred);
    assert CleanAt(c2, v) by {
      if op == OpAdd {
        AddImplKeeps(c1, id, id);
        assert Lookup(c2, v) == Some(id);
      } else {
        CondemnIndex(EnsurePending(c1), id);
      }
    }
    SetClean(c2, id, At(c2, id).(retryInProgress := true, retryOp := Some(op)), v);
  }

  lemma RetryRemoveShut(c: Ctl, w: Vpc, v: Vpc)
    ensures StaysShut(c, RetryRemove(c, w), v)
  {
    RetryRemoveKeeps(c, w, Pointed(c, v));
    UnchangedShut(c, RetryRemove(c, w), v);
  }

  lemma SpendShut(c: Ctl, w: Vpc, count: int, least: int, v: Vpc)
    ensures StaysShut(c, Spend(c, w, count, least), v)
  {
    RetryRemoveShut(SetCount(c, w, count - 1), w, v);
  }

  lemma TellRescue(c: Ctl, id: nat)
    ensures var (s, t) := (At(c, id), UpdatePendingItem(At(c, id), OpUpdateRules));
            !t.retryInProgress && Reindexes(t) <==> !s.retryInProgress && Reindexes(s)
  {
  }

  /** What the retry queue does with the answer decides what is indexed in a shut VPC. */
  lemma RetryDecides(c: Ctl, os: seq<NpOutcome>, referred: bool, v: Vpc)
    requires !c.membershipOnly && AllDominated(c) && Shut(c, v)
    ensures var d := RetryUpdate(c, v, true, OpUpdateRules, os, referred);
            if Rescued(c, v) then CleanAt(d, v) else Shut(d, v) && Lookup(d, v) == Lookup(c, v)
  {
    if Queued(c, v).Some? {
      var i := Queued(c, v).value;
      var c1 := TellItem(c, i.sg, OpUpdateRules);
      TellRescue(c, i.sg);
      TellItemKeeps(c, i.sg, OpUpdateRules, i.sg);
      SetShut(c, i.sg, UpdatePendingItem(At(c, i.sg), OpUpdateRules), v);
      RetryRemoveShut(c1, v, v);
      if At(c1, i.sg).retryOp.Some? && !At(c1, i.sg).retryInProgress {
        var c2 := RunPendingItem(c1, i.sg, os, referred);
        assert At(c1, i.sg).vpc == v;
        if Reindexes(At(c1, i.sg)) {
          RunRescues(c1, i.sg, os, referred, v);
          SpendClean(c2, v, i.count, 1, v);
        } else {
          RunStays(c1, i.sg, os, referred, v);
          SpendShut(c2, v, i.count, 1, v);
        }
      }
    }
  }

  /** The same retry waits in the VPC. */
  predicate SameRescue(c: Ctl, d: Ctl, v: Vpc) {
    Rescued(d, v) <==> Rescued(c, v)
  }

  lemma SetRescue(c: Ctl, id: nat, s: Sg, v: Vpc)
    requires s.vpc == At(c, id).vpc && s.state == At(c, id).state
    requires s.retryOp == At(c, id).retryOp && s.retryInProgress == At(c, id).retryInProgress
    ensures SameRescue(c, Set(c, id, s), v)
  {
  }

  lemma RefreshedRescue(c: Ctl, id: nat, v: Vpc)
    ensures SameRescue(c, RulesRefreshed(c, id), v)
  {
    SetRescue(c, id, At(c, id).(ruleReady := true), v);
  }

  /** The rule answer of a garbage group: the group is indexed, and the same retry waits. */
  lemma LateSuccess(c: Ctl, id: nat, os: seq<NpOutcome>, v: Vpc)
    requires Late(c, id, OpUpdateRules, true) && id < |c.sgs| && v == At(c, id).vpc
    ensures var d := OnSuccess(c, id, OpUpdateRules, os);
            Lookup(d, v) == Some(id) && Shut(d, v) && SameRescue(c, d, v)
  {
    var d := RulesRefreshed(c, id);
    RefreshedRescue(c, id, v);
    assert Lookup(d, v) == Some(id) && At(d, id).state == Garbage;
    SetRescue(d, id, At(d, id).(members := At(d, id).members - {} + {}), v);
    SetShut(d, id, At(d, id).(members := At(d, id).members - {} + {}), v);
  }

  lemma LateSuccessElsewhere(c: Ctl, id: nat, os: seq<NpOutcome>, w: Vpc)
    requires Late(c, id, OpUpdateRules, true) && w != At(c, id).vpc
    ensures Clean(c, OnSuccess(c, id, OpUpdateRules, os), w)
  {
    var d := RulesRefreshed(c, id);
    assert Clean(c, d, w);
    UpdateImplClean(d, id, {}, {}, w);
  }

  lemma ToldRescue(c: Ctl, referred: bool, v: Vpc)
    ensures SameRescue(c, RetryUpdate(c, v, false, OpUpdateRules, [], referred), v)
  {
    if Queued(c, v).Some? { TellRescue(c, Queued(c, v).value.sg); }
  }

  lemma ToldLate(c: Ctl, id: nat, v: Vpc, referred: bool)
    requires Late(c, id, OpUpdateRules, true) && id < |c.sgs|
    ensures var d := RetryUpdate(c, v, false, OpUpdateRules, [], referred);
            Late(d, id, OpUpdateRules, true) && id < |d.sgs| && At(d, id).vpc == At(c, id).vpc
  {
  }

  /** The success actions of a late answer. */
  lemma LateTold(c: Ctl, id: nat, os: seq<NpOutcome>, referred: bool, v: Vpc)
    requires Late(c, id, OpUpdateRules, true) && id < |c.sgs| && v == At(c, id).vpc
    ensures var d := AfterStatus(c, id, OpUpdateRules, true, os, referred);
            Lookup(d, v) == Some(id) && Shut(d, v) && SameRescue(c, d, v)
  {
    var c1 := RetryUpdate(c, v, false, OpUpdateRules, [], referred);
    ToldRescue(c, referred, v);
    ToldLate(c, id, v, referred);
    LateSuccess(c1, id, os, v);
  }

  lemma LateToldElsewhere(c: Ctl, id: nat, os: seq<NpOutcome>, referred: bool, w: Vpc)
    requires AllDominated(c) && Late(c, id, OpUpdateRules, true) && id < |c.sgs| && w != At(c, id).vpc
    ensures Clean(c, AfterStatus(c, id, OpUpdateRules, true, os, referred), w)
  {
    var v := At(c, id).vpc;
    RetryUpdateClean(c, v, false, OpUpdateRules, [], referred, w);
    ToldLate(c, id, v, referred);
    LateSuccessElsewhere(RetryUpdate(c, v, false, OpUpdateRules, [], referred), id, os, w);
  }

  lemma UpdateAnpsShut(c: Ctl, id: nat, os: seq<NpOutcome>, v: Vpc)
    ensures StaysShut(c, UpdateAnps(c, id, os), v)
  {
    UpdateAnpsKeeps(c, id, os, Pointed(c, v));
    UnchangedShut(c, UpdateAnps(c, id, os), v);
  }

  /** A late answer leaves its garbage group indexed, unless a retry it sets off re-indexes the VPC. */
  predicate Decided(c: Ctl, d: Ctl, id: nat, v: Vpc) {
    if Rescued(c, v) then CleanAt(d, v) else Lookup(d, v) == Some(id) && Shut(d, v)
  }

  lemma LateNotifies(c: Ctl, id: nat, os: seq<NpOutcome>, retryOs: seq<NpOutcome>, drain: seq<NpOutcome>, referred: bool)
    requires Late(c, id, OpUpdateRules, true)
    ensures var c2 := AfterStatus(c, id, OpUpdateRules, true, os, referred);
            var d := RetryUpdate(c2, At(c, id).vpc, true, OpUpdateRules, retryOs, referred);
            Notify(c, id, OpUpdateRules, true, os, retryOs, drain, referred) == UpdateAnps(d, id, drain)
  {
    assert SetStatus(c, id, OpUpdateRules, true) == c;
    var c2 := AfterStatus(c, id, OpUpdateRules, true, os, referred);
    assert At(c2, id).vpc == At(c, id).vpc by {
      AfterStatusVpc(c, id, os, referred);
    }
  }

  lemma AfterStatusVpc(c: Ctl, id: nat, os: seq<NpOutcome>, referred: bool)
    requires Late(c, id, OpUpdateRules, true)
    ensures At(AfterStatus(c, id, OpUpdateRules, true, os, referred), id).vpc == At(c, id).vpc
  {
    var v := At(c, id).vpc;
    var c1 := RetryUpdate(c, v, false, OpUpdateRules, [], referred);
    assert At(c1, id).vpc == v && At(c1, id).state == Garbage;
    var c2 := RulesRefreshed(c1, id);
    assert At(c2, id) == At(Set(c1, id, At(c1, id).(ruleReady := true)), id);
    UpdatedVpc(c2, id);
  }

  lemma UpdatedVpc(c: Ctl, id: nat)
    ensures At(UpdateImpl(c, id, {}, {}), id).vpc == At(c, id).vpc
  {
    var d := Set(c, id, At(c, id).(members := At(c, id).members - {} + {}));
    assert At(Issue(d, id, SetMembers), id) == At(Set(d, id, Record(At(d, id), SetMembers)), id);
  }

  lemma LateDecides(c: Ctl, id: nat, os: seq<NpOutcome>, retryOs: seq<NpOutcome>, drain: seq<NpOutcome>, referred: bool, v: Vpc)
    requires AllDominated(c) && Late(c, id, OpUpdateRules, true) && id < |c.sgs| && v == At(c, id).vpc
    ensures Decided(c, Notify(c, id, OpUpdateRules, true, os, retryOs, drain, referred), id, v)
  {
    var c2 := AfterStatus(c, id, OpUpdateRules, true, os, referred);
    LateTold(c, id, os, referred, v);
    forall k: nat ensures Dominated(At(c2, k)) { AfterStatusKeeps(c, id, OpUpdateRules, true, os, referred, k); }
    RetryDecides(c2, retryOs, referred, v);
    var c3 := RetryUpdate(c2, v, true, OpUpdateRules, retryOs, referred);
    UpdateAnpsShut(c3, id, drain, v);
    UpdateAnpsClean(c3, id, drain, v);
    LateNotifies(c, id, os, retryOs, drain, referred);
  }

  lemma LateElsewhere(c: Ctl, id: nat, os: seq<NpOutcome>, retryOs: seq<NpOutcome>, drain: seq<NpOutcome>, referred: bool, w: Vpc)
    requires AllDominated(c) && Late(c, id, OpUpdateRules, true) && id < |c.sgs| && w != At(c, id).vpc
    ensures Clean(c, Notify(c, id, OpUpdateRules, true, os, retryOs, drain, referred), w)
  {
    var v := At(c, id).vpc;
    var c2 := AfterStatus(c, id, OpUpdateRules, true, os, referred);
    LateToldElsewhere(c, id, os, referred, w);
    forall k: nat ensures Dominated(At(c2, k)) { AfterStatusKeeps(c, id, OpUpdateRules, true, os, referred, k); }
    RetryUpdateClean(c2, v, true, OpUpdateRules, retryOs, referred, w);
    UpdateAnpsClean(RetryUpdate(c2, v, true, OpUpdateRules, retryOs, referred), id, drain, w);
    LateNotifies(c, id, os, retryOs, drain, referred);
  }

  lemma LandSame(c: Ctl, k: nat, v: Vpc)
    requires k < |c.flight|
    ensures Lookup(Land(c, k), v) == Lookup(c, v) && SameRescue(c, Land(c, k), v) && Clean(c, Land(c, k), v)
  {
  }

  /** The event as a step: the garbage object exists, since numbers never handed out are not garbage. */
  lemma LateStep(c: Ctl, e: Event, w: Vpc)
    requires AllDominated(c) && LateEvent(c, e)
    ensures var (id, d) := (c.flight[e.k].sg, Step(c, e));
            if w == At(c, id).vpc then Decided(c, d, id, w) else Clean(c, d, w)
  {
    var (d, id) := (Land(c, e.k), c.flight[e.k].sg);
    forall k: nat ensures Dominated(At(d, k)) { LandKeeps(c, e.k, k); }
    LandSame(c, e.k, w);
    if w == At(c, id).vpc {
      LateDecides(d, id, e.os, e.retryOs, e.drain, e.isReferred, w);
    } else {
      LateElsewhere(d, id, e.os, e.retryOs, e.drain, e.isReferred, w);
    }
  }

  /** The event is a late answer of a rule update that no retry makes good. */
  predicate Breaks(c: Ctl, e: Event) {
    LateEvent(c, e) && !Rescued(c, At(c, c.flight[e.k].sg).vpc)
  }

  /**
   * A step puts a garbage group into a clean index exactly when it is the answer of a rule update that comes
   * late, and no retry that answer sets off re-indexes the VPC.
   */
  lemma IndexBreaksExactly(c: Ctl, e: Event)
    requires AllDominated(c) && IndexClean(c)
    ensures !IndexClean(Step(c, e)) <==> Breaks(c, e)
  {
    if Breaks(c, e) {
      LateStep(c, e, At(c, c.flight[e.k].sg).vpc);
      assert !CleanAt(Step(c, e), At(c, c.flight[e.k].sg).vpc);
    } else {
      forall w: Vpc ensures CleanAt(Step(c, e), w) {
        assert CleanAt(c, w);
        if LateEvent(c, e) { LateStep(c, e, w); } else { StepClean(c, e, w); }
      }
    }
  }

  /** No such answer comes in the run. */
  predicate NeverBreaks(c: Ctl, es: seq<Event>)
    decreases es
  {
    es == [] || (!Breaks(c, es[0]) && NeverBreaks(Step(c, es[0]), es[1..]))
  }

  /** No garbage group is indexed at any point of the run. */
  ghost predicate CleanThroughout(c: Ctl, es: seq<Event>)
    decreases es
  {
    IndexClean(c) && (es == [] || CleanThroughout(Step(c, es[0]), es[1..]))
  }

  /** A run that starts with a clean index keeps it clean at every point exactly when no such answer comes. */
  lemma {:induction false} IndexStaysClean(c: Ctl, es: seq<Event>)
    requires AllDominated(c) && IndexClean(c)
    ensures CleanThroughout(c, es) <==> NeverBreaks(c, es)
    decreases es
  {
    if es != [] {
      var d := Step(c, es[0]);
      IndexBreaksExactly(c, es[0]);
      forall k: nat ensures Dominated(At(d, k)) { StepKeeps(c, es[0], k); }
      if IndexClean(d) { IndexStaysClean(d, es[1..]); }
    }
  }
}
