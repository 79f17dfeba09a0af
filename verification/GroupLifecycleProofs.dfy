/** What every run of the group life cycle keeps, and what it can get stuck on. */
module GroupLifecycleProofs {
  import opened Wrappers
  import opened GroupLifecycle

  // ---------------------------------------------------------------------------------------------
  // Deletion dominates: followed for one object `q`, whichever it is
  // ---------------------------------------------------------------------------------------------

  /** Garbage retries nothing but its deletion; it was deleted in the cloud only then, and only deleted then. */
  predicate Dominated(s: Sg) {
    && (s.state == Garbage ==> s.retryOp == None || s.retryOp == Some(OpDelete))
    && s.garbageCalls == 0
    && s.liveDeletes == 0
  }

  /** INIT to CREATED to GARBAGE, or INIT to GARBAGE, and never back. */
  predicate Leads(a: State, b: State) {
    a == b || a == Init || b == Garbage
  }

  /** The object stays dominated and moves forward only; its VPC, its key, never changes. */
  predicate Keeps(c: Ctl, d: Ctl, q: nat) {
    && (Dominated(At(c, q)) ==> Dominated(At(d, q)) && Leads(At(c, q).state, At(d, q).state))
    && (q < |c.sgs| ==> q < |d.sgs| && At(d, q).vpc == At(c, q).vpc)
  }

  /** `Keeps`, with the state of `q` unchanged. */
  predicate Holds(c: Ctl, d: Ctl, q: nat) {
    Keeps(c, d, q) && At(d, q).state == At(c, q).state
  }

  lemma SetKeeps(c: Ctl, id: nat, s: Sg, q: nat)
    requires Dominated(At(c, id)) ==> Dominated(s) && Leads(At(c, id).state, s.state)
    requires s.vpc == At(c, id).vpc
    ensures Keeps(c, Set(c, id, s), q)
    ensures s.state == At(c, id).state ==> Holds(c, Set(c, id, s), q)
  {
  }

  lemma IssueKeeps(c: Ctl, id: nat, call: Call, q: nat)
    requires id < |c.sgs| ==> (call == Delete <==> At(c, id).state == Garbage)
    ensures Holds(c, Issue(c, id, call), q)
  {
    if id < |c.sgs| { SetKeeps(c, id, Record(At(c, id), call), q); }
  }

  lemma AddImplKeeps(c: Ctl, id: nat, q: nat)
    requires At(c, id).state != Garbage
    ensures Holds(c, AddImpl(c, id), q)
  {
    if c.synced && At(c, id).retryOp.None? {
      var c1 := c.(indexer := Filed(c, id));
      var s := At(c, id).(status := InProgress);
      SetKeeps(c1, id, s, q);
      IssueKeeps(Set(c1, id, s), id, Create, q);
    }
  }

  lemma RetryRemoveKeeps(c: Ctl, v: Vpc, q: nat)
    ensures Holds(c, RetryRemove(c, v), q)
  {
    if Queued(c, v).Some? {
      var id := Queued(c, v).value.sg;
      SetKeeps(c, id, At(c, id).(retryOp := None), q);
    }
  }

  lemma IssueDeleteKeeps(c: Ctl, id: nat, q: nat)
    requires c.pend.Some? && (id < |c.sgs| ==> At(c, id).state == Garbage)
    ensures Holds(c, IssueDelete(c, id), q)
  {
    var c1 := CountDelete(c);
    var s := At(c, id).(status := InProgress);
    SetKeeps(c1, id, s, q);
    IssueKeeps(Set(c1, id, s), id, Delete, q);
  }

  lemma UnindexKeeps(c: Ctl, v: Vpc, q: nat)
    ensures Holds(c, Unindex(c, v), q)
  {
    RetryRemoveKeeps(c.(indexer := c.indexer - {v}), v, q);
  }

  lemma ClearRetryKeeps(c: Ctl, id: nat, q: nat)
    ensures Holds(c, ClearRetry(c, id), q)
  {
    SetKeeps(c, id, At(c, id).(retryOp := None), q);
  }

  lemma MarkGarbageKeeps(c: Ctl, id: nat, q: nat)
    ensures Keeps(c, MarkGarbage(c, id), q)
  {
    SetKeeps(c, id, At(c, id).(retryOp := None, state := Garbage), q);
  }

  lemma CondemnKeeps(c: Ctl, id: nat, q: nat)
    requires c.pend.Some?
    ensures Keeps(c, Condemn(c, id), q)
  {
    var c1 := Unindex(c, At(c, id).vpc);
    UnindexKeeps(c, At(c, id).vpc, q);
    ClearRetryKeeps(c1, id, q);
    MarkGarbageKeeps(c1, id, q);
    IssueDeleteKeeps(MarkGarbage(c1, id), id, q);
  }

  lemma DeleteImplKeeps(c: Ctl, id: nat, referred: bool, q: nat)
    ensures Keeps(c, DeleteImpl(c, id, referred), q)
  {
    var c1 := EnsurePending(c);
    if At(c, id).state != Garbage {
      SetKeeps(c1, id, At(c, id).(deletePending := true), q);
      CondemnKeeps(c1, id, q);
    } else if At(c, id).retryOp.None? {
      IssueDeleteKeeps(c1, id, q);
    }
  }

  lemma UpdateImplKeeps(c: Ctl, id: nat, added: set<Member>, removed: set<Member>, q: nat)
    ensures Holds(c, UpdateImpl(c, id, added, removed), q)
  {
    var s := At(c, id);
    var s' := s.(members := s.members - removed + added);
    SetKeeps(c, id, s', q);
    if s.state == Created { IssueKeeps(Set(c, id, s'), id, SetMembers, q); }
  }

  lemma ClearMembersKeeps(c: Ctl, id: nat, q: nat)
    requires At(c, id).state != Garbage
    ensures Holds(c, ClearMembersImpl(c, id), q)
  {
    IssueKeeps(c, id, ClearMembers, q);
    SetKeeps(c, id, At(c, id).(ruleReady := false), q);
  }

  lemma StartRulesKeeps(c: Ctl, id: nat, q: nat)
    requires At(c, id).state == Created
    ensures Holds(c, Issue(Set(c, id, At(c, id).(cloudOpInProgress := true)), id, UpdateRules), q)
  {
    var s := At(c, id).(cloudOpInProgress := true);
    SetKeeps(c, id, s, q);
    IssueKeeps(Set(c, id, s), id, UpdateRules, q);
  }

  lemma UpdateAnpRulesKeeps(c: Ctl, id: nat, o: NpOutcome, q: nat)
    ensures Holds(c, UpdateAnpRules(c, id, o), q)
  {
    if At(c, id).state == Created {
      match o
      case NoPolicies => ClearMembersKeeps(c, id, q);
      case ComputeError => SetKeeps(c, id, At(c, id).(status := Failed), q);
      case NoDelta => IssueKeeps(c, id, NoRuleChange, q);
      case Delta => StartRulesKeeps(c, id, q);
      case NotReady =>
    }
  }

  lemma {:induction false} UpdateAnpsKeeps(c: Ctl, id: nat, os: seq<NpOutcome>, q: nat)
    ensures Holds(c, UpdateAnps(c, id, os), q)
    decreases os
  {
    if os != [] {
      UpdateAnpRulesKeeps(c, id, os[0], q);
      UpdateAnpsKeeps(UpdateAnpRules(c, id, os[0]), id, os[1..], q);
    }
  }

  lemma UpdateAllRulesKeeps(c: Ctl, id: nat, os: seq<NpOutcome>, q: nat)
    ensures Holds(c, UpdateAllRules(c, id, os), q)
  {
    if At(c, id).state == Created {
      ClearMembersKeeps(c, id, q);
      UpdateAnpsKeeps(c, id, os, q);
    }
  }

  lemma RedoKeeps(c: Ctl, id: nat, op: Op, os: seq<NpOutcome>, referred: bool, q: nat)
    requires At(c, id).state == Garbage ==> op == OpDelete
    ensures Keeps(c, Redo(c, id, op, os, referred), q)
    ensures op != OpDelete ==> Holds(c, Redo(c, id, op, os, referred), q)
  {
    match op
    case OpAdd => AddImplKeeps(c, id, q);
    case OpUpdateMembers => UpdateImplKeeps(c, id, {}, {}, q);
    case OpDelete => DeleteImplKeeps(c, id, referred, q);
    case _ => UpdateAllRulesKeeps(c, id, os, q);
  }

  lemma RunPendingItemKeeps(c: Ctl, id: nat, os: seq<NpOutcome>, referred: bool, q: nat)
    requires At(c, id).retryOp.Some? && Dominated(At(c, id))
    ensures Keeps(c, RunPendingItem(c, id, os, referred), q)
  {
    var op := At(c, id).retryOp.value;
    var c1 := ClearRetry(c, id);
    var c2 := Redo(c1, id, op, os, referred);
    ClearRetryKeeps(c, id, q);
    RedoKeeps(c1, id, op, os, referred, q);
    RedoKeeps(c1, id, op, os, referred, id);
    SetKeeps(c2, id, At(c2, id).(retryInProgress := true, retryOp := Some(op)), q);
  }

  lemma SpendKeeps(c: Ctl, v: Vpc, count: int, least: int, q: nat)
    ensures Keeps(c, Spend(c, v, count, least), q)
  {
    RetryRemoveKeeps(SetCount(c, v, count - 1), v, q);
  }

  lemma TellItemKeeps(c: Ctl, id: nat, op: Op, q: nat)
    ensures Keeps(c, TellItem(c, id, op), q)
  {
    SetKeeps(c, id, UpdatePendingItem(At(c, id), op), q);
  }

  /** Every object of the system is dominated. */
  ghost predicate AllDominated(c: Ctl) {
    forall q: nat :: Dominated(At(c, q))
  }

  lemma RetryUpdateKeeps(c: Ctl, v: Vpc, checkRun: bool, op: Op, os: seq<NpOutcome>, referred: bool, q: nat)
    requires AllDominated(c)
    ensures Keeps(c, RetryUpdate(c, v, checkRun, op, os, referred), q)
  {
    if Queued(c, v).Some? {
      var i := Queued(c, v).value;
      var c1 := TellItem(c, i.sg, op);
      TellItemKeeps(c, i.sg, op, q);
      TellItemKeeps(c, i.sg, op, i.sg);
      RetryRemoveKeeps(c1, v, q);
      if At(c1, i.sg).retryOp.Some? {
        RunPendingItemKeeps(c1, i.sg, os, referred, q);
        SpendKeeps(RunPendingItem(c1, i.sg, os, referred), v, i.count, 1, q);
      }
    }
  }

  lemma RetrySweepKeeps(c: Ctl, v: Vpc, os: seq<NpOutcome>, referred: bool, q: nat)
    requires AllDominated(c)
    ensures Keeps(c, RetrySweep(c, v, os, referred), q)
  {
    if Queued(c, v).Some? {
      var i := Queued(c, v).value;
      RetryRemoveKeeps(c, v, q);
      SpendKeeps(c, v, i.count, 0, q);
      if At(c, i.sg).retryOp.Some? {
        RunPendingItemKeeps(c, i.sg, os, referred, q);
        SpendKeeps(RunPendingItem(c, i.sg, os, referred), v, i.count, 0, q);
      }
    }
  }

  lemma NewGroupKeeps(c: Ctl, v: Vpc, ms: set<Member>, q: nat)
    ensures Keeps(c, AddImpl(NewGroup(c, v, ms), |c.sgs|), q)
  {
    AddImplKeeps(NewGroup(c, v, ms), |c.sgs|, q);
  }

  lemma {:induction false} AddPassKeeps(c: Ctl, vs: seq<Vpc>, added: set<Member>, removed: set<Member>, left: set<Vpc>, q: nat)
    ensures Keeps(c, AddPass(c, vs, added, removed, left).0, q)
    decreases vs
  {
    if vs != [] {
      var v := vs[0];
      var ms := InVpc(c, added, v);
      if ms == {} {
        AddPassKeeps(c, vs[1..], added, removed, left, q);
      } else if Lookup(c, v).None? {
        NewGroupKeeps(c, v, ms, q);
        AddPassKeeps(AddImpl(NewGroup(c, v, ms), |c.sgs|), vs[1..], added, removed, left, q);
      } else if At(c, Lookup(c, v).value).members == ms {
        AddPassKeeps(c, vs[1..], added, removed, left, q);
      } else {
        var d := UpdateImpl(c, Lookup(c, v).value, ms, InVpc(c, removed, v));
        UpdateImplKeeps(c, Lookup(c, v).value, ms, InVpc(c, removed, v), q);
        AddPassKeeps(d, vs[1..], added, removed, left - {v}, q);
      }
    }
  }

  lemma {:induction false} RemovePassKeeps(c: Ctl, vs: seq<Vpc>, removed: set<Member>, left: set<Vpc>, q: nat)
    ensures Keeps(c, RemovePass(c, vs, removed, left), q)
    decreases vs
  {
    if vs != [] {
      var v := vs[0];
      var ms := InVpc(c, removed, v);
      if ms == {} || v !in left || Lookup(c, v).None? {
        RemovePassKeeps(c, vs[1..], removed, left, q);
      } else {
        UpdateImplKeeps(c, Lookup(c, v).value, {}, ms, q);
        RemovePassKeeps(UpdateImpl(c, Lookup(c, v).value, {}, ms), vs[1..], removed, left, q);
      }
    }
  }

  lemma ApplyMembersKeeps(c: Ctl, added: set<Member>, removed: set<Member>, q: nat)
    ensures Keeps(c, ApplyMembers(c, added, removed), q)
  {
    var pass := AddPass(c, c.vpcs, added, removed, set v <- c.vpcs);
    AddPassKeeps(c, c.vpcs, added, removed, (set v <- c.vpcs), q);
    RemovePassKeeps(pass.0, c.vpcs, removed, pass.1, q);
  }

  lemma {:induction false} DeletePassKeeps(c: Ctl, vs: seq<Vpc>, env: Env, q: nat)
    ensures Keeps(c, DeletePass(c, vs, env), q)
    decreases vs
  {
    if vs != [] {
      if Lookup(c, vs[0]).None? || Spared(c, vs[0], env) {
        DeletePassKeeps(c, vs[1..], env, q);
      } else {
        var d := DeleteImpl(c, Lookup(c, vs[0]).value, vs[0] in env.referred);
        DeleteImplKeeps(c, Lookup(c, vs[0]).value, vs[0] in env.referred, q);
        DeletePassKeeps(d, vs[1..], env, q);
      }
    }
  }

  lemma ProcessGroupKeeps(c: Ctl, e: GroupEvent, env: Env, q: nat)
    ensures Keeps(c, ProcessGroup(c, e, env), q)
  {
    if c.pend.None? {
      match e
      case Added(a) => ApplyMembersKeeps(c, a, {}, q);
      case Modified(a, r) => ApplyMembersKeeps(c, a, r, q);
      case Deleted => DeletePassKeeps(c, c.vpcs, env, q);
    }
  }

  lemma ReplayItemKeeps(c: Ctl, p: PendingGroup, q: nat)
    ensures Keeps(c, ReplayItem(c, p), q)
  {
    var replay := Replay(p.added, p.hist, DeletesIn(c.flight));
    ProcessGroupKeeps(c.(pend := None, replays := c.replays + [replay]), Added(p.added), Env({}, {}), q);
  }

  lemma SameSgsKeeps(c: Ctl, d: Ctl, q: nat)
    requires d.sgs == c.sgs
    ensures Keeps(c, d, q)
  {
  }

  lemma PendingDeleteKeeps(c: Ctl, moreOps: bool, q: nat)
    ensures Keeps(c, PendingDeleteAnswered(c, moreOps), q)
  {
    if c.pend.Some? {
      var p := Uncount(c.pend.value, moreOps);
      SameSgsKeeps(c, c.(pend := Some(p)), q);
      SameSgsKeeps(c, c.(pend := None), q);
      ReplayItemKeeps(c, p, q);
    }
  }

  lemma QueueRetryKeeps(c: Ctl, id: nat, op: Op, q: nat)
    ensures Keeps(c, QueueRetry(c, id, op), q)
  {
    if !(At(c, id).state == Garbage && op != OpDelete) {
      SetKeeps(c, id, At(c, id).(retryOp := Some(op)), q);
    }
  }

  lemma RetriedKeeps(c: Ctl, id: nat, op: Op, ok: bool, os: seq<NpOutcome>, referred: bool, q: nat)
    requires AllDominated(c)
    ensures Keeps(c, Retried(c, id, op, ok, os, referred), q)
  {
    if ok {
      RetryUpdateKeeps(c, At(c, id).vpc, true, op, os, referred, q);
    } else {
      var c1 := QueueRetry(c, id, op);
      forall k: nat ensures Dominated(At(c1, k)) { QueueRetryKeeps(c, id, op, k); }
      QueueRetryKeeps(c, id, op, q);
      RetryUpdateKeeps(c1, At(c, id).vpc, false, op, os, referred, q);
    }
  }

  lemma NotifyImplKeeps(c: Ctl, id: nat, op: Op, ok: bool, os: seq<NpOutcome>, referred: bool, q: nat)
    requires AllDominated(c)
    ensures Keeps(c, NotifyImpl(c, id, op, ok, os, referred), q)
  {
    var c1 := Retried(c, id, op, ok, os, referred);
    RetriedKeeps(c, id, op, ok, os, referred, q);
    if op == OpDelete { PendingDeleteKeeps(c1, MoreOps(c1, At(c, id).vpc), q); }
  }

  lemma BecomeCreatedKeeps(c: Ctl, id: nat, q: nat)
    ensures Keeps(c, BecomeCreated(c, id), q)
  {
    SetKeeps(c, id, At(c, id).(state := if At(c, id).state == Init then Created else At(c, id).state), q);
  }

  lemma RulesRefreshedKeeps(c: Ctl, id: nat, q: nat)
    ensures Keeps(c, RulesRefreshed(c, id), q)
  {
    SetKeeps(c, id, At(c, id).(ruleReady := true), q);
  }

  lemma OnSuccessKeeps(c: Ctl, id: nat, op: Op, os: seq<NpOutcome>, q: nat)
    ensures Keeps(c, OnSuccess(c, id, op, os), q)
  {
    match op
    case OpAdd =>
      BecomeCreatedKeeps(c, id, q);
      UpdateImplKeeps(BecomeCreated(c, id), id, {}, {}, q);
      UpdateAllRulesKeeps(BecomeCreated(c, id), id, os, q);
    case OpUpdateMembers =>
      SetKeeps(c, id, At(c, id).(hasMembers := true), q);
    case OpUpdateRules =>
      RulesRefreshedKeeps(c, id, q);
      UpdateImplKeeps(RulesRefreshed(c, id), id, {}, {}, q);
    case OpClearMembers =>
      SetKeeps(c, id, At(c, id).(hasMembers := false), q);
      UpdateAllRulesKeeps(SetHasMembers(c, id, false), id, os, q);
    case OpDelete =>
  }

  lemma SetStatusKeeps(c: Ctl, id: nat, op: Op, ok: bool, q: nat)
    ensures Keeps(c, SetStatus(c, id, op, ok), q)
  {
    SetKeeps(c, id, At(c, id).(status := if ok then StatusOk else Failed), q);
  }

  lemma AfterStatusKeeps(c: Ctl, id: nat, op: Op, ok: bool, os: seq<NpOutcome>, referred: bool, q: nat)
    requires AllDominated(c)
    ensures Keeps(c, AfterStatus(c, id, op, ok, os, referred), q)
  {
    var v := At(c, id).vpc;
    RetryUpdateKeeps(c, v, false, op, [], referred, q);
    OnSuccessKeeps(RetryUpdate(c, v, false, op, [], referred), id, op, os, q);
  }

  lemma NotifyKeeps(c: Ctl, id: nat, op: Op, ok: bool, os: seq<NpOutcome>, retryOs: seq<NpOutcome>,
                    drain: seq<NpOutcome>, referred: bool, q: nat)
    requires AllDominated(c)
    ensures Keeps(c, Notify(c, id, op, ok, os, retryOs, drain, referred), q)
  {
    var c1 := SetStatus(c, id, op, ok);
    forall k: nat ensures Dominated(At(c1, k)) { SetStatusKeeps(c, id, op, ok, k); }
    SetStatusKeeps(c, id, op, ok, q);
    var c2 := AfterStatus(c1, id, op, ok, os, referred);
    forall k: nat ensures Dominated(At(c2, k)) { AfterStatusKeeps(c1, id, op, ok, os, referred, k); }
    AfterStatusKeeps(c1, id, op, ok, os, referred, q);
    NotifyImplKeeps(c2, id, op, ok, retryOs, referred, q);
    UpdateAnpsKeeps(NotifyImpl(c2, id, op, ok, retryOs, referred), id, drain, q);
  }

  lemma LandKeeps(c: Ctl, k: nat, q: nat)
    requires k < |c.flight| && AllDominated(c)
    ensures AllDominated(Land(c, k)) && At(Land(c, k), q) == At(c, q)
  {
    forall j: nat ensures Dominated(At(Land(c, k), j)) { assert At(Land(c, k), j) == At(c, j); }
  }

  lemma RespondKeeps(c: Ctl, k: nat, op: Op, ok: bool, os: seq<NpOutcome>, retryOs: seq<NpOutcome>,
                     drain: seq<NpOutcome>, referred: bool, q: nat)
    requires AllDominated(c)
    ensures Keeps(c, Respond(c, k, op, ok, os, retryOs, drain, referred), q)
  {
    if k < |c.flight| && Answers(c.flight[k].call, op, ok) {
      LandKeeps(c, k, q);
      NotifyKeeps(Land(c, k), c.flight[k].sg, op, ok, os, retryOs, drain, referred, q);
    }
  }

  lemma QuietStepKeeps(c: Ctl, e: Event, q: nat)
    requires AllDominated(c)
    ensures Keeps(c, QuietStep(c, e), q)
  {
    match e
    case Sweep(v, os, referred) => RetrySweepKeeps(c, v, os, referred, q);
    case Policy(id, o) => UpdateAnpRulesKeeps(c, id, o, q);
    case RulesDone(id) => SetKeeps(c, id, At(c, id).(cloudOpInProgress := false), q);
    case RefDropped(v, referred) => if Lookup(c, v).Some? { DeleteImplKeeps(c, Lookup(c, v).value, referred, q); }
    case _ =>
  }

  lemma StepKeeps(c: Ctl, e: Event, q: nat)
    requires AllDominated(c)
    ensures Keeps(c, Step(c, e), q)
  {
    match e
    case Group(g, env) => ProcessGroupKeeps(c, g, env, q);
    case Response(k, op, ok, os, retryOs, drain, referred) =>
      RespondKeeps(c, k, op, ok, os, retryOs, drain, referred, q);
    case _ => QuietStepKeeps(c, e, q);
  }

  /**
   * Deletion dominates, over every run: groups move only INIT to CREATED to GARBAGE or INIT to GARBAGE;
   * in GARBAGE nothing but the deletion is retried and no call but deletes is issued, whatever late
   * responses, retries and policy events come; and no delete is issued before.
   */
  lemma {:induction false} DeletionDominates(c: Ctl, es: seq<Event>, q: nat)
    requires AllDominated(c)
    ensures AllDominated(Run(c, es))
    ensures Leads(At(c, q).state, At(Run(c, es), q).state)
    decreases es
  {
    if es != [] {
      var d := Step(c, es[0]);
      forall k: nat ensures Dominated(At(d, k)) { StepKeeps(c, es[0], k); }
      StepKeeps(c, es[0], q);
      DeletionDominates(d, es[1..], q);
    }
  }

  lemma {:induction false} RunAppend(c: Ctl, es: seq<Event>, e: Event)
    ensures Run(c, es + [e]) == Step(Run(c, es), e)
    decreases es
  {
    if es == [] {
      assert [e][1..] == [] && es + [e] == [e];
    } else {
      assert (es + [e])[1..] == es[1..] + [e];
      RunAppend(Step(c, es[0]), es[1..], e);
    }
  }

  lemma {:induction false} RunConcat(c: Ctl, a: seq<Event>, b: seq<Event>)
    ensures Run(c, a + b) == Run(Run(c, a), b)
    decreases a
  {
    if a == [] {
      assert a + b == b;
    } else {
      assert (a + b)[1..] == a[1..] + b;
      RunConcat(Step(c, a[0]), a[1..], b);
    }
  }
}
