/** Failed calls: each is made again, three times at most, and a retry that goes through is the last one. */
module GroupRetryProofs {
  import opened Wrappers
  import opened GroupLifecycle
  import opened GroupLifecycleProofs
  import opened GroupReplayProofs

  /** The call that redoes an operation. */
  function CallFor(op: Op): Call {
    match op
    case OpAdd => Create
    case OpUpdateMembers => SetMembers
    case OpClearMembers => ClearMembers
    case OpUpdateRules => UpdateRules
    case OpDelete => Delete
  }

  predicate Holds(c: Ctl, id: nat, op: Op, n: int) {
    id < |c.sgs| && Queued(c, At(c, id).vpc) == Some(RetryItem(id, n)) && At(c, id).retryOp == Some(op)
  }

  /** The operation failed and `n` retries are left. */
  predicate Waits(c: Ctl, id: nat, op: Op, n: int) {
    Holds(c, id, op, n) && !At(c, id).retryInProgress
  }

  /** The operation is being retried, with `n` retries left after this one. */
  predicate Retries(c: Ctl, id: nat, op: Op, n: int) {
    Holds(c, id, op, n) && At(c, id).retryInProgress
  }

  /** Nothing is retried for the group, and nothing waits in its VPC. */
  predicate Quiet(c: Ctl, id: nat) {
    id < |c.sgs| && Queued(c, At(c, id).vpc).None? && At(c, id).retryOp.None?
  }

  /** The operation still makes sense: what it needs of the group, and of the policies a rule update finds. */
  predicate Redoable(synced: bool, membershipOnly: bool, s: Sg, op: Op, os: seq<NpOutcome>) {
    match op
    case OpAdd => synced && s.state != Garbage
    case OpUpdateMembers => s.state == Created && s.members != {}
    case OpClearMembers => !membershipOnly && s.state == Created && s.hasMembers && os == []
    case OpUpdateRules => !membershipOnly && s.state == Created && !s.deletePending && !s.cloudOpInProgress && os == [Delta]
    case OpDelete => s.state == Garbage
  }

  // ---------------------------------------------------------------------------------------------
  // One round
  // ---------------------------------------------------------------------------------------------

  lemma IssueQuiet(c: Ctl, id: nat, call: Call, q: nat)
    ensures var (r, s, t) := (Issue(c, id, call), At(c, q), At(Issue(c, id, call), q));
            && r.retryQueue == c.retryQueue && r.flight == c.flight + [Flight(id, call)]
            && t == s.(liveDeletes := t.liveDeletes, garbageCalls := t.garbageCalls)
  {
    var d := Set(c, id, Record(At(c, id), call));
    assert At(Issue(c, id, call), q) == At(d, q);
  }

  /** What redoing leaves of the group itself: what decides about retries. */
  predicate SameGroup(s: Sg, t: Sg) {
    && t.vpc == s.vpc && t.state == s.state && t.retryOp == s.retryOp && t.retryInProgress == s.retryInProgress
    && t.members == s.members && t.hasMembers == s.hasMembers && t.deletePending == s.deletePending
  }

  /** The call was made for the group, and nothing that concerns retries changed. */
  predicate Called(c: Ctl, r: Ctl, id: nat, call: Call) {
    && r.flight == c.flight + [Flight(id, call)] && SameGroup(At(c, id), At(r, id)) && |r.sgs| == |c.sgs|
    && r == c.(sgs := r.sgs, flight := r.flight, pend := r.pend, indexer := r.indexer)
  }

  lemma IssueCalls(c: Ctl, d: Ctl, id: nat, call: Call)
    requires SameGroup(At(c, id), At(d, id)) && d.flight == c.flight && |d.sgs| == |c.sgs|
    requires d == c.(sgs := d.sgs, pend := d.pend, indexer := d.indexer)
    ensures Called(c, Issue(d, id, call), id, call)
  {
    IssueQuiet(d, id, call, id);
  }

  lemma RedoMembers(c: Ctl, id: nat)
    requires id < |c.sgs| && At(c, id).retryOp.None? && Redoable(c.synced, c.membershipOnly, At(c, id), OpUpdateMembers, [])
    ensures Called(c, UpdateImpl(c, id, {}, {}), id, SetMembers)
  {
    var s := At(c, id);
    assert s.members - {} + {} == s.members;
    IssueCalls(c, Set(c, id, s.(members := s.members - {} + {})), id, SetMembers);
  }

  lemma RedoRules(c: Ctl, id: nat)
    requires id < |c.sgs| && At(c, id).retryOp.None? && Redoable(c.synced, c.membershipOnly, At(c, id), OpUpdateRules, [Delta])
    ensures Called(c, UpdateAllRules(c, id, [Delta]), id, UpdateRules)
  {
    var d := Set(c, id, At(c, id).(cloudOpInProgress := true));
    assert [Delta][1..] == [];
    assert UpdateAllRules(c, id, [Delta]) == Issue(d, id, UpdateRules);
    IssueCalls(c, d, id, UpdateRules);
  }

  lemma RedoDelete(c: Ctl, id: nat, referred: bool)
    requires id < |c.sgs| && At(c, id).retryOp.None? && Redoable(c.synced, c.membershipOnly, At(c, id), OpDelete, [])
    ensures Called(c, DeleteImpl(c, id, referred), id, Delete)
  {
    var c1 := EnsurePending(c);
    assert At(c1, id) == At(c, id) && At(CountDelete(c1), id) == At(c, id);
    IssueCalls(c, Set(CountDelete(c1), id, At(c, id).(status := InProgress)), id, Delete);
  }

  lemma RedoCreate(c: Ctl, id: nat)
    requires id < |c.sgs| && At(c, id).retryOp.None? && Redoable(c.synced, c.membershipOnly, At(c, id), OpAdd, [])
    ensures Called(c, AddImpl(c, id), id, Create)
  {
    var c1 := c.(indexer := Filed(c, id));
    assert At(c1, id) == At(c, id);
    IssueCalls(c, Set(c1, id, At(c, id).(status := InProgress)), id, Create);
  }

  lemma RedoCalls(c: Ctl, id: nat, op: Op, os: seq<NpOutcome>, referred: bool)
    requires id < |c.sgs| && At(c, id).retryOp.None? && Redoable(c.synced, c.membershipOnly, At(c, id), op, os)
    ensures Called(c, Redo(c, id, op, os, referred), id, CallFor(op))
  {
    match op
    case OpAdd => RedoCreate(c, id);
    case OpUpdateMembers => RedoMembers(c, id);
    case OpClearMembers => IssueCalls(c, c, id, ClearMembers);
    case OpUpdateRules => RedoRules(c, id);
    case OpDelete => RedoDelete(c, id, referred);
  }

  lemma RetryCleared(c: Ctl, id: nat)
    requires id < |c.sgs|
    ensures var r := ClearRetry(c, id);
            At(r, id) == At(c, id).(retryOp := None) && r == c.(sgs := r.sgs) && |r.sgs| == |c.sgs|
  {
  }

  lemma RetryMarked(c: Ctl, id: nat, op: Op)
    requires id < |c.sgs|
    ensures var r := Set(c, id, At(c, id).(retryInProgress := true, retryOp := Some(op)));
            && At(r, id) == At(c, id).(retryInProgress := true, retryOp := Some(op))
            && r == c.(sgs := r.sgs) && |r.sgs| == |c.sgs|
  {
  }

  lemma CalledAndMarked(c: Ctl, c0: Ctl, c1: Ctl, id: nat, op: Op)
    requires id < |c.sgs| && |c0.sgs| == |c.sgs| && c0 == c.(sgs := c0.sgs) && At(c0, id) == At(c, id).(retryOp := None)
    requires At(c, id).retryOp == Some(op) && Called(c0, c1, id, CallFor(op))
    ensures var r := Set(c1, id, At(c1, id).(retryInProgress := true, retryOp := Some(op)));
            && r.flight == c.flight + [Flight(id, CallFor(op))] && SameGroup(At(c, id).(retryInProgress := true), At(r, id))
            && |r.sgs| == |c.sgs| && r == c.(sgs := r.sgs, flight := r.flight, pend := r.pend, indexer := r.indexer)
  {
    RetryMarked(c1, id, op);
  }

  lemma {:induction false} RunCalls(c: Ctl, id: nat, op: Op, os: seq<NpOutcome>, referred: bool)
    requires id < |c.sgs| && At(c, id).retryOp == Some(op) && Redoable(c.synced, c.membershipOnly, At(c, id), op, os)
    ensures var r := RunPendingItem(c, id, os, referred);
            && r.flight == c.flight + [Flight(id, CallFor(op))] && SameGroup(At(c, id).(retryInProgress := true), At(r, id))
            && |r.sgs| == |c.sgs| && r == c.(sgs := r.sgs, flight := r.flight, pend := r.pend, indexer := r.indexer)
  {
    var c0 := ClearRetry(c, id);
    RetryCleared(c, id);
    RedoCalls(c0, id, op, os, referred);
    CalledAndMarked(c, c0, Redo(c0, id, op, os, referred), id, op);
  }

  lemma SweepStep(c: Ctl, id: nat, op: Op, n: int, os: seq<NpOutcome>, referred: bool)
    requires !c.panicked && Waits(c, id, op, n) && n > 0
    ensures var v := At(c, id).vpc;
            Step(c, Sweep(v, os, referred)) == SetCount(RunPendingItem(c, id, os, referred), v, n - 1)
  {
  }

  /** A sweep makes the failed call again and takes one retry off. */
  lemma {:induction false} SweepRedoes(c: Ctl, id: nat, op: Op, n: int, os: seq<NpOutcome>, referred: bool)
    requires !c.panicked && Waits(c, id, op, n) && n > 0 && Redoable(c.synced, c.membershipOnly, At(c, id), op, os)
    ensures var r := Step(c, Sweep(At(c, id).vpc, os, referred));
            && Retries(r, id, op, n - 1) && r.flight == c.flight + [Flight(id, CallFor(op))]
            && !r.panicked && SameGroup(At(c, id).(retryInProgress := true), At(r, id))
            && r.synced == c.synced && r.membershipOnly == c.membershipOnly
  {
    var v := At(c, id).vpc;
    SweepStep(c, id, op, n, os, referred);
    RunCalls(c, id, op, os, referred);
    var c2 := RunPendingItem(c, id, os, referred);
    assert Queued(c2, v) == Some(RetryItem(id, n));
  }

  /** A retry that is under way is left alone. */
  lemma SweepLeavesRetry(c: Ctl, id: nat, op: Op, n: int, os: seq<NpOutcome>, referred: bool)
    requires Retries(c, id, op, n) && n >= 0
    ensures Step(c, Sweep(At(c, id).vpc, os, referred)) == c
  {
  }

  /** With no retry left the next sweep gives up: nothing is called and the group is free again. */
  lemma SweepGivesUp(c: Ctl, id: nat, op: Op, os: seq<NpOutcome>, referred: bool)
    requires !c.panicked && Waits(c, id, op, 0)
    ensures var r := Step(c, Sweep(At(c, id).vpc, os, referred));
            Quiet(r, id) && r.flight == c.flight && SameGroup(At(c, id).(retryOp := None), At(r, id))
  {
    var v := At(c, id).vpc;
    assert Step(c, Sweep(v, os, referred)) == RetryRemove(SetCount(c, v, -1), v);
  }

  /** While something is retried for a group no rule update starts for it. */
  lemma {:induction false} NoRulesMeanwhile(c: Ctl, id: nat, os: seq<NpOutcome>)
    requires At(c, id).retryOp.Some?
    ensures UpdateAnps(c, id, os) == c
    decreases os
  {
    if os != [] { NoRulesMeanwhile(c, id, os[1..]); }
  }

  /** While something is retried for a group, no event makes another call for it; its members still change. */
  lemma RetryHoldsBack(c: Ctl, id: nat, added: set<Member>, removed: set<Member>, os: seq<NpOutcome>, referred: bool)
    requires At(c, id).retryOp.Some? && id < |c.sgs|
    ensures UpdateImpl(c, id, added, removed).flight == c.flight
    ensures At(UpdateImpl(c, id, added, removed), id).members == At(c, id).members - removed + added
    ensures AddImpl(c, id).flight == c.flight && UpdateAllRules(c, id, os) == c && UpdateAnps(c, id, os) == c
    ensures At(c, id).state == Garbage ==> DeleteImpl(c, id, referred).flight == c.flight
  {
    NoRulesMeanwhile(c, id, os);
  }

  lemma LandQuiet(c: Ctl, k: nat, q: nat)
    requires k < |c.flight|
    ensures At(Land(c, k), q) == At(c, q) && Queued(Land(c, k), At(c, q).vpc) == Queued(c, At(c, q).vpc)
  {
    var v := At(c, q).vpc;
    assert At(Land(c, k), q) == At(c, q);
    if v in c.retryQueue { assert At(Land(c, k), c.retryQueue[v].sg) == At(c, c.retryQueue[v].sg); }
  }

  /** The group's answers that count: of a garbage group, those of its deletion. */
  predicate Heard(s: Sg, op: Op) {
    s.state == Garbage ==> op == OpDelete
  }

  /** The failure is on record and queued, or still queued. */
  predicate Recorded(c: Ctl, r: Ctl, id: nat, op: Op, n: int) {
    && At(r, id).cloudOpInProgress == At(c, id).cloudOpInProgress && Waits(r, id, op, n)
    && r == c.(sgs := r.sgs, retryQueue := r.retryQueue)
    && SameGroup(At(c, id).(retryOp := Some(op), retryInProgress := false), At(r, id))
  }

  lemma FailureQueues(c: Ctl, id: nat, op: Op, n: int)
    requires Heard(At(c, id), op) && id < |c.sgs| && At(c, id).status == Failed
    requires (n == RETRY_COUNT && Quiet(c, id)) || Retries(c, id, op, n)
    ensures var r := QueueRetry(c, id, op);
            && Holds(r, id, op, n) && At(r, id) == At(c, id).(retryOp := Some(op))
            && r == c.(sgs := r.sgs, retryQueue := r.retryQueue)
  {
  }

  lemma FailureTold(c: Ctl, id: nat, op: Op, n: int)
    requires Holds(c, id, op, n) && At(c, id).status == Failed
    ensures var r := TellItem(c, id, op);
            Waits(r, id, op, n) && At(r, id) == At(c, id).(retryInProgress := false) && r == c.(sgs := r.sgs)
  {
  }

  lemma StatusFailed(c: Ctl, id: nat, op: Op)
    requires Heard(At(c, id), op) && id < |c.sgs|
    ensures var r := SetStatus(c, id, op, false);
            && At(r, id) == At(c, id).(status := Failed) && Queued(r, At(c, id).vpc) == Queued(c, At(c, id).vpc)
            && r == c.(sgs := r.sgs) && |r.sgs| == |c.sgs|
  {
  }

  lemma StillFree(c: Ctl, d: Ctl, id: nat, op: Op, n: int)
    requires (n == RETRY_COUNT && Quiet(c, id)) || Retries(c, id, op, n)
    requires At(d, id) == At(c, id).(status := Failed) && Queued(d, At(c, id).vpc) == Queued(c, At(c, id).vpc)
    requires |d.sgs| == |c.sgs|
    ensures (n == RETRY_COUNT && Quiet(d, id)) || Retries(d, id, op, n)
  {
  }

  lemma FailureUpdates(c: Ctl, id: nat, op: Op, n: int, os: seq<NpOutcome>, referred: bool)
    requires Holds(QueueRetry(c, id, op), id, op, n) && At(QueueRetry(c, id, op), id).vpc == At(c, id).vpc
    ensures Retried(c, id, op, false, os, referred) == TellItem(QueueRetry(c, id, op), id, op)
  {
  }

  lemma FailureRecorded(c: Ctl, id: nat, op: Op, n: int, os: seq<NpOutcome>, referred: bool)
    requires Heard(At(c, id), op) && id < |c.sgs|
    requires (n == RETRY_COUNT && Quiet(c, id)) || Retries(c, id, op, n)
    ensures Recorded(c, Retried(SetStatus(c, id, op, false), id, op, false, os, referred), id, op, n)
  {
    var c1 := SetStatus(c, id, op, false);
    StatusFailed(c, id, op);
    StillFree(c, c1, id, op, n);
    FailureQueues(c1, id, op, n);
    FailureTold(QueueRetry(c1, id, op), id, op, n);
    FailureUpdates(c1, id, op, n, os, referred);
  }

  lemma DeletionStillDue(c: Ctl, id: nat, op: Op, n: int)
    requires Waits(c, id, op, n) && n > 0
    ensures var r := PendingDeleteAnswered(c, MoreOps(c, At(c, id).vpc));
            r == c.(pend := r.pend) && Waits(r, id, op, n) && At(r, id) == At(c, id)
  {
    var r := PendingDeleteAnswered(c, true);
    assert r == c.(pend := r.pend);
    assert At(r, id) == At(c, id) && Queued(r, At(c, id).vpc) == Queued(c, At(c, id).vpc);
  }

  lemma FailureStep(c: Ctl, k: nat, op: Op, os: seq<NpOutcome>, retryOs: seq<NpOutcome>, drain: seq<NpOutcome>, referred: bool)
    requires !c.panicked && k < |c.flight| && Answers(c.flight[k].call, op, false)
    ensures var id := c.flight[k].sg;
            var d := NotifyImpl(SetStatus(Land(c, k), id, op, false), id, op, false, retryOs, referred);
            Step(c, Response(k, op, false, os, retryOs, drain, referred)) ==
            if c.membershipOnly then d else UpdateAnps(d, id, drain)
  {
  }

  /** A failure is queued for retry, or stays queued with the retries it has left, and nothing is called. */
  lemma {:induction false} FailureWaits(c: Ctl, k: nat, op: Op, n: int, os: seq<NpOutcome>, retryOs: seq<NpOutcome>,
                                        drain: seq<NpOutcome>,
                     referred: bool)
    requires !c.panicked && k < |c.flight| && Answers(c.flight[k].call, op, false) && c.flight[k].sg < |c.sgs|
    requires Heard(At(c, c.flight[k].sg), op) && (op == OpDelete ==> n > 0)
    requires (n == RETRY_COUNT && Quiet(c, c.flight[k].sg)) || Retries(c, c.flight[k].sg, op, n)
    ensures var (r, id) := (Step(c, Response(k, op, false, os, retryOs, drain, referred)), c.flight[k].sg);
            && Waits(r, id, op, n) && r.flight == c.flight[..k] + c.flight[k + 1..] && !r.panicked
            && SameGroup(At(c, id).(retryOp := Some(op), retryInProgress := false), At(r, id))
            && At(r, id).cloudOpInProgress == At(c, id).cloudOpInProgress
            && r.synced == c.synced && r.membershipOnly == c.membershipOnly
  {
    var (c0, id) := (Land(c, k), c.flight[k].sg);
    LandQuiet(c, k, id);
    var c1 := SetStatus(c0, id, op, false);
    FailureRecorded(c0, id, op, n, retryOs, referred);
    var c2 := Retried(c1, id, op, false, retryOs, referred);
    if op == OpDelete { DeletionStillDue(c2, id, op, n); }
    var c3 := NotifyImpl(c1, id, op, false, retryOs, referred);
    NoRulesMeanwhile(c3, id, drain);
    FailureStep(c, k, op, os, retryOs, drain, referred);
  }

  // ---------------------------------------------------------------------------------------------
  // A retry that goes through
  // ---------------------------------------------------------------------------------------------

  /** The retry queue, and of every object its VPC and what it retries, are the same; there may be new objects. */
  ghost predicate SameRetries(c: Ctl, r: Ctl) {
    && r.retryQueue == c.retryQueue && |c.sgs| <= |r.sgs|
    && forall q: nat {:trigger At(r, q)} :: q < |c.sgs| ==> AlikeRetry(At(c, q), At(r, q))
  }

  predicate AlikeRetry(s: Sg, t: Sg) {
    t.vpc == s.vpc && t.retryOp == s.retryOp && t.retryInProgress == s.retryInProgress
  }

  lemma IssueSame(c: Ctl, id: nat, call: Call)
    ensures SameRetries(c, Issue(c, id, call))
  {
    forall q: nat ensures AlikeRetry(At(c, q), At(Issue(c, id, call), q)) {
      IssueQuiet(c, id, call, q);
    }
  }

  lemma SetSame(c: Ctl, id: nat, s: Sg)
    requires AlikeRetry(At(c, id), s)
    ensures SameRetries(c, Set(c, id, s))
  {
  }

  lemma UpdateSame(c: Ctl, id: nat, added: set<Member>, removed: set<Member>)
    ensures SameRetries(c, UpdateImpl(c, id, added, removed))
  {
    var d := Set(c, id, At(c, id).(members := At(c, id).members - removed + added));
    IssueSame(d, id, SetMembers);
  }

  lemma ClearSame(c: Ctl, id: nat)
    ensures SameRetries(c, ClearMembersImpl(c, id))
  {
    IssueSame(c, id, ClearMembers);
  }

  lemma AnpSame(c: Ctl, id: nat, o: NpOutcome)
    ensures SameRetries(c, UpdateAnpRules(c, id, o))
  {
    ClearSame(c, id);
    IssueSame(c, id, NoRuleChange);
    IssueSame(Set(c, id, At(c, id).(cloudOpInProgress := true)), id, UpdateRules);
  }

  lemma {:induction false} AnpsSame(c: Ctl, id: nat, os: seq<NpOutcome>)
    ensures SameRetries(c, UpdateAnps(c, id, os))
    decreases os
  {
    if os != [] {
      AnpSame(c, id, os[0]);
      AnpsSame(UpdateAnpRules(c, id, os[0]), id, os[1..]);
    }
  }

  lemma AllRulesSame(c: Ctl, id: nat, os: seq<NpOutcome>)
    ensures SameRetries(c, UpdateAllRules(c, id, os))
  {
    ClearSame(c, id);
    AnpsSame(c, id, os);
  }

  lemma RefreshedSame(c: Ctl, id: nat)
    ensures SameRetries(c, RulesRefreshed(c, id))
    ensures SameRetries(c, UpdateImpl(RulesRefreshed(c, id), id, {}, {}))
  {
    var d := RulesRefreshed(c, id);
    SetSame(c, id, At(c, id).(ruleReady := true));
    assert forall q: nat :: At(d, q) == At(Set(c, id, At(c, id).(ruleReady := true)), q);
    UpdateSame(d, id, {}, {});
  }

  lemma AppliedToSame(c: Ctl, id: nat, op: Op, os: seq<NpOutcome>)
    ensures SameRetries(c, AppliedToOk(c, id, op, os)) && |AppliedToOk(c, id, op, os).sgs| == |c.sgs|
  {
    match op
    case OpAdd => AllRulesSame(BecomeCreated(c, id), id, os);
    case OpClearMembers => AllRulesSame(SetHasMembers(c, id, false), id, os);
    case OpUpdateRules => RefreshedSame(c, id);
    case _ =>
  }

  lemma SuccessSame(c: Ctl, id: nat, op: Op, os: seq<NpOutcome>)
    ensures SameRetries(c, OnSuccess(c, id, op, os)) && |OnSuccess(c, id, op, os).sgs| == |c.sgs|
  {
    AppliedToSame(c, id, op, os);
    UpdateSame(BecomeCreated(c, id), id, {}, {});
  }

  lemma {:induction false} AddPassSame(c: Ctl, vs: seq<Vpc>, added: set<Member>, removed: set<Member>, left: set<Vpc>)
    ensures SameRetries(c, AddPass(c, vs, added, removed, left).0)
    decreases vs
  {
    if vs != [] {
      var (v, ms) := (vs[0], InVpc(c, added, vs[0]));
      if ms == {} {
        AddPassSame(c, vs[1..], added, removed, left);
      } else if Lookup(c, v).None? {
        var d := AddImpl(NewGroup(c, v, ms), |c.sgs|);
        NewSame(c, v, ms);
        AddPassSame(d, vs[1..], added, removed, left);
      } else if At(c, Lookup(c, v).value).members == ms {
        AddPassSame(c, vs[1..], added, removed, left);
      } else {
        var d := UpdateImpl(c, Lookup(c, v).value, ms, InVpc(c, removed, v));
        UpdateSame(c, Lookup(c, v).value, ms, InVpc(c, removed, v));
        AddPassSame(d, vs[1..], added, removed, left - {v});
      }
    }
  }

  lemma NewSame(c: Ctl, v: Vpc, ms: set<Member>)
    ensures SameRetries(c, AddImpl(NewGroup(c, v, ms), |c.sgs|))
  {
    var (d, id) := (NewGroup(c, v, ms), |c.sgs|);
    assert forall q: nat :: q < |c.sgs| ==> At(d, q) == At(c, q);
    var e := Set(d.(indexer := Filed(d, id)), id, At(d, id).(status := InProgress));
    IssueSame(e, id, Create);
  }

  lemma {:induction false} RemovePassSame(c: Ctl, vs: seq<Vpc>, removed: set<Member>, left: set<Vpc>)
    ensures SameRetries(c, RemovePass(c, vs, removed, left))
    decreases vs
  {
    if vs != [] {
      var (v, ms) := (vs[0], InVpc(c, removed, vs[0]));
      if ms == {} || v !in left || Lookup(c, v).None? {
        RemovePassSame(c, vs[1..], removed, left);
      } else {
        UpdateSame(c, Lookup(c, v).value, {}, ms);
        RemovePassSame(UpdateImpl(c, Lookup(c, v).value, {}, ms), vs[1..], removed, left);
      }
    }
  }

  lemma ApplySame(c: Ctl, added: set<Member>)
    ensures SameRetries(c, ApplyMembers(c, added, {}))
  {
    var (c1, left) := AddPass(c, c.vpcs, added, {}, set v <- c.vpcs);
    AddPassSame(c, c.vpcs, added, {}, set v <- c.vpcs);
    RemovePassSame(c1, c.vpcs, {}, left);
  }

  lemma ReplaySame(c: Ctl, p: PendingGroup)
    ensures SameRetries(c, ReplayItem(c, p))
  {
    var d := c.(pend := None, replays := c.replays + [Replay(p.added, p.hist, DeletesIn(c.flight))]);
    assert SameRetries(c, d);
    ApplySame(d, p.added);
  }

  lemma DeleteAnsweredSame(c: Ctl, moreOps: bool)
    ensures SameRetries(c, PendingDeleteAnswered(c, moreOps))
  {
    if c.pend.Some? { ReplaySame(c, Uncount(c.pend.value, moreOps)); }
  }

  lemma SuccessTold(c: Ctl, id: nat, op: Op, n: int, referred: bool)
    requires Retries(c, id, op, n) && Heard(At(c, id), op)
    ensures var r := RetryUpdate(SetStatus(c, id, op, true), At(c, id).vpc, false, op, [], referred);
            && r.retryQueue == c.retryQueue && |r.sgs| == |c.sgs|
            && At(r, id).vpc == At(c, id).vpc && At(r, id).retryOp.None? && r.retryQueue[At(c, id).vpc].sg == id
  {
    var c1 := SetStatus(c, id, op, true);
    assert At(c1, id) == At(c, id).(status := StatusOk) && Queued(c1, At(c, id).vpc) == Queued(c, At(c, id).vpc);
  }

  lemma DoneLeaves(c: Ctl, id: nat, op: Op, os: seq<NpOutcome>, referred: bool)
    requires id < |c.sgs| && At(c, id).retryOp.None? && At(c, id).vpc in c.retryQueue && c.retryQueue[At(c, id).vpc].sg == id
    ensures var r := RetryUpdate(c, At(c, id).vpc, true, op, os, referred);
            && At(c, id).vpc !in r.retryQueue && |r.sgs| == |c.sgs|
            && At(r, id).vpc == At(c, id).vpc && At(r, id).retryOp.None?
  {
  }

  /** A retry that goes through is the last: the item leaves the queue and nothing is retried for the group. */
  lemma {:induction false} SuccessEndsRetries(c: Ctl, k: nat, op: Op, n: int, os: seq<NpOutcome>,
                                              retryOs: seq<NpOutcome>, drain: seq<NpOutcome>,
                           referred: bool)
    requires !c.panicked && k < |c.flight| && Answers(c.flight[k].call, op, true)
    requires Retries(c, c.flight[k].sg, op, n) && Heard(At(c, c.flight[k].sg), op)
    ensures Quiet(Step(c, Response(k, op, true, os, retryOs, drain, referred)), c.flight[k].sg)
  {
    var (c0, id) := (Land(c, k), c.flight[k].sg);
    var v := At(c, id).vpc;
    LandQuiet(c, k, id);
    SuccessTold(c0, id, op, n, referred);
    var c1 := RetryUpdate(SetStatus(c0, id, op, true), v, false, op, [], referred);
    SuccessSame(c1, id, op, os);
    var c2 := OnSuccess(c1, id, op, os);
    DoneLeaves(c2, id, op, retryOs, referred);
    var c3 := RetryUpdate(c2, v, true, op, retryOs, referred);
    DeleteAnsweredSame(c3, MoreOps(c3, v));
    var c4 := if op == OpDelete then PendingDeleteAnswered(c3, MoreOps(c3, v)) else c3;
    AnpsSame(c4, id, drain);
    SuccessStep(c, k, op, os, retryOs, drain, referred, c1, c2, c3, c4);
  }

  lemma OtherTold(c: Ctl, id: nat, op: Op, n: int, other: Op, os: seq<NpOutcome>, referred: bool)
    requires Retries(c, id, op, n) && other != op
    ensures var v := At(c, id).vpc;
            && RetryUpdate(c, v, false, other, os, referred) == c
            && RetryUpdate(c, v, true, other, os, referred) == if n > 0 then c else RetryRemove(c, v)
  {
    assert TellItem(c, id, other) == c;
  }

  lemma StatusSame(c: Ctl, id: nat, op: Op)
    ensures SameRetries(c, SetStatus(c, id, op, true))
  {
    SetSame(c, id, At(c, id).(status := StatusOk));
  }

  lemma StillRetries(c: Ctl, d: Ctl, id: nat, op: Op, n: int)
    requires SameRetries(c, d) && Retries(c, id, op, n)
    ensures Retries(d, id, op, n)
  {
  }

  lemma RemovedQuiet(c: Ctl, id: nat, op: Op, n: int)
    requires Holds(c, id, op, n)
    ensures var r := RetryRemove(c, At(c, id).vpc);
            At(c, id).vpc !in r.retryQueue && |r.sgs| == |c.sgs| && At(r, id).vpc == At(c, id).vpc && At(r, id).retryOp.None?
  {
  }

  /**
   * A retry under way hears the success of another operation in its VPC: with retries left it goes on, but in its
   * last try it is forgotten, so that a failure of that try is queued anew with all retries.
   */
  lemma {:induction false} OtherSuccessForgetsLastTry(c: Ctl, k: nat, id: nat, op: Op, n: int, other: Op, os: seq<NpOutcome>,
                                   retryOs: seq<NpOutcome>, drain: seq<NpOutcome>, referred: bool)
    requires !c.panicked && k < |c.flight| && Answers(c.flight[k].call, other, true) && Heard(At(c, c.flight[k].sg), other)
    requires Retries(c, id, op, n) && other != op && other != OpDelete && At(c, c.flight[k].sg).vpc == At(c, id).vpc
    requires c.flight[k].sg < |c.sgs|
    ensures var r := Step(c, Response(k, other, true, os, retryOs, drain, referred));
            if n > 0 then Retries(r, id, op, n) else Quiet(r, id)
  {
    var (c0, q, v) := (Land(c, k), c.flight[k].sg, At(c, id).vpc);
    LandQuiet(c, k, id);
    LandQuiet(c, k, q);
    var c1 := SetStatus(c0, q, other, true);
    StatusSame(c0, q, other);
    StillRetries(c0, c1, id, op, n);
    OtherTold(c1, id, op, n, other, [], referred);
    SuccessSame(c1, q, other, os);
    var c2 := OnSuccess(c1, q, other, os);
    StillRetries(c1, c2, id, op, n);
    OtherTold(c2, id, op, n, other, retryOs, referred);
    RemovedQuiet(c2, id, op, n);
    var c3 := RetryUpdate(c2, v, true, other, retryOs, referred);
    AnpsSame(c3, q, drain);
    if n > 0 { StillRetries(c3, UpdateAnps(c3, q, drain), id, op, n); }
    SuccessStep(c, k, other, os, retryOs, drain, referred, c1, c2, c3, c3);
  }

  lemma SuccessStep(c: Ctl, k: nat, op: Op, os: seq<NpOutcome>, retryOs: seq<NpOutcome>, drain: seq<NpOutcome>, referred: bool,
                    c1: Ctl, c2: Ctl, c3: Ctl, c4: Ctl)
    requires !c.panicked && k < |c.flight| && Answers(c.flight[k].call, op, true)
    requires var (c0, id) := (Land(c, k), c.flight[k].sg);
             var v := At(c2, id).vpc;
             && c1 == RetryUpdate(SetStatus(c0, id, op, true), At(SetStatus(c0, id, op, true), id).vpc, false, op, [], referred)
             && c2 == OnSuccess(c1, id, op, os) && c3 == RetryUpdate(c2, v, true, op, retryOs, referred)
             && c4 == if op == OpDelete then PendingDeleteAnswered(c3, MoreOps(c3, v)) else c3
    ensures Step(c, Response(k, op, true, os, retryOs, drain, referred)) ==
            if c.membershipOnly then c4 else UpdateAnps(c4, c.flight[k].sg, drain)
  {
  }

  // ---------------------------------------------------------------------------------------------
  // A deletion that fails for good
  // ---------------------------------------------------------------------------------------------

  /**
   * When a retried deletion fails, the name is released exactly if that was the last retry and no other delete is
   * in flight: until then its deferred events go on waiting.
   */
  lemma FailedDeletionReleases(c: Ctl, k: nat, n: int, os: seq<NpOutcome>, retryOs: seq<NpOutcome>, drain: seq<NpOutcome>,
                               referred: bool)
    requires !c.panicked && k < |c.flight| && c.flight[k].call == Delete && Deferred(c, 0)
    requires Retries(c, c.flight[k].sg, OpDelete, n)
    ensures Step(c, Response(k, OpDelete, false, os, retryOs, drain, referred)).pend.None? <==>
            n <= 0 && DeletesIn(c.flight) == 1
  {
    var (c0, id) := (Land(c, k), c.flight[k].sg);
    LandQuiet(c, k, id);
    LandDeletes(c, k);
    var c1 := SetStatus(c0, id, OpDelete, false);
    FailureRecorded(c0, id, OpDelete, n, retryOs, referred);
    var c2 := Retried(c1, id, OpDelete, false, retryOs, referred);
    var more := MoreOps(c2, At(c0, id).vpc);
    ReplayTakesItemOut(c2, more);
    DeleteAnsweredSame(c2, more);
    NoRulesMeanwhile(PendingDeleteAnswered(c2, more), id, drain);
    FailureStep(c, k, OpDelete, os, retryOs, drain, referred);
  }

  // ---------------------------------------------------------------------------------------------
  // All rounds
  // ---------------------------------------------------------------------------------------------

  /** What the environment has to say while an operation fails again and again. */
  datatype Round = Round(os: seq<NpOutcome>, retryOs: seq<NpOutcome>, drain: seq<NpOutcome>, referred: bool)

  /** The cloud is done with the call at position `k`, its failure arrives, and the retry queue is swept. */
  function Fails(k: nat, id: nat, v: Vpc, op: Op, os: seq<NpOutcome>, r: Round): seq<Event> {
    [RulesDone(id), Response(k, op, false, r.os, r.retryOs, r.drain, r.referred), Sweep(v, os, r.referred)]
  }

  /** One round of failure after the other. */
  function FailAll(k: nat, id: nat, v: Vpc, op: Op, os: seq<NpOutcome>, rs: seq<Round>): seq<Event> {
    if rs == [] then [] else Fails(k, id, v, op, os, rs[0]) + FailAll(k, id, v, op, os, rs[1..])
  }

  /** The only call in flight beyond `rest` is one that does the operation. */
  predicate Calling(c: Ctl, rest: seq<Flight>, id: nat, op: Op, os: seq<NpOutcome>) {
    && !c.panicked && id < |c.sgs| && c.flight == rest + [Flight(id, CallFor(op))] && Heard(At(c, id), op) && op != OpDelete
    && Redoable(c.synced, c.membershipOnly, At(c, id).(cloudOpInProgress := false), op, os)
  }

  lemma CloudIsDone(c: Ctl, id: nat)
    requires id < |c.sgs| && !c.panicked
    ensures var r := Step(c, RulesDone(id));
            && At(r, id) == At(c, id).(cloudOpInProgress := false) && Queued(r, At(c, id).vpc) == Queued(c, At(c, id).vpc)
            && r == c.(sgs := r.sgs) && |r.sgs| == |c.sgs|
  {
    assert Step(c, RulesDone(id)) == Set(c, id, At(c, id).(cloudOpInProgress := false));
  }

  lemma {:induction false} RoundOver(c: Ctl, rest: seq<Flight>, id: nat, op: Op, n: int, os: seq<NpOutcome>,
                                     r: Round) returns (d: Ctl)
    requires Calling(c, rest, id, op, os)
    requires (n == RETRY_COUNT && Quiet(c, id)) || Retries(c, id, op, n)
    ensures d == Step(Step(c, RulesDone(id)), Response(|rest|, op, false, r.os, r.retryOs, r.drain, r.referred))
    ensures !d.panicked && Waits(d, id, op, n) && d.flight == rest && At(d, id).vpc == At(c, id).vpc
    ensures Redoable(d.synced, d.membershipOnly, At(d, id), op, os)
  {
    var c1 := Step(c, RulesDone(id));
    CloudIsDone(c, id);
    FailureWaits(c1, |rest|, op, n, r.os, r.retryOs, r.drain, r.referred);
    d := Step(c1, Response(|rest|, op, false, r.os, r.retryOs, r.drain, r.referred));
  }

  lemma StillCalling(d: Ctl, e: Ctl, rest: seq<Flight>, id: nat, op: Op, os: seq<NpOutcome>)
    requires op != OpDelete && Redoable(d.synced, d.membershipOnly, At(d, id), op, os) && Heard(At(d, id), op) && !e.panicked
    requires id < |e.sgs| && e.flight == rest + [Flight(id, CallFor(op))] && e.synced == d.synced
    requires e.membershipOnly == d.membershipOnly && SameGroup(At(d, id).(retryInProgress := true), At(e, id))
    ensures Calling(e, rest, id, op, os)
  {
  }

  lemma {:induction false} RoundRetries(c: Ctl, rest: seq<Flight>, id: nat, op: Op, n: int, os: seq<NpOutcome>, r: Round)
    requires Calling(c, rest, id, op, os) && n > 0
    requires (n == RETRY_COUNT && Quiet(c, id)) || Retries(c, id, op, n)
    ensures var d := Run(c, Fails(|rest|, id, At(c, id).vpc, op, os, r));
            Calling(d, rest, id, op, os) && Retries(d, id, op, n - 1) && At(d, id).vpc == At(c, id).vpc
  {
    var d := RoundOver(c, rest, id, op, n, os, r);
    SweepRedoes(d, id, op, n, os, r.referred);
    StillCalling(d, Step(d, Sweep(At(c, id).vpc, os, r.referred)), rest, id, op, os);
    RunThree(c, RulesDone(id), Response(|rest|, op, false, r.os, r.retryOs, r.drain, r.referred),
             Sweep(At(c, id).vpc, os, r.referred));
  }

  lemma {:induction false} RoundGivesUp(c: Ctl, rest: seq<Flight>, id: nat, op: Op, os: seq<NpOutcome>, r: Round)
    requires Calling(c, rest, id, op, os) && Retries(c, id, op, 0)
    ensures var d := Run(c, Fails(|rest|, id, At(c, id).vpc, op, os, r));
            d.flight == rest && Quiet(d, id)
  {
    var d := RoundOver(c, rest, id, op, 0, os, r);
    SweepGivesUp(d, id, op, os, r.referred);
    RunThree(c, RulesDone(id), Response(|rest|, op, false, r.os, r.retryOs, r.drain, r.referred),
             Sweep(At(c, id).vpc, os, r.referred));
  }

  lemma RunThree(c: Ctl, a: Event, b: Event, d: Event)
    ensures Run(c, [a, b, d]) == Step(Step(Step(c, a), b), d)
  {
    RunOne(c, a);
    RunOne(Step(c, a), b);
    RunOne(Step(Step(c, a), b), d);
    RunConcat(c, [a], [b, d]);
    RunConcat(Step(c, a), [b], [d]);
    assert [a] + [b, d] == [a, b, d] && [b] + [d] == [b, d];
  }

  lemma RunOne(c: Ctl, e: Event)
    ensures Run(c, [e]) == Step(c, e)
  {
    assert [e][1..] == [];
  }

  /** Where the failures have led: the call is made again while retries are left, and then no more. */
  predicate LedTo(d: Ctl, rest: seq<Flight>, id: nat, op: Op, left: int, os: seq<NpOutcome>) {
    if left >= 0 then Calling(d, rest, id, op, os) && Retries(d, id, op, left) else d.flight == rest && Quiet(d, id)
  }

  lemma {:induction false} RunRounds(c: Ctl, k: nat, id: nat, v: Vpc, op: Op, os: seq<NpOutcome>, rs: seq<Round>)
    requires rs != []
    ensures Run(c, FailAll(k, id, v, op, os, rs)) ==
            Run(Run(c, Fails(k, id, v, op, os, rs[0])), FailAll(k, id, v, op, os, rs[1..]))
  {
    RunConcat(c, Fails(k, id, v, op, os, rs[0]), FailAll(k, id, v, op, os, rs[1..]));
  }

  /** The first of some rounds, with retries left, and what is still to come. */
  lemma {:induction false} FirstRound(c: Ctl, rest: seq<Flight>, id: nat, v: Vpc, op: Op, n: int, os: seq<NpOutcome>,
                                      rs: seq<Round>)
    returns (d: Ctl)
    requires Calling(c, rest, id, op, os) && n > 0 && rs != [] && At(c, id).vpc == v
    requires (n == RETRY_COUNT && Quiet(c, id)) || Retries(c, id, op, n)
    ensures Run(c, FailAll(|rest|, id, v, op, os, rs)) == Run(d, FailAll(|rest|, id, v, op, os, rs[1..]))
    ensures Calling(d, rest, id, op, os) && Retries(d, id, op, n - 1) && At(d, id).vpc == v
  {
    d := Run(c, Fails(|rest|, id, v, op, os, rs[0]));
    RoundRetries(c, rest, id, op, n, os, rs[0]);
    RunRounds(c, |rest|, id, v, op, os, rs);
  }

  /** The round that finds no retry left is the last. */
  lemma {:induction false} LastRound(c: Ctl, rest: seq<Flight>, id: nat, v: Vpc, op: Op, os: seq<NpOutcome>, rs: seq<Round>)
    requires Calling(c, rest, id, op, os) && Retries(c, id, op, 0) && |rs| == 1 && At(c, id).vpc == v
    ensures LedTo(Run(c, FailAll(|rest|, id, v, op, os, rs)), rest, id, op, -1, os)
  {
    RoundGivesUp(c, rest, id, op, os, rs[0]);
    RunRounds(c, |rest|, id, v, op, os, rs);
    assert FailAll(|rest|, id, v, op, os, rs[1..]) == [];
  }

  lemma {:induction false} FailuresRetry(c: Ctl, rest: seq<Flight>, id: nat, v: Vpc, op: Op, n: nat, os: seq<NpOutcome>,
                                         rs: seq<Round>)
    requires Calling(c, rest, id, op, os) && Retries(c, id, op, n) && |rs| <= n + 1 && At(c, id).vpc == v
    ensures LedTo(Run(c, FailAll(|rest|, id, v, op, os, rs)), rest, id, op, n - |rs|, os)
    decreases rs
  {
    if rs != [] {
      if n == 0 {
        LastRound(c, rest, id, v, op, os, rs);
      } else {
        var d := FirstRound(c, rest, id, v, op, n, os, rs);
        FailuresRetry(d, rest, id, v, op, n - 1, os, rs[1..]);
      }
    }
  }

  /**
   * A call that fails is made again after each of the first three failures, whatever policies come meanwhile;
   * after the fourth failure the operation is given up and the group is free.
   */
  lemma {:induction false} FailedCallIsRetried(c: Ctl, rest: seq<Flight>, id: nat, op: Op, os: seq<NpOutcome>, rs: seq<Round>)
    requires Calling(c, rest, id, op, os) && Quiet(c, id) && 1 <= |rs| <= 4
    ensures LedTo(Run(c, FailAll(|rest|, id, At(c, id).vpc, op, os, rs)), rest, id, op, 3 - |rs|, os)
  {
    var d := FirstRound(c, rest, id, At(c, id).vpc, op, RETRY_COUNT, os, rs);
    FailuresRetry(d, rest, id, At(c, id).vpc, op, 2, os, rs[1..]);
  }

  /**
   * Any call can be forgotten so: after three failures, with another call of the group still in flight, the success
   * of that one leaves nothing retried although the last try is under way; should it fail, it is queued anew.
   */
  lemma {:induction false} LastTryIsForgotten(c: Ctl, rest: seq<Flight>, id: nat, op: Op, os: seq<NpOutcome>, rs: seq<Round>,
                                              k: nat, other: Op, last: Round)
    requires Calling(c, rest, id, op, os) && Quiet(c, id) && |rs| == 3
    requires k < |rest| && rest[k].sg == id && Answers(rest[k].call, other, true) && other != op && other != OpDelete
    ensures var d := Run(c, FailAll(|rest|, id, At(c, id).vpc, op, os, rs));
            && Retries(d, id, op, 0)
            && Quiet(Step(d, Response(k, other, true, last.os, last.retryOs, last.drain, last.referred)), id)
  {
    FailedCallIsRetried(c, rest, id, op, os, rs);
    var d := Run(c, FailAll(|rest|, id, At(c, id).vpc, op, os, rs));
    assert d.flight[k] == rest[k];
    OtherSuccessForgetsLastTry(d, k, id, op, 0, other, last.os, last.retryOs, last.drain, last.referred);
  }
}
