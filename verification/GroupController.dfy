/**
 * The controller's routines as they run: fields assigned one after the other, loops over VPCs and
 * policies. Each does what its step of the life cycle says, so that the loop they make up (`Handle`,
 * `Drive`) keeps what is proved of every run.
 */
module GroupController {
  import opened Wrappers
  import opened GroupLifecycle
  import opened GroupLifecycleProofs
  import opened GroupMemberProofs
  import opened GroupReplayProofs
  import opened GroupStuckProofs

  /** Assigning an object twice leaves the last value. */
  lemma SetTwice(c: Ctl, id: nat, s: Sg, t: Sg)
    ensures Set(Set(c, id, s), id, t) == Set(c, id, t)
  {
  }

  lemma MarkAfterClear(c: Ctl, id: nat)
    ensures Set(ClearRetry(c, id), id, At(ClearRetry(c, id), id).(state := Garbage)) == MarkGarbage(c, id)
  {
    SetTwice(c, id, At(c, id).(retryOp := None), At(c, id).(retryOp := None, state := Garbage));
  }

  /** A change of members that is applied at once: nothing defers it, and all its machines are known. */
  predicate Applies(c: Ctl, e: Event) {
    && e.Group? && !e.e.Deleted? && !c.panicked && c.pend.None? && Once(c.vpcs)
    && AllFound(c, AddsOf(e.e)) && AddsOf(e.e) !! RemovesOf(e.e)
  }

  lemma StepFollowsEvent(c: Ctl, e: Event, v: Vpc)
    requires Applies(c, e) && v in c.vpcs
    ensures Follows(c, Step(c, e), v, AddsOf(e.e), RemovesOf(e.e))
  {
    EventIsFollowed(c, e.e, e.env, v);
  }

  class Controller {
    const membershipOnly: bool
    const synced: bool
    const vpcs: seq<Vpc>
    const vpcOf: map<Member, Vpc>
    var sgs: seq<Sg>
    var indexer: map<Vpc, nat>
    var retryQueue: map<Vpc, RetryItem>
    var pend: Option<PendingGroup>
    var flight: seq<Flight>
    var replays: seq<Replay>
    var panicked: bool

    function View(): Ctl
      reads this
    {
      Ctl(membershipOnly, synced, vpcs, vpcOf, sgs, indexer, retryQueue, pend, flight, replays, panicked)
    }

    /**
     * Deletion dominates in every object; the item counts the deletes in flight and holds what its events
     * leave in an empty group; every replay so far was faithful.
     */
    ghost predicate Valid()
      reads this
    {
      AllDominated(View()) && Deferred(View(), 0)
    }

    constructor (membershipOnly: bool, synced: bool, vpcs: seq<Vpc>, vpcOf: map<Member, Vpc>)
      ensures View() == Start(membershipOnly, synced, vpcs, vpcOf) && Valid()
    {
      this.membershipOnly, this.synced, this.vpcs, this.vpcOf := membershipOnly, synced, vpcs, vpcOf;
      sgs, indexer, retryQueue, pend, flight, replays, panicked := [], map[], map[], None, [], [], false;
    }

    // -------------------------------------------------------------------------------------------
    // One group
    // -------------------------------------------------------------------------------------------

    method Put(id: nat, s: Sg)
      modifies `sgs
      ensures View() == Set(old(View()), id, s)
    {
      if id < |sgs| { sgs := sgs[id := s]; }
    }

    /** The call runs beside the loop and answers later. */
    method Go(id: nat, call: Call)
      modifies `sgs, `flight
      ensures View() == Issue(old(View()), id, call)
    {
      Put(id, Record(At(View(), id), call));
      flight := flight + [Flight(id, call)];
    }

    method Add(id: nat)
      modifies this
      ensures View() == AddImpl(old(View()), id)
    {
      var s := At(View(), id);
      indexer := Filed(View(), id);
      if !synced { return; }
      if s.retryOp.Some? { return; }
      Put(id, s.(status := InProgress));
      Go(id, Create);
    }

    method RemoveRetry(v: Vpc)
      modifies `sgs, `retryQueue
      ensures View() == RetryRemove(old(View()), v)
    {
      if Queued(View(), v).Some? {
        var id := retryQueue[v].sg;
        Put(id, At(View(), id).(retryOp := None));
        retryQueue := retryQueue - {v};
      }
    }

    method CallDelete(id: nat)
      requires pend.Some?
      modifies this
      ensures View() == IssueDelete(old(View()), id)
    {
      pend := Some(pend.value.(refCnt := pend.value.refCnt + 1, runOnClear := false));
      Put(id, At(View(), id).(status := InProgress));
      Go(id, GroupLifecycle.Delete);
    }

    method Unlist(v: Vpc)
      modifies this
      ensures View() == Unindex(old(View()), v)
    {
      indexer := indexer - {v};
      RemoveRetry(v);
    }

    method Forget(id: nat)
      modifies this
      ensures View() == ClearRetry(old(View()), id)
    {
      Put(id, At(View(), id).(retryOp := None));
    }

    method Mark(id: nat)
      modifies this
      ensures View() == Set(old(View()), id, At(old(View()), id).(state := Garbage))
    {
      Put(id, At(View(), id).(state := Garbage));
    }

    /** Deletion supersedes whatever is retried; a group the cloud never heard of is just dropped. */
    method Drop(id: nat)
      requires pend.Some?
      modifies this
      ensures View() == Condemn(old(View()), id)
    {
      var s := At(View(), id);
      Unlist(s.vpc);
      MarkAfterClear(View(), id);
      Forget(id);
      if s.state == Init && s.status != InProgress { return; }
      Mark(id);
      CallDelete(id);
    }

    method Delete(id: nat, referred: bool)
      modifies this
      ensures View() == DeleteImpl(old(View()), id, referred)
    {
      if pend.None? { pend := Some(PendingGroup(0, false, None, {}, {}, [])); }
      var s := At(View(), id);
      if s.state != Garbage {
        if membershipOnly && referred {
          Put(id, s.(deletePending := true));
          return;
        }
        Drop(id);
        return;
      }
      if s.retryOp.Some? { return; }
      CallDelete(id);
    }

    method Update(id: nat, added: set<Member>, removed: set<Member>)
      modifies this
      ensures View() == UpdateImpl(old(View()), id, added, removed)
    {
      var s := At(View(), id);
      if added == {} && removed == {} && s.members == {} { return; }
      Put(id, s.(members := s.members - removed + added));
      if s.state != Created { return; }
      if s.retryOp.Some? { return; }
      Go(id, SetMembers);
    }

    method ClearAllMembers(id: nat)
      modifies this
      ensures View() == ClearMembersImpl(old(View()), id)
    {
      if At(View(), id).hasMembers {
        Go(id, ClearMembers);
        return;
      }
      Put(id, At(View(), id).(ruleReady := false));
    }

    /** `o` is what the rule update finds when it looks at the policy. */
    method UpdateAnp(id: nat, o: NpOutcome)
      modifies this
      ensures View() == UpdateAnpRules(old(View()), id, o)
    {
      var s := At(View(), id);
      if o == NotReady { return; }
      if s.state != Created || s.deletePending || s.retryOp.Some? { return; }
      if s.cloudOpInProgress { return; }
      if o == NoPolicies {
        ClearAllMembers(id);
        return;
      }
      if o == ComputeError {
        Put(id, s.(status := Failed));
        return;
      }
      if o == NoDelta {
        Go(id, NoRuleChange);
        return;
      }
      Put(id, s.(cloudOpInProgress := true));
      Go(id, UpdateRules);
    }

    method UpdateEach(id: nat, os: seq<NpOutcome>)
      modifies this
      ensures View() == UpdateAnps(old(View()), id, os)
    {
      ghost var start := View();
      assert os[0..] == os;
      for i := 0 to |os|
        invariant UpdateAnps(View(), id, os[i..]) == UpdateAnps(start, id, os)
      {
        assert os[i..][1..] == os[i + 1..];
        UpdateAnp(id, os[i]);
      }
      assert os[|os|..] == [];
    }

    method UpdateAll(id: nat, os: seq<NpOutcome>)
      modifies this
      ensures View() == UpdateAllRules(old(View()), id, os)
    {
      if At(View(), id).state != Created { return; }
      if At(View(), id).retryOp.Some? { return; }
      if os == [] {
        ClearAllMembers(id);
        return;
      }
      UpdateEach(id, os);
    }

    // -------------------------------------------------------------------------------------------
    // Retries
    // -------------------------------------------------------------------------------------------

    method Retry(id: nat, op: Op, os: seq<NpOutcome>, referred: bool)
      modifies this
      ensures View() == Redo(old(View()), id, op, os, referred)
    {
      if op == OpAdd {
        Add(id);
      } else if op == OpUpdateMembers {
        Update(id, {}, {});
      } else if op == OpDelete {
        Delete(id, referred);
      } else if membershipOnly {
        panicked := true;
      } else {
        UpdateAll(id, os);
      }
    }

    /** The operation is forgotten while it runs again, and remembered afterwards. */
    method RunPending(id: nat, os: seq<NpOutcome>, referred: bool)
      requires At(View(), id).retryOp.Some?
      modifies this
      ensures View() == RunPendingItem(old(View()), id, os, referred)
    {
      var op := At(View(), id).retryOp.value;
      Put(id, At(View(), id).(retryOp := None));
      Retry(id, op, os, referred);
      ghost var redone := View();
      var s := At(View(), id).(retryInProgress := true);
      Put(id, s);
      SetTwice(redone, id, s, s.(retryOp := Some(op)));
      Put(id, s.(retryOp := Some(op)));
    }

    /** A run costs one retry; the item is dropped when fewer than `least` are left. */
    method Charge(v: Vpc, count: int, least: int)
      modifies this
      ensures View() == Spend(old(View()), v, count, least)
    {
      if Queued(View(), v).Some? { retryQueue := retryQueue[v := retryQueue[v].(count := count - 1)]; }
      if count - 1 < least { RemoveRetry(v); }
    }

    method UpdateRetry(v: Vpc, checkRun: bool, op: Op, os: seq<NpOutcome>, referred: bool)
      modifies this
      ensures View() == RetryUpdate(old(View()), v, checkRun, op, os, referred)
    {
      if Queued(View(), v).None? { return; }
      var i := retryQueue[v];
      Put(i.sg, UpdatePendingItem(At(View(), i.sg), op));
      if !checkRun { return; }
      var s := At(View(), i.sg);
      if s.retryOp.None? {
        RemoveRetry(v);
      } else if s.retryInProgress {
        if i.count <= 0 { RemoveRetry(v); }
      } else {
        RunPending(i.sg, os, referred);
        Charge(v, i.count, 1);
      }
    }

    method SweepItem(v: Vpc, os: seq<NpOutcome>, referred: bool)
      modifies this
      ensures View() == RetrySweep(old(View()), v, os, referred)
    {
      if Queued(View(), v).None? { return; }
      var i := retryQueue[v];
      var s := At(View(), i.sg);
      if s.retryOp.None? {
        RemoveRetry(v);
      } else if s.retryInProgress {
        if i.count < 0 { RemoveRetry(v); }
      } else {
        if i.count > 0 { RunPending(i.sg, os, referred); }
        Charge(v, i.count, 0);
      }
    }

    // -------------------------------------------------------------------------------------------
    // Group events
    // -------------------------------------------------------------------------------------------

    /** The VPCs with added members; the removals it does not apply on the way stay in `left`. */
    method AddMembers(added: set<Member>, removed: set<Member>) returns (left: set<Vpc>)
      modifies this
      ensures (View(), left) == AddPass(old(View()), vpcs, added, removed, (set v <- vpcs))
    {
      left := set v <- vpcs;
      ghost var goal := AddPass(View(), vpcs, added, removed, left);
      assert vpcs[0..] == vpcs;
      for i := 0 to |vpcs|
        invariant AddPass(View(), vpcs[i..], added, removed, left) == goal
      {
        var v := vpcs[i];
        assert vpcs[i..][1..] == vpcs[i + 1..];
        var ms := InVpc(View(), added, v);
        if ms == {} { continue; }
        if Lookup(View(), v).None? {
          var id := |sgs|;
          sgs := sgs + [NewSg(v, ms)];
          Add(id);
          continue;
        }
        if At(View(), indexer[v]).members == ms { continue; }
        left := left - {v};
        Update(indexer[v], ms, InVpc(View(), removed, v));
      }
      assert vpcs[|vpcs|..] == [];
    }

    method RemoveMembers(removed: set<Member>, left: set<Vpc>)
      modifies this
      ensures View() == RemovePass(old(View()), vpcs, removed, left)
    {
      ghost var goal := RemovePass(View(), vpcs, removed, left);
      assert vpcs[0..] == vpcs;
      for i := 0 to |vpcs|
        invariant RemovePass(View(), vpcs[i..], removed, left) == goal
      {
        var v := vpcs[i];
        assert vpcs[i..][1..] == vpcs[i + 1..];
        var ms := InVpc(View(), removed, v);
        if ms == {} || v !in left || Lookup(View(), v).None? { continue; }
        Update(indexer[v], {}, ms);
      }
      assert vpcs[|vpcs|..] == [];
    }

    method DeleteGroups(env: Env)
      modifies this
      ensures View() == DeletePass(old(View()), vpcs, env)
    {
      ghost var goal := DeletePass(View(), vpcs, env);
      assert vpcs[0..] == vpcs;
      for i := 0 to |vpcs|
        invariant DeletePass(View(), vpcs[i..], env) == goal
      {
        assert vpcs[i..][1..] == vpcs[i + 1..];
        var v := vpcs[i];
        if Lookup(View(), v).None? || Spared(View(), v, env) { continue; }
        Delete(indexer[v], v in env.referred);
      }
      assert vpcs[|vpcs|..] == [];
    }

    method ApplyChange(added: set<Member>, removed: set<Member>)
      modifies this
      ensures View() == ApplyMembers(old(View()), added, removed)
    {
      var left := AddMembers(added, removed);
      RemoveMembers(removed, left);
    }

    method Process(e: GroupEvent, env: Env)
      modifies this
      ensures View() == ProcessGroup(old(View()), e, env)
    {
      if pend.Some? {
        pend := Some(UpdatePendingGroup(pend.value, e));
        return;
      }
      match e {
        case Added(a) => if AllFound(View(), a) { ApplyChange(a, {}); }
        case Modified(a, r) => if AllFound(View(), a) { ApplyChange(a, r); }
        case Deleted => DeleteGroups(env);
      }
    }

    /** The item leaves the queue before its members are replayed. */
    method DeleteAnswered(moreOps: bool)
      modifies this
      ensures View() == PendingDeleteAnswered(old(View()), moreOps)
    {
      if pend.None? { return; }
      var p := pend.value.(runOnClear := !moreOps);
      p := p.(refCnt := p.refCnt - 1);
      pend := Some(p);
      if p.refCnt > 0 || !p.runOnClear { return; }
      pend := None;
      if p.added == {} { return; }
      replays := replays + [Replay(p.added, p.hist, DeletesIn(flight))];
      Process(Added(p.added), Env({}, {}));
    }

    // -------------------------------------------------------------------------------------------
    // Responses
    // -------------------------------------------------------------------------------------------

    method Queue(id: nat, op: Op)
      modifies this
      ensures View() == QueueRetry(old(View()), id, op)
    {
      var s := At(View(), id);
      if Queued(View(), s.vpc).Some? || (s.state == Garbage && op != OpDelete) { return; }
      Put(id, s.(retryOp := Some(op)));
      retryQueue := retryQueue[s.vpc := RetryItem(id, RETRY_COUNT)];
    }

    method NotifyRetry(id: nat, op: Op, ok: bool, os: seq<NpOutcome>, referred: bool)
      modifies this
      ensures View() == NotifyImpl(old(View()), id, op, ok, os, referred)
    {
      var v := At(View(), id).vpc;
      if !ok { Queue(id, op); }
      UpdateRetry(v, ok, op, os, referred);
      var moreOps := MoreOps(View(), v);
      if op == OpDelete { DeleteAnswered(moreOps); }
    }

    method AppliedToSucceeded(id: nat, op: Op, os: seq<NpOutcome>)
      modifies this
      ensures View() == AppliedToOk(old(View()), id, op, os)
    {
      var s := At(View(), id);
      match op {
        case OpAdd =>
          if s.state == Init {
            Put(id, s.(state := Created));
            UpdateAll(id, os);
          }
        case OpUpdateMembers => Put(id, s.(hasMembers := true));
        case OpUpdateRules =>
          Put(id, s.(ruleReady := true));
          indexer := Filed(View(), id);
          if !s.hasMembers { Update(id, {}, {}); }
        case OpClearMembers =>
          Put(id, s.(hasMembers := false));
          if s.ruleReady { UpdateAll(id, os); }
        case OpDelete =>
      }
    }

    method AddressSucceeded(id: nat, op: Op)
      modifies this
      ensures View() == AddressOk(old(View()), id, op)
    {
      if op != OpAdd { return; }
      var s := At(View(), id);
      Put(id, s.(state := if s.state == Init then Created else s.state));
      Update(id, {}, {});
    }

    method RecordStatus(id: nat, op: Op, ok: bool)
      modifies this
      ensures View() == SetStatus(old(View()), id, op, ok)
    {
      var s := At(View(), id);
      if !(s.state == Garbage && op != OpDelete) { Put(id, s.(status := if ok then StatusOk else Failed)); }
    }

    method Succeeded(id: nat, op: Op, os: seq<NpOutcome>)
      modifies this
      ensures View() == OnSuccess(old(View()), id, op, os)
    {
      if membershipOnly { AddressSucceeded(id, op); } else { AppliedToSucceeded(id, op, os); }
    }

    method ActOn(id: nat, op: Op, ok: bool, os: seq<NpOutcome>, referred: bool)
      modifies this
      ensures View() == AfterStatus(old(View()), id, op, ok, os, referred)
    {
      if !ok { return; }
      UpdateRetry(At(View(), id).vpc, false, op, [], referred);
      Succeeded(id, op, os);
    }

    /** The response to a call: status, success actions, retry bookkeeping, and the waiting policies. */
    method NotifyResponse(id: nat, op: Op, ok: bool, os: seq<NpOutcome>, retryOs: seq<NpOutcome>,
                          drain: seq<NpOutcome>, referred: bool)
      modifies this
      ensures View() == Notify(old(View()), id, op, ok, os, retryOs, drain, referred)
    {
      RecordStatus(id, op, ok);
      ActOn(id, op, ok, os, referred);
      NotifyRetry(id, op, ok, retryOs, referred);
      if !membershipOnly { UpdateEach(id, drain); }
    }

    // -------------------------------------------------------------------------------------------
    // The loop
    // -------------------------------------------------------------------------------------------

    method Answered(k: nat, op: Op, ok: bool, os: seq<NpOutcome>, retryOs: seq<NpOutcome>, drain: seq<NpOutcome>,
                    referred: bool)
      modifies this
      ensures View() == Respond(old(View()), k, op, ok, os, retryOs, drain, referred)
    {
      if k >= |flight| || !Answers(flight[k].call, op, ok) { return; }
      var id := flight[k].sg;
      flight := flight[..k] + flight[k + 1..];
      NotifyResponse(id, op, ok, os, retryOs, drain, referred);
    }

    /** The last reference to an address group is gone: a deletion put off for it goes ahead. */
    method DropReference(v: Vpc, referred: bool)
      modifies this
      ensures View() == QuietStep(old(View()), RefDropped(v, referred))
    {
      if !membershipOnly || Lookup(View(), v).None? { return; }
      if At(View(), indexer[v]).deletePending { Delete(indexer[v], referred); }
    }

    method Quiet(e: Event)
      modifies this
      ensures View() == QuietStep(old(View()), e)
    {
      match e {
        case Sweep(v, os, referred) => SweepItem(v, os, referred);
        case Policy(id, o) => if id < |sgs| && !membershipOnly { UpdateAnp(id, o); }
        case RulesDone(id) => Put(id, At(View(), id).(cloudOpInProgress := false));
        case RefDropped(v, referred) => DropReference(v, referred);
        case _ =>
      }
    }

    method Dispatch(e: Event)
      modifies this
      ensures View() == Step(old(View()), e)
    {
      if panicked { return; }
      match e {
        case Group(g, env) => Process(g, env);
        case Response(k, op, ok, os, retryOs, drain, referred) => Answered(k, op, ok, os, retryOs, drain, referred);
        case _ => Quiet(e);
      }
    }

    /**
     * One turn of the loop. Whatever the event, no group moves backwards or changes its VPC, garbage stays
     * garbage and is only deleted, the deletes in flight stay counted, and the loop survives unless the
     * state and the event meet `Panics`. A group event that is not deferred is followed in every VPC.
     */
    method Handle(e: Event)
      requires Valid()
      modifies this
      ensures Valid() && View() == Step(old(View()), e)
      ensures forall q: nat :: Keeps(old(View()), View(), q)
      ensures panicked <==> old(panicked) || Panics(old(View()), e)
      ensures Applies(old(View()), e) ==> forall v <- vpcs :: Follows(old(View()), View(), v, AddsOf(e.e), RemovesOf(e.e))
      ensures pend.None? ==> DeletesIn(flight) == 0
      ensures pend.Some? ==> pend.value.refCnt == DeletesIn(flight) && pend.value.added == Fold(pend.value.hist)
    {
      ghost var c := View();
      Dispatch(e);
      forall q: nat ensures Keeps(c, View(), q) { StepKeeps(c, e, q); }
      assert AllDominated(View()) by {
        forall q: nat ensures Dominated(At(View(), q)) { assert Keeps(c, View(), q); }
      }
      if Applies(c, e) {
        forall v <- vpcs ensures Follows(c, View(), v, AddsOf(e.e), RemovesOf(e.e)) { StepFollowsEvent(c, e, v); }
      }
      StepDefers(c, e);
      if !c.panicked { StepPanics(c, e); }
    }

    /** The loop over any list of events: where a group was, it is, or further on. */
    method Drive(es: seq<Event>)
      requires Valid()
      modifies this
      ensures Valid() && View() == Run(old(View()), es)
      ensures forall q: nat :: Leads(At(old(View()), q).state, At(View(), q).state)
      ensures !membershipOnly ==> panicked == old(panicked)
    {
      ghost var c := View();
      ghost var goal := Run(c, es);
      assert es[0..] == es;
      for i := 0 to |es|
        invariant Valid() && Run(View(), es[i..]) == goal
        invariant !membershipOnly ==> panicked == c.panicked
      {
        assert es[i..][1..] == es[i + 1..];
        Handle(es[i]);
      }
      assert es[|es|..] == [];
      forall q: nat ensures Leads(At(c, q).state, At(View(), q).state) { DeletionDominates(c, es, q); }
    }
  }
}
