/** A name whose deletion waits for nothing is dead: no run ever makes a group of that name again. */
module GroupDeadProofs {
  import opened Wrappers
  import opened GroupLifecycle
  import opened GroupLifecycleProofs
  import opened GroupNameProofs
  import GroupReplayProofs

  /** A deletion of the group is still to come: it is retried, or an address group waits to be released. */
  predicate DeleteDue(membershipOnly: bool, s: Sg) {
    s.retryOp == Some(OpDelete) || (membershipOnly && s.deletePending)
  }

  ghost predicate NoDeleteDue(c: Ctl) {
    forall q: nat :: !DeleteDue(c.membershipOnly, At(c, q))
  }

  /** No group was made, the deferred-delete item is as before, and nothing was replayed. */
  predicate Mild(c: Ctl, r: Ctl) {
    r.pend == c.pend && |r.sgs| == |c.sgs| && r.replays == c.replays
  }

  ghost predicate Meek(c: Ctl, r: Ctl) {
    NoDeleteDue(c) ==> NoDeleteDue(r) && Mild(c, r)
  }

  // ---------------------------------------------------------------------------------------------
  // Nothing but a deletion touches the item
  // ---------------------------------------------------------------------------------------------

  lemma SetMeek(c: Ctl, id: nat, s: Sg)
    requires s.retryOp == At(c, id).retryOp || s.retryOp != Some(OpDelete)
    requires s.deletePending == At(c, id).deletePending
    ensures Meek(c, Set(c, id, s))
  {
  }

  lemma SameObjects(c: Ctl, d: Ctl)
    requires d.sgs == c.sgs && d.membershipOnly == c.membershipOnly
    ensures NoDeleteDue(d) <==> NoDeleteDue(c)
  {
    forall q: nat ensures At(d, q) == At(c, q) {}
  }

  lemma IssueMeek(c: Ctl, id: nat, call: Call)
    ensures Meek(c, Issue(c, id, call))
  {
    SetMeek(c, id, Record(At(c, id), call));
    SameObjects(Set(c, id, Record(At(c, id), call)), Issue(c, id, call));
  }

  lemma AddImplMeek(c: Ctl, id: nat)
    ensures Meek(c, AddImpl(c, id))
  {
    var s := At(c, id);
    var c1 := c.(indexer := Filed(c, id));
    assert forall q: nat :: At(c1, q) == At(c, q);
    SetMeek(c1, id, s.(status := InProgress));
    IssueMeek(Set(c1, id, s.(status := InProgress)), id, Create);
  }

  lemma RetryRemoveMeek(c: Ctl, v: Vpc)
    ensures Meek(c, RetryRemove(c, v))
  {
    if Queued(c, v).Some? {
      var id := Queued(c, v).value.sg;
      var d := Set(c, id, At(c, id).(retryOp := None));
      SetMeek(c, id, At(c, id).(retryOp := None));
      assert forall q: nat :: At(RetryRemove(c, v), q) == At(d, q);
    }
  }

  lemma UpdateImplMeek(c: Ctl, id: nat, added: set<Member>, removed: set<Member>)
    ensures Meek(c, UpdateImpl(c, id, added, removed))
  {
    var s := At(c, id).(members := At(c, id).members - removed + added);
    SetMeek(c, id, s);
    IssueMeek(Set(c, id, s), id, SetMembers);
  }

  lemma ClearMembersMeek(c: Ctl, id: nat)
    ensures Meek(c, ClearMembersImpl(c, id))
  {
    IssueMeek(c, id, ClearMembers);
    SetMeek(c, id, At(c, id).(ruleReady := false));
  }

  lemma UpdateAnpRulesMeek(c: Ctl, id: nat, o: NpOutcome)
    ensures Meek(c, UpdateAnpRules(c, id, o))
  {
    match o
    case NoPolicies => ClearMembersMeek(c, id);
    case ComputeError => SetMeek(c, id, At(c, id).(status := Failed));
    case NoDelta => IssueMeek(c, id, NoRuleChange);
    case Delta =>
      var s := At(c, id).(cloudOpInProgress := true);
      SetMeek(c, id, s);
      IssueMeek(Set(c, id, s), id, UpdateRules);
    case NotReady =>
  }

  lemma {:induction false} UpdateAnpsMeek(c: Ctl, id: nat, os: seq<NpOutcome>)
    ensures Meek(c, UpdateAnps(c, id, os))
    decreases os
  {
    if os != [] {
      UpdateAnpRulesMeek(c, id, os[0]);
      UpdateAnpsMeek(UpdateAnpRules(c, id, os[0]), id, os[1..]);
    }
  }

  lemma UpdateAllRulesMeek(c: Ctl, id: nat, os: seq<NpOutcome>)
    ensures Meek(c, UpdateAllRules(c, id, os))
  {
    ClearMembersMeek(c, id);
    UpdateAnpsMeek(c, id, os);
  }

  lemma RedoMeek(c: Ctl, id: nat, op: Op, os: seq<NpOutcome>, referred: bool)
    requires op != OpDelete
    ensures Meek(c, Redo(c, id, op, os, referred))
  {
    if op == OpAdd {
      AddImplMeek(c, id);
    } else if op == OpUpdateMembers {
      UpdateImplMeek(c, id, {}, {});
    } else {
      UpdateAllRulesMeek(c, id, os);
      assert forall q: nat :: At(c.(panicked := true), q) == At(c, q);
    }
  }

  lemma RunPendingItemMeek(c: Ctl, id: nat, os: seq<NpOutcome>, referred: bool)
    requires At(c, id).retryOp.Some?
    ensures Meek(c, RunPendingItem(c, id, os, referred))
  {
    if NoDeleteDue(c) {
      var op := At(c, id).retryOp.value;
      var c1 := ClearRetry(c, id);
      SetMeek(c, id, At(c, id).(retryOp := None));
      RedoMeek(c1, id, op, os, referred);
      var c2 := Redo(c1, id, op, os, referred);
      SetMeek(c2, id, At(c2, id).(retryInProgress := true, retryOp := Some(op)));
    }
  }

  lemma SpendMeek(c: Ctl, v: Vpc, count: int, least: int)
    ensures Meek(c, Spend(c, v, count, least))
  {
    var d := SetCount(c, v, count - 1);
    assert forall q: nat :: At(d, q) == At(c, q);
    RetryRemoveMeek(d, v);
  }

  lemma RetryUpdateMeek(c: Ctl, v: Vpc, checkRun: bool, op: Op, os: seq<NpOutcome>, referred: bool)
    ensures Meek(c, RetryUpdate(c, v, checkRun, op, os, referred))
  {
    if Queued(c, v).Some? {
      var i := Queued(c, v).value;
      var c1 := TellItem(c, i.sg, op);
      SetMeek(c, i.sg, UpdatePendingItem(At(c, i.sg), op));
      RetryRemoveMeek(c1, v);
      if At(c1, i.sg).retryOp.Some? {
        RunPendingItemMeek(c1, i.sg, os, referred);
        SpendMeek(RunPendingItem(c1, i.sg, os, referred), v, i.count, 1);
      }
    }
  }

  lemma RetrySweepMeek(c: Ctl, v: Vpc, os: seq<NpOutcome>, referred: bool)
    ensures Meek(c, RetrySweep(c, v, os, referred))
  {
    if Queued(c, v).Some? {
      var i := Queued(c, v).value;
      RetryRemoveMeek(c, v);
      SpendMeek(c, v, i.count, 0);
      if At(c, i.sg).retryOp.Some? {
        RunPendingItemMeek(c, i.sg, os, referred);
        SpendMeek(RunPendingItem(c, i.sg, os, referred), v, i.count, 0);
      }
    }
  }

  lemma QueueRetryMeek(c: Ctl, id: nat, op: Op)
    requires op != OpDelete
    ensures Meek(c, QueueRetry(c, id, op))
  {
    var d := Set(c, id, At(c, id).(retryOp := Some(op)));
    SetMeek(c, id, At(c, id).(retryOp := Some(op)));
    assert forall q: nat :: At(d.(retryQueue := QueueRetry(c, id, op).retryQueue), q) == At(d, q);
  }

  lemma RetriedMeek(c: Ctl, id: nat, op: Op, ok: bool, os: seq<NpOutcome>, referred: bool)
    requires op != OpDelete
    ensures Meek(c, Retried(c, id, op, ok, os, referred))
  {
    if ok {
      RetryUpdateMeek(c, At(c, id).vpc, true, op, os, referred);
    } else {
      QueueRetryMeek(c, id, op);
      RetryUpdateMeek(QueueRetry(c, id, op), At(c, id).vpc, false, op, os, referred);
    }
  }

  lemma RulesRefreshedMeek(c: Ctl, id: nat)
    ensures Meek(c, RulesRefreshed(c, id))
  {
    var d := Set(c, id, At(c, id).(ruleReady := true));
    SetMeek(c, id, At(c, id).(ruleReady := true));
    assert forall q: nat :: At(RulesRefreshed(c, id), q) == At(d, q);
  }

  lemma OnSuccessMeek(c: Ctl, id: nat, op: Op, os: seq<NpOutcome>)
    ensures Meek(c, OnSuccess(c, id, op, os))
  {
    match op
    case OpAdd =>
      SetMeek(c, id, At(c, id).(state := if At(c, id).state == Init then Created else At(c, id).state));
      UpdateImplMeek(BecomeCreated(c, id), id, {}, {});
      UpdateAllRulesMeek(BecomeCreated(c, id), id, os);
    case OpUpdateMembers =>
      SetMeek(c, id, At(c, id).(hasMembers := true));
    case OpUpdateRules =>
      RulesRefreshedMeek(c, id);
      UpdateImplMeek(RulesRefreshed(c, id), id, {}, {});
    case OpClearMembers =>
      SetMeek(c, id, At(c, id).(hasMembers := false));
      UpdateAllRulesMeek(SetHasMembers(c, id, false), id, os);
    case OpDelete =>
  }

  lemma AfterStatusMeek(c: Ctl, id: nat, op: Op, ok: bool, os: seq<NpOutcome>, referred: bool)
    ensures Meek(c, AfterStatus(c, id, op, ok, os, referred))
  {
    var v := At(c, id).vpc;
    RetryUpdateMeek(c, v, false, op, [], referred);
    OnSuccessMeek(RetryUpdate(c, v, false, op, [], referred), id, op, os);
  }

  lemma NotifyMeek(c: Ctl, id: nat, op: Op, ok: bool, os: seq<NpOutcome>, retryOs: seq<NpOutcome>,
                   drain: seq<NpOutcome>, referred: bool)
    requires op != OpDelete
    ensures Meek(c, Notify(c, id, op, ok, os, retryOs, drain, referred))
    ensures Uncounted(Notify(c, id, op, ok, os, retryOs, drain, referred)) == Uncounted(c)
  {
    var c1 := SetStatus(c, id, op, ok);
    SetMeek(c, id, At(c, id).(status := if ok then StatusOk else Failed));
    var c2 := AfterStatus(c1, id, op, ok, os, referred);
    AfterStatusMeek(c1, id, op, ok, os, referred);
    RetriedMeek(c2, id, op, ok, retryOs, referred);
    UpdateAnpsMeek(NotifyImpl(c2, id, op, ok, retryOs, referred), id, drain);
  }

  // ---------------------------------------------------------------------------------------------
  // A dead name
  // ---------------------------------------------------------------------------------------------

  /** The name waits for its deletion; none is in flight and none is still to come. */
  ghost predicate Dead(c: Ctl) {
    c.pend.Some? && DeletesIn(c.flight) == 0 && NoDeleteDue(c)
  }

  lemma NoDeleteLands(c: Ctl, k: nat)
    requires k < |c.flight| && DeletesIn(c.flight) == 0
    ensures c.flight[k].call != Delete && DeletesIn(Land(c, k).flight) == 0
  {
    GroupReplayProofs.LandDeletes(c, k);
  }

  lemma RespondStaysDead(c: Ctl, k: nat, op: Op, ok: bool, os: seq<NpOutcome>, retryOs: seq<NpOutcome>,
                         drain: seq<NpOutcome>, referred: bool)
    requires Dead(c)
    ensures Dead(Respond(c, k, op, ok, os, retryOs, drain, referred))
    ensures Mild(c, Respond(c, k, op, ok, os, retryOs, drain, referred))
  {
    if k < |c.flight| && Answers(c.flight[k].call, op, ok) {
      NoDeleteLands(c, k);
      var d := Land(c, k);
      SameObjects(c, d);
      NotifyMeek(d, c.flight[k].sg, op, ok, os, retryOs, drain, referred);
    }
  }

  lemma QuietStaysDead(c: Ctl, e: Event)
    requires Dead(c)
    ensures Dead(QuietStep(c, e)) && Mild(c, QuietStep(c, e))
  {
    match e
    case Sweep(v, os, referred) => RetrySweepMeek(c, v, os, referred);
    case Policy(id, o) => UpdateAnpRulesMeek(c, id, o);
    case RulesDone(id) => SetMeek(c, id, At(c, id).(cloudOpInProgress := false));
    case _ =>
  }

  lemma StepStaysDead(c: Ctl, e: Event)
    requires Dead(c)
    ensures Dead(Step(c, e)) && |Step(c, e).sgs| == |c.sgs| && Step(c, e).replays == c.replays
  {
    match e
    case Group(g, env) =>
      var p := Some(UpdatePendingGroup(c.pend.value, g));
      assert forall q: nat :: At(c.(pend := p), q) == At(c, q);
    case Response(k, op, ok, os, retryOs, drain, referred) =>
      RespondStaysDead(c, k, op, ok, os, retryOs, drain, referred);
    case _ => QuietStaysDead(c, e);
  }

  /** A dead name stays dead whatever happens: no group is made, and no deferred event is ever applied. */
  lemma {:induction false} DeadForever(c: Ctl, es: seq<Event>)
    requires Dead(c)
    ensures Dead(Run(c, es)) && |Run(c, es).sgs| == |c.sgs| && Run(c, es).replays == c.replays
    decreases es
  {
    if es != [] {
      StepStaysDead(c, es[0]);
      DeadForever(Step(c, es[0]), es[1..]);
    }
  }

  // ---------------------------------------------------------------------------------------------
  // The deletion that kills a name
  // ---------------------------------------------------------------------------------------------

  lemma SetNotDue(c: Ctl, id: nat, s: Sg)
    requires NoDeleteDue(c) && !DeleteDue(c.membershipOnly, s)
    ensures NoDeleteDue(Set(c, id, s))
  {
  }

  lemma IssueDeleteNotDue(c: Ctl, id: nat)
    requires c.pend.Some? && NoDeleteDue(c)
    ensures NoDeleteDue(IssueDelete(c, id))
  {
    var c1 := CountDelete(c);
    SameObjects(c, c1);
    var s := At(c, id).(status := InProgress);
    SetNotDue(c1, id, s);
    IssueMeek(Set(c1, id, s), id, Delete);
  }

  lemma CondemnNotDue(c: Ctl, id: nat)
    requires c.pend.Some? && NoDeleteDue(c)
    ensures NoDeleteDue(Condemn(c, id))
  {
    var v := At(c, id).vpc;
    SameObjects(c, c.(indexer := c.indexer - {v}));
    RetryRemoveMeek(c.(indexer := c.indexer - {v}), v);
    var c1 := Unindex(c, v);
    SetNotDue(c1, id, At(c1, id).(retryOp := None));
    SetNotDue(c1, id, At(c1, id).(retryOp := None, state := Garbage));
    IssueDeleteNotDue(MarkGarbage(c1, id), id);
  }

  /** The deletion of the group is put off until nothing refers to it. */
  predicate PutOff(c: Ctl, v: Vpc, env: Env) {
    Taken(c, v, env) && c.membershipOnly && v in env.referred && At(c, Lookup(c, v).value).state != Garbage
  }

  lemma DeleteImplNotDue(c: Ctl, v: Vpc, env: Env)
    requires NoDeleteDue(c) && Taken(c, v, env) && !PutOff(c, v, env)
    ensures NoDeleteDue(DeleteImpl(c, Lookup(c, v).value, v in env.referred))
  {
    var (c1, id) := (EnsurePending(c), Lookup(c, v).value);
    SameObjects(c, c1);
    if At(c, id).state != Garbage { CondemnNotDue(c1, id); } else { IssueDeleteNotDue(c1, id); }
  }

  lemma PutOffElsewhere(c: Ctl, v: Vpc, w: Vpc, env: Env)
    requires Taken(c, v, env) && v != w
    ensures PutOff(DeleteImpl(c, Lookup(c, v).value, v in env.referred), w, env) <==> PutOff(c, w, env)
  {
    DeleteElsewhere(c, Lookup(c, v).value, v in env.referred, w);
  }

  lemma NotPutOffAgain(c: Ctl, v: Vpc, env: Env)
    requires Taken(c, v, env) && !PutOff(c, v, env)
    ensures !PutOff(DeleteImpl(c, Lookup(c, v).value, v in env.referred), v, env)
  {
    var (c1, id) := (EnsurePending(c), Lookup(c, v).value);
    assert At(c1, id) == At(c, id);
    if At(c, id).state != Garbage {
      assert v !in Unindex(c1, v).indexer;
      assert DeleteImpl(c, id, v in env.referred) == Condemn(c1, id);
    } else {
      IssueDeleteMarks(c1, id);
    }
  }

  /** Deleting a name leaves no deletion to come if none of its groups is put off. */
  lemma {:induction false} PassNotDue(c: Ctl, vs: seq<Vpc>, env: Env)
    requires NoDeleteDue(c) && forall v <- vs :: !PutOff(c, v, env)
    ensures NoDeleteDue(DeletePass(c, vs, env))
    decreases vs
  {
    if vs != [] {
      var v := vs[0];
      assert v in vs && forall w <- vs[1..] :: w in vs;
      if !Taken(c, v, env) {
        PassNotDue(c, vs[1..], env);
      } else {
        DeleteImplNotDue(c, v, env);
        forall w <- vs[1..] ensures !PutOff(DeleteImpl(c, Lookup(c, v).value, v in env.referred), w, env) {
          if w == v { NotPutOffAgain(c, v, env); } else { PutOffElsewhere(c, v, w, env); }
        }
        PassNotDue(DeleteImpl(c, Lookup(c, v).value, v in env.referred), vs[1..], env);
      }
    }
  }

  predicate Marked(c: Ctl, id: nat) {
    c.membershipOnly && At(c, id).deletePending
  }

  /** One deletion of the pass: a group that is put off is marked, and stays put off when another one is deleted. */
  lemma OnePutsOff(c: Ctl, w: Vpc, env: Env, v: Vpc)
    requires PutOff(c, v, env) && Taken(c, w, env)
    ensures var (d, id) := (DeleteImpl(c, Lookup(c, w).value, w in env.referred), Lookup(c, v).value);
            PutOff(d, v, env) && Lookup(d, v) == Some(id) && (w == v || Marked(c, id) ==> Marked(d, id))
  {
    var id := Lookup(c, v).value;
    if w != v {
      DeleteElsewhere(c, Lookup(c, w).value, w in env.referred, v);
    } else {
      assert DeleteImpl(c, id, true) == Set(EnsurePending(c), id, At(c, id).(deletePending := true));
    }
  }

  /** A group that is put off is put off for good: it waits, marked, whatever else is deleted. */
  lemma {:induction false} PassPutsOff(c: Ctl, vs: seq<Vpc>, env: Env, v: Vpc)
    requires PutOff(c, v, env)
    ensures v in vs || Marked(c, Lookup(c, v).value) ==> Marked(DeletePass(c, vs, env), Lookup(c, v).value)
    decreases vs
  {
    if vs != [] {
      assert v in vs ==> v == vs[0] || v in vs[1..];
      if !Taken(c, vs[0], env) {
        PassPutsOff(c, vs[1..], env, v);
      } else {
        OnePutsOff(c, vs[0], env, v);
        PassPutsOff(DeleteImpl(c, Lookup(c, vs[0]).value, vs[0] in env.referred), vs[1..], env, v);
      }
    }
  }

  /**
   * Deleting a name while no other deletion is to come kills it exactly when it has groups to delete, none of
   * them is in the cloud yet, and none is put off because something refers to it; dead, it never has a group again.
   */
  lemma DeletionKillsName(c: Ctl, env: Env, es: seq<Event>)
    requires c.pend.None? && Uncounted(c) == 0 && AllDominated(c) && NoDeleteDue(c)
    ensures var d := ProcessGroup(c, Deleted, env);
            && (Dead(d) <==>
                (exists v <- c.vpcs :: Taken(c, v, env)) &&
                (forall v <- c.vpcs :: Taken(c, v, env) ==>
                   NotInCloud(At(c, Lookup(c, v).value)) && !(c.membershipOnly && v in env.referred)))
            && (Dead(d) ==> Dead(Run(d, es)) && |Run(d, es).sgs| == |d.sgs| && Run(d, es).replays == d.replays)
  {
    var d := ProcessGroup(c, Deleted, env);
    NameWaits(c, env);
    forall v <- c.vpcs
      ensures !Reaches(c, v, env) && !PutOff(c, v, env) <==>
              (Taken(c, v, env) ==> NotInCloud(At(c, Lookup(c, v).value)) && !(c.membershipOnly && v in env.referred))
    {
      if Taken(c, v, env) { assert Dominated(At(c, Lookup(c, v).value)); }
    }
    if v :| v in c.vpcs && PutOff(c, v, env) {
      PassPutsOff(c, c.vpcs, env, v);
      assert DeleteDue(d.membershipOnly, At(d, Lookup(c, v).value));
    } else {
      PassNotDue(c, c.vpcs, env);
    }
    if Dead(d) { DeadForever(d, es); }
  }
}
