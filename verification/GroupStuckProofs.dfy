/** Runs in which the life cycle does not do what one would hope, and exactly which events lead there. */
module GroupStuckProofs {
  import opened Wrappers
  import opened GroupLifecycle
  import opened GroupLifecycleProofs
  import opened GroupDeadProofs
  import opened GroupIndexProofs
  import opened GroupGoneProofs

  // ---------------------------------------------------------------------------------------------
  // A retry that panics
  // ---------------------------------------------------------------------------------------------

  /** The group is to retry clearing its members or updating rules, and would do so now. */
  predicate RetriesRules(s: Sg) {
    s.retryOp.Some? && !s.retryInProgress && s.retryOp.value in {OpClearMembers, OpUpdateRules}
  }

  lemma RunPanics(c: Ctl, id: nat, os: seq<NpOutcome>, referred: bool)
    requires At(c, id).retryOp.Some? && !At(c, id).retryInProgress && !c.panicked
    ensures RunPendingItem(c, id, os, referred).panicked <==> c.membershipOnly && RetriesRules(At(c, id))
  {
    var op := At(c, id).retryOp.value;
    assert Redo(ClearRetry(c, id), id, op, os, referred).panicked <==>
           c.membershipOnly && op in {OpClearMembers, OpUpdateRules};
  }

  lemma SweepPanics(c: Ctl, v: Vpc, os: seq<NpOutcome>, referred: bool)
    requires !c.panicked
    ensures RetrySweep(c, v, os, referred).panicked <==>
            c.membershipOnly && Queued(c, v).Some? && Queued(c, v).value.count > 0 && RetriesRules(At(c, Queued(c, v).value.sg))
  {
    if Queued(c, v).Some? {
      var i := Queued(c, v).value;
      if At(c, i.sg).retryOp.Some? && !At(c, i.sg).retryInProgress { RunPanics(c, i.sg, os, referred); }
    }
  }

  lemma UpdatePanics(c: Ctl, v: Vpc, checkRun: bool, op: Op, os: seq<NpOutcome>, referred: bool)
    requires !c.panicked
    ensures RetryUpdate(c, v, checkRun, op, os, referred).panicked <==>
            c.membershipOnly && checkRun && Queued(c, v).Some? &&
            RetriesRules(UpdatePendingItem(At(c, Queued(c, v).value.sg), op))
  {
    if Queued(c, v).Some? {
      var i := Queued(c, v).value;
      var c1 := TellItem(c, i.sg, op);
      ToldObject(c, i.sg, op);
      if At(c1, i.sg).retryOp.Some? && !At(c1, i.sg).retryInProgress { RunPanics(c1, i.sg, os, referred); }
    }
  }

  lemma ToldObject(c: Ctl, id: nat, op: Op)
    ensures At(TellItem(c, id, op), id) == UpdatePendingItem(At(c, id), op)
  {
  }

  /** What decides whether and what a group retries. */
  predicate SameRetry(s: Sg, t: Sg) {
    s.vpc == t.vpc && s.status == t.status && s.retryOp == t.retryOp && s.retryInProgress == t.retryInProgress
  }

  lemma AddressOkRetry(c: Ctl, id: nat, op: Op, q: nat)
    ensures SameRetry(At(AddressOk(c, id, op), q), At(c, q)) && AddressOk(c, id, op).retryQueue == c.retryQueue
  {
    var d := BecomeCreated(c, id);
    UpdateRetry(d, id, q);
  }

  lemma IssueRetry(c: Ctl, id: nat, call: Call, q: nat)
    ensures SameRetry(At(Issue(c, id, call), q), At(c, q))
  {
    var d := Set(c, id, Record(At(c, id), call));
    assert At(Issue(c, id, call), q) == At(d, q);
  }

  lemma UpdateRetry(c: Ctl, id: nat, q: nat)
    ensures SameRetry(At(UpdateImpl(c, id, {}, {}), q), At(c, q)) && UpdateImpl(c, id, {}, {}).retryQueue == c.retryQueue
  {
    var d := Set(c, id, At(c, id).(members := At(c, id).members - {} + {}));
    assert SameRetry(At(d, q), At(c, q));
    IssueRetry(d, id, SetMembers, q);
  }

  /** The object an answer finds queued for retry, once it knows the answer. */
  function Told(c: Ctl, id: nat, op: Op, q: nat): Sg {
    UpdatePendingItem(At(SetStatus(c, id, op, true), q), op)
  }

  lemma TellTwice(s: Sg, op: Op)
    ensures UpdatePendingItem(UpdatePendingItem(s, op), op) == UpdatePendingItem(s, op)
  {
  }

  lemma AfterStatusRetry(c: Ctl, id: nat, op: Op, os: seq<NpOutcome>, referred: bool)
    requires c.membershipOnly
    ensures var d := AfterStatus(c, id, op, true, os, referred);
            var v := At(c, id).vpc;
            && d.retryQueue == c.retryQueue && At(d, id).vpc == v && d.panicked == c.panicked
            && (Queued(c, v).Some? <==> Queued(d, v).Some?)
            && (Queued(c, v).Some? ==>
                  Queued(d, v) == Queued(c, v) &&
                  SameRetry(At(d, Queued(c, v).value.sg), UpdatePendingItem(At(c, Queued(c, v).value.sg), op)))
  {
    var v := At(c, id).vpc;
    var d := RetryUpdate(c, v, false, op, [], referred);
    if Queued(c, v).Some? {
      ToldObject(c, Queued(c, v).value.sg, op);
      AddressOkRetry(d, id, op, Queued(c, v).value.sg);
    } else if v in c.retryQueue {
      AddressOkRetry(d, id, op, c.retryQueue[v].sg);
    }
    AddressOkRetry(d, id, op, id);
  }

  /** A successful answer panics exactly when the group queued in its VPC then retries rules. */
  lemma NotifyPanics(c: Ctl, id: nat, op: Op, ok: bool, os: seq<NpOutcome>, retryOs: seq<NpOutcome>,
                     drain: seq<NpOutcome>, referred: bool)
    requires !c.panicked
    ensures Notify(c, id, op, ok, os, retryOs, drain, referred).panicked <==>
            c.membershipOnly && ok && Queued(c, At(c, id).vpc).Some? &&
            RetriesRules(Told(c, id, op, Queued(c, At(c, id).vpc).value.sg))
  {
    var v := At(c, id).vpc;
    var c1 := SetStatus(c, id, op, ok);
    StatusQueued(c, id, op, ok, v);
    if c.membershipOnly {
      if ok {
        AfterStatusRetry(c1, id, op, os, referred);
        var c2 := AfterStatus(c1, id, op, ok, os, referred);
        UpdatePanics(c2, v, true, op, retryOs, referred);
        if Queued(c, v).Some? { TellTwice(At(c1, Queued(c, v).value.sg), op); }
      } else {
        UpdatePanics(QueueRetry(c1, id, op), v, false, op, retryOs, referred);
      }
    }
  }

  lemma StatusQueued(c: Ctl, id: nat, op: Op, ok: bool, v: Vpc)
    ensures Queued(SetStatus(c, id, op, ok), v) == Queued(c, v) && At(SetStatus(c, id, op, ok), id).vpc == At(c, id).vpc
  {
  }

  /** The events that make the controller panic, told from the state before them. */
  predicate Panics(c: Ctl, e: Event) {
    c.membershipOnly &&
    match e
    case Sweep(v, _, _) =>
      Queued(c, v).Some? && Queued(c, v).value.count > 0 && RetriesRules(At(c, Queued(c, v).value.sg))
    case Response(k, op, ok, _, _, _, _) =>
      && k < |c.flight| && Answers(c.flight[k].call, op, ok) && ok
      && (var id := c.flight[k].sg;
          Queued(c, At(c, id).vpc).Some? && RetriesRules(Told(c, id, op, Queued(c, At(c, id).vpc).value.sg)))
    case _ => false
  }

  /** A step panics exactly on such an event: an address group retries clearing its members. */
  lemma StepPanics(c: Ctl, e: Event)
    requires !c.panicked
    ensures Step(c, e).panicked <==> Panics(c, e)
  {
    match e
    case Response(k, op, ok, os, retryOs, drain, referred) =>
      if k < |c.flight| && Answers(c.flight[k].call, op, ok) {
        var (d, id) := (Land(c, k), c.flight[k].sg);
        LandQueued(c, k, At(c, id).vpc);
        NotifyPanics(d, id, op, ok, os, retryOs, drain, referred);
        if Queued(c, At(c, id).vpc).Some? { LandTold(c, k, id, op, Queued(c, At(c, id).vpc).value.sg); }
      }
    case Sweep(v, os, referred) => SweepPanics(c, v, os, referred);
    case _ =>
  }

  lemma LandQueued(c: Ctl, k: nat, v: Vpc)
    requires k < |c.flight|
    ensures Queued(Land(c, k), v) == Queued(c, v)
  {
    if v in c.retryQueue { assert At(Land(c, k), c.retryQueue[v].sg) == At(c, c.retryQueue[v].sg); }
  }

  lemma LandTold(c: Ctl, k: nat, id: nat, op: Op, q: nat)
    requires k < |c.flight|
    ensures Told(Land(c, k), id, op, q) == Told(c, id, op, q) && At(Land(c, k), id) == At(c, id)
  {
    assert At(Land(c, k), q) == At(c, q) && At(Land(c, k), id) == At(c, id);
  }

  /** The controller of applied-to groups never panics, whatever happens. */
  lemma {:induction false} AppliedToNeverPanics(c: Ctl, es: seq<Event>)
    requires !c.membershipOnly && !c.panicked
    ensures !Run(c, es).panicked
    decreases es
  {
    if es != [] { AppliedToNeverPanics(Step(c, es[0]), es[1..]); }
  }

  // ---------------------------------------------------------------------------------------------
  // A name that waits
  // ---------------------------------------------------------------------------------------------

  predicate DeleteAnswer(e: Event) {
    e.Response? && e.op == OpDelete
  }

  lemma StepKeepsItem(c: Ctl, e: Event)
    requires c.pend.Some? && !DeleteAnswer(e)
    ensures Step(c, e).pend.Some?
  {
  }

  /** A queued item leaves only when a delete answers: until then group events are recorded, never applied. */
  lemma {:induction false} ItemWaits(c: Ctl, es: seq<Event>)
    requires c.pend.Some? && forall i :: 0 <= i < |es| ==> !DeleteAnswer(es[i])
    ensures Run(c, es).pend.Some?
    decreases es
  {
    if es != [] {
      StepKeepsItem(c, es[0]);
      ItemWaits(Step(c, es[0]), es[1..]);
    }
  }

  // ---------------------------------------------------------------------------------------------
  // Three runs, each from the start
  // ---------------------------------------------------------------------------------------------

  /** A controller with one VPC, one machine in it and one group. */
  function Solo(membershipOnly: bool, sg: Sg, indexed: bool, queue: map<Vpc, RetryItem>, pend: Option<PendingGroup>,
                flight: seq<Flight>): Ctl {
    Ctl(membershipOnly, true, [1], map[7 := 1], [sg], if indexed then map[1 := 0] else map[], queue, pend, flight, [], false)
  }

  const NOWHERE := Env({}, {})

  function Answer(k: nat, op: Op, ok: bool, os: seq<NpOutcome>): Event {
    Response(k, op, ok, os, [], [], false)
  }

  /** With nothing queued for retry, the answer of a call other than a delete only has its own effect. */
  lemma AnswerWorks(c: Ctl, k: nat, op: Op, os: seq<NpOutcome>, d: Ctl)
    requires !c.panicked && k < |c.flight| && op != OpDelete && Answers(c.flight[k].call, op, true)
    requires c.retryQueue == map[] && d.retryQueue == map[]
    requires OnSuccess(SetStatus(Land(c, k), c.flight[k].sg, op, true), c.flight[k].sg, op, os) == d
    ensures Step(c, Answer(k, op, true, os)) == d
  {
    var id := c.flight[k].sg;
    var c1 := SetStatus(Land(c, k), id, op, true);
    assert AfterStatus(c1, id, op, true, os, false) == d;
    assert Retried(d, id, op, true, [], false) == d;
  }

  /** A failure with nothing queued for retry. */
  lemma FailureQueued(membershipOnly: bool, s: Sg, op: Op, flight: seq<Flight>)
    requires s.vpc == 1 && op != OpDelete && s.state != Garbage && s.status == Failed && !s.retryInProgress
    ensures Retried(Solo(membershipOnly, s, true, map[], None, flight), 0, op, false, [], false) ==
            Solo(membershipOnly, s.(retryOp := Some(op)), true, map[1 := RetryItem(0, 3)], None, flight)
  {
    var t := s.(retryOp := Some(op));
    var d := Solo(membershipOnly, t, true, map[1 := RetryItem(0, 3)], None, flight);
    assert QueueRetry(Solo(membershipOnly, s, true, map[], None, flight), 0, op) == d;
    assert TellItem(d, 0, op) == d by { assert UpdatePendingItem(t, op) == t && [t][0 := t] == [t]; }
  }

  /** With nothing queued for retry, the failure of a call other than a delete is recorded and queued. */
  lemma AnswerFails(c: Ctl, k: nat, op: Op, d: Ctl)
    requires !c.panicked && k < |c.flight| && op != OpDelete && Answers(c.flight[k].call, op, false)
    requires d == Retried(SetStatus(Land(c, k), c.flight[k].sg, op, false), c.flight[k].sg, op, false, [], false)
    ensures Step(c, Answer(k, op, false, [])) == d
  {
    var c1 := SetStatus(Land(c, k), c.flight[k].sg, op, false);
    assert AfterStatus(c1, c.flight[k].sg, op, false, [], false) == c1;
  }

  /** The group's first member makes it be created. */
  lemma FirstMember(membershipOnly: bool)
    ensures Run(Start(membershipOnly, true, [1], map[7 := 1]), [Group(Added({7}), NOWHERE)]) ==
            Solo(membershipOnly, NewSg(1, {7}).(status := InProgress), true, map[], None, [Flight(0, Create)])
  {
    var c := Start(membershipOnly, true, [1], map[7 := 1]);
    assert InVpc(c, {7}, 1) == {7};
    var c1 := AddImpl(NewGroup(c, 1, {7}), 0);
    assert c1 == Solo(membershipOnly, NewSg(1, {7}).(status := InProgress), true, map[], None, [Flight(0, Create)]);
    assert c.vpcs[1..] == [];
    var pass := AddPass(c, c.vpcs, {7}, {}, set v <- c.vpcs);
    assert pass.0 == AddPass(c1, [], {7}, {}, set v <- c.vpcs).0;
    assert InVpc(c1, {}, 1) == {};
    assert [Group(Added({7}), NOWHERE)][1..] == [];
  }

  // The first: creation fails, the group is deleted.

  lemma CreateFails()
    ensures Step(Solo(false, NewSg(1, {7}).(status := InProgress), true, map[], None, [Flight(0, Create)]),
                 Answer(0, OpAdd, false, [])) ==
            Solo(false, NewSg(1, {7}).(status := Failed, retryOp := Some(OpAdd)), true, map[1 := RetryItem(0, 3)], None, [])
  {
    var failed := Solo(false, NewSg(1, {7}).(status := Failed), true, map[], None, []);
    FailureQueued(false, NewSg(1, {7}).(status := Failed), OpAdd, []);
    AnswerFails(Solo(false, NewSg(1, {7}).(status := InProgress), true, map[], None, [Flight(0, Create)]), 0, OpAdd,
                Retried(failed, 0, OpAdd, false, [], false));
  }

  /** A group whose creation failed is deleted: its name is dead, whatever happens next. */
  lemma NameStaysDeleted(es: seq<Event>)
    ensures var c := Run(Start(false, true, [1], map[7 := 1]),
                         [Group(Added({7}), NOWHERE)] + [Answer(0, OpAdd, false, [])] + [Group(Deleted, NOWHERE)]);
            Dead(c) && Dead(Run(c, es)) && |Run(c, es).sgs| == 1
  {
    var start := Start(false, true, [1], map[7 := 1]);
    var c := Solo(false, NewSg(1, {7}).(status := Failed, retryOp := Some(OpAdd)), true, map[1 := RetryItem(0, 3)], None, []);
    FirstMember(false);
    CreateFails();
    RunAppend(start, [Group(Added({7}), NOWHERE)], Answer(0, OpAdd, false, []));
    RunAppend(start, [Group(Added({7}), NOWHERE)] + [Answer(0, OpAdd, false, [])], Group(Deleted, NOWHERE));
    FailedGroupDies(c, es);
    assert Step(c, Group(Deleted, NOWHERE)) == ProcessGroup(c, Deleted, NOWHERE);
  }

  lemma FailedGroupDies(c: Ctl, es: seq<Event>)
    requires c == Solo(false, NewSg(1, {7}).(status := Failed, retryOp := Some(OpAdd)), true, map[1 := RetryItem(0, 3)],
                       None, [])
    ensures var d := ProcessGroup(c, Deleted, NOWHERE);
            Dead(d) && Dead(Run(d, es)) && |Run(d, es).sgs| == 1
  {
    forall q: nat ensures Dominated(At(c, q)) && At(c, q).retryOp != Some(OpDelete) {}
    assert Lookup(c, 1) == Some(0) && 1 in c.vpcs;
    DeletionKillsName(c, NOWHERE, es);
    OneGroup(c);
  }

  lemma OneGroup(c: Ctl)
    requires c.vpcs == [1] && Lookup(c, 1) == Some(0) && !c.membershipOnly
    requires At(c, 0).state == Init && At(c, 0).status != InProgress
    ensures |ProcessGroup(c, Deleted, NOWHERE).sgs| == |c.sgs| || c.pend.Some?
  {
    if c.pend.None? {
      var d := DeleteImpl(c, 0, false);
      assert |d.sgs| == |c.sgs|;
      assert DeletePass(c, [1], NOWHERE) == DeletePass(d, [], NOWHERE) by { assert [1][1..] == []; }
    }
  }

  // The second: a late rule answer puts the garbage group back.

  lemma CreateSucceeds()
    ensures Step(Solo(false, NewSg(1, {7}).(status := InProgress), true, map[], None, [Flight(0, Create)]),
                 Answer(0, OpAdd, true, [Delta])) ==
            Solo(false, NewSg(1, {7}).(state := Created, cloudOpInProgress := true), true, map[], None, [Flight(0, UpdateRules)])
  {
    var created := Solo(false, NewSg(1, {7}).(state := Created), true, map[], None, []);
    var d := Solo(false, NewSg(1, {7}).(state := Created, cloudOpInProgress := true), true, map[], None,
                  [Flight(0, UpdateRules)]);
    assert UpdateAllRules(created, 0, [Delta]) == d by {
      assert [Delta][1..] == [];
      assert UpdateAnpRules(created, 0, Delta) == d;
    }
    AnswerWorks(Solo(false, NewSg(1, {7}).(status := InProgress), true, map[], None, [Flight(0, Create)]), 0, OpAdd, [Delta], d);
  }

  /** The garbage group with the delete in flight, and the item that counts it. */
  function Going(flight: seq<Flight>, indexed: bool, ready: bool): Ctl {
    Solo(false, NewSg(1, {7}).(state := Garbage, cloudOpInProgress := true, status := InProgress, ruleReady := ready), indexed,
         map[], Some(PendingGroup(1, false, None, {}, {}, [])), flight)
  }

  lemma DeleteStarts()
    ensures Step(Solo(false, NewSg(1, {7}).(state := Created, cloudOpInProgress := true), true, map[], None,
                      [Flight(0, UpdateRules)]), Group(Deleted, NOWHERE)) ==
            Going([Flight(0, UpdateRules), Flight(0, Delete)], false, false)
  {
    var c := Solo(false, NewSg(1, {7}).(state := Created, cloudOpInProgress := true), true, map[], None,
                  [Flight(0, UpdateRules)]);
    var d := DeleteImpl(c, 0, false);
    assert d == Going([Flight(0, UpdateRules), Flight(0, Delete)], false, false);
    assert [1][1..] == [];
    assert DeletePass(c, [1], NOWHERE) == DeletePass(d, [], NOWHERE);
  }

  lemma RulesComeLate()
    ensures Step(Going([Flight(0, UpdateRules), Flight(0, Delete)], false, false), Answer(0, OpUpdateRules, true, [])) ==
            Going([Flight(0, Delete)], true, true)
  {
    var c := Going([Flight(0, UpdateRules), Flight(0, Delete)], false, false);
    assert Land(c, 0) == Going([Flight(0, Delete)], false, false);
    assert {7} - {} + {} == {7};
    AnswerWorks(c, 0, OpUpdateRules, [], Going([Flight(0, Delete)], true, true));
  }

  /** The run ends with nothing in flight and nothing waiting, and the VPC shut. */
  function Shutdown(): Ctl {
    Solo(false, NewSg(1, {7}).(state := Garbage, cloudOpInProgress := true, ruleReady := true), true, map[], None, [])
  }

  lemma DeleteSucceeds()
    ensures Step(Going([Flight(0, Delete)], true, true), Answer(0, OpDelete, true, [])) == Shutdown()
  {
    var c := Going([Flight(0, Delete)], true, true);
    assert Land(c, 0) == Going([], true, true);
    var d := Shutdown().(pend := Some(PendingGroup(1, false, None, {}, {}, [])));
    assert SetStatus(Going([], true, true), 0, OpDelete, true) == d;
    assert AfterStatus(d, 0, OpDelete, true, [], false) == d;
    assert NotifyImpl(d, 0, OpDelete, true, [], false) == Shutdown() by {
      assert Retried(d, 0, OpDelete, true, [], false) == d;
    }
  }

  /** The delete was issued and answered, and still nothing that follows ever makes a group in that VPC again. */
  lemma LateRulesShutVpc(es: seq<Event>)
    ensures Run(Start(false, true, [1], map[7 := 1]),
                [Group(Added({7}), NOWHERE)] + [Answer(0, OpAdd, true, [Delta])] + [Group(Deleted, NOWHERE)]
                + [Answer(0, OpUpdateRules, true, [])] + [Answer(0, OpDelete, true, [])]) == Shutdown()
    ensures Shutdown().pend.None? && Shutdown().flight == [] && Gone(Run(Shutdown(), es), 1)
  {
    var start := Start(false, true, [1], map[7 := 1]);
    FirstMember(false);
    CreateSucceeds();
    DeleteStarts();
    RulesComeLate();
    DeleteSucceeds();
    var r1 := [Group(Added({7}), NOWHERE)];
    var r2 := r1 + [Answer(0, OpAdd, true, [Delta])];
    var r3 := r2 + [Group(Deleted, NOWHERE)];
    RunAppend(start, r1, Answer(0, OpAdd, true, [Delta]));
    RunAppend(start, r2, Group(Deleted, NOWHERE));
    RunAppend(start, r3, Answer(0, OpUpdateRules, true, []));
    RunAppend(start, r3 + [Answer(0, OpUpdateRules, true, [])], Answer(0, OpDelete, true, []));
    GoneForever(Shutdown(), es, 1);
  }

  // The third: an address group cannot clear its members.

  /** An address group that exists, with membership calls in flight. */
  function Existing(members: set<Member>, flight: seq<Flight>): Ctl {
    Solo(true, NewSg(1, members).(state := Created), true, map[], None, flight)
  }

  lemma AddressCreated()
    ensures Step(Solo(true, NewSg(1, {7}).(status := InProgress), true, map[], None, [Flight(0, Create)]),
                 Answer(0, OpAdd, true, [])) == Existing({7}, [Flight(0, SetMembers)])
  {
    assert {7} - {} + {} == {7};
    assert UpdateImpl(Existing({7}, []), 0, {}, {}) == Existing({7}, [Flight(0, SetMembers)]);
    AnswerWorks(Solo(true, NewSg(1, {7}).(status := InProgress), true, map[], None, [Flight(0, Create)]), 0, OpAdd, [],
                Existing({7}, [Flight(0, SetMembers)]));
  }

  lemma LastMemberLeaves()
    ensures Step(Existing({7}, [Flight(0, SetMembers)]), Group(Modified({}, {7}), NOWHERE)) ==
            Existing({}, [Flight(0, SetMembers), Flight(0, SetMembers)])
  {
    var c := Existing({7}, [Flight(0, SetMembers)]);
    assert InVpc(c, {}, 1) == {} && InVpc(c, {7}, 1) == {7};
    assert [1][1..] == [];
    var left := set v <- c.vpcs;
    assert AddPass(c, [1], {}, {7}, left) == AddPass(c, [], {}, {7}, left);
    assert 1 in left;
    assert {7} - {7} + {} == {};
    assert UpdateImpl(c, 0, {}, {7}) == Existing({}, [Flight(0, SetMembers), Flight(0, SetMembers)]);
    assert RemovePass(c, [1], {7}, left) == RemovePass(UpdateImpl(c, 0, {}, {7}), [], {7}, left);
  }

  lemma ClearFails()
    ensures Step(Existing({}, [Flight(0, SetMembers), Flight(0, SetMembers)]), Answer(1, OpClearMembers, false, [])) ==
            Solo(true, NewSg(1, {}).(state := Created, status := Failed, retryOp := Some(OpClearMembers)), true,
                 map[1 := RetryItem(0, 3)], None, [Flight(0, SetMembers)])
  {
    var c := Existing({}, [Flight(0, SetMembers), Flight(0, SetMembers)]);
    assert Land(c, 1) == Existing({}, [Flight(0, SetMembers)]);
    var failed := Solo(true, NewSg(1, {}).(state := Created, status := Failed), true, map[], None, [Flight(0, SetMembers)]);
    FailureQueued(true, NewSg(1, {}).(state := Created, status := Failed), OpClearMembers, [Flight(0, SetMembers)]);
    AnswerFails(c, 1, OpClearMembers, Retried(failed, 0, OpClearMembers, false, [], false));
  }

  /** From the start: an address group whose last member leaves, a failed call, and the next sweep panics. */
  lemma AddressControllerPanics()
    ensures Run(Start(true, true, [1], map[7 := 1]),
                [Group(Added({7}), NOWHERE)] + [Answer(0, OpAdd, true, [])] + [Group(Modified({}, {7}), NOWHERE)]
                + [Answer(1, OpClearMembers, false, [])] + [Sweep(1, [], false)]).panicked
  {
    var start := Start(true, true, [1], map[7 := 1]);
    FirstMember(true);
    AddressCreated();
    LastMemberLeaves();
    ClearFails();
    var r1 := [Group(Added({7}), NOWHERE)];
    var r2 := r1 + [Answer(0, OpAdd, true, [])];
    var r3 := r2 + [Group(Modified({}, {7}), NOWHERE)];
    var r4 := r3 + [Answer(1, OpClearMembers, false, [])];
    RunAppend(start, r1, Answer(0, OpAdd, true, []));
    RunAppend(start, r2, Group(Modified({}, {7}), NOWHERE));
    RunAppend(start, r3, Answer(1, OpClearMembers, false, []));
    RunAppend(start, r4, Sweep(1, [], false));
    SweepOfClearedPanics(Run(start, r4));
  }

  lemma SweepOfClearedPanics(c: Ctl)
    requires c == Solo(true, NewSg(1, {}).(state := Created, status := Failed, retryOp := Some(OpClearMembers)), true,
                       map[1 := RetryItem(0, 3)], None, [Flight(0, SetMembers)])
    ensures Step(c, Sweep(1, [], false)).panicked
  {
    StepPanics(c, Sweep(1, [], false));
  }
}
