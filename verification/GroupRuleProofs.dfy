/** How an applied-to group comes into use and out of it: creation, rules, members, and back. */
module GroupRuleProofs {
  import opened Wrappers
  import opened GroupLifecycle
  import opened GroupLifecycleProofs
  import opened GroupRetryProofs

  /** A group that exists or is to exist, with nothing retried in its VPC. */
  predicate Alive(c: Ctl, id: nat) {
    && !c.panicked && !c.membershipOnly && Quiet(c, id)
    && At(c, id).state != Garbage && !At(c, id).deletePending
  }

  /** The group exists, with these members: rules realized, members realized, a rule update under way. */
  predicate Stands(c: Ctl, id: nat, ms: set<Member>, ready: bool, has: bool, busy: bool) {
    && Alive(c, id) && At(c, id).state == Created && At(c, id).members == ms
    && At(c, id).ruleReady == ready && At(c, id).hasMembers == has && At(c, id).cloudOpInProgress == busy
  }

  function Success(k: nat, op: Op, os: seq<NpOutcome>): Event {
    Response(k, op, true, os, [], [], false)
  }

  /** With nothing to retry, an answer has its own effect and no other. */
  lemma QuietAnswer(c: Ctl, rest: seq<Flight>, id: nat, call: Call, op: Op, os: seq<NpOutcome>) returns (c1: Ctl)
    requires Alive(c, id) && c.flight == rest + [Flight(id, call)] && Answers(call, op, true) && op != OpDelete
    ensures Step(c, Success(|rest|, op, os)) == AppliedToOk(c1, id, op, os)
    ensures c1.flight == rest && Alive(c1, id) && At(c1, id) == At(c, id).(status := StatusOk) && |c1.sgs| == |c.sgs|
  {
    var c0 := Land(c, |rest|);
    LandQuiet(c, |rest|, id);
    c1 := SetStatus(c0, id, op, true);
    assert At(c1, id) == At(c, id).(status := StatusOk) && Queued(c1, At(c, id).vpc) == Queued(c, At(c, id).vpc);
    assert c0.flight == rest;
    var c2 := OnSuccess(c1, id, op, os);
    SuccessSame(c1, id, op, os);
    QueuedSame(c1, c2, At(c, id).vpc);
    assert RetryUpdate(c2, At(c2, id).vpc, true, op, [], false) == c2;
    SuccessStep(c, |rest|, op, os, [], [], false, c1, c2, c2, c2);
  }

  /** Nothing queued before means nothing queued after. */
  lemma QueuedSame(c: Ctl, d: Ctl, v: Vpc)
    requires SameRetries(c, d) && |d.sgs| == |c.sgs| && Queued(c, v).None?
    ensures Queued(d, v).None?
  {
  }

  // ---------------------------------------------------------------------------------------------
  // One step at a time
  // ---------------------------------------------------------------------------------------------

  /** The call that realizes what a rule update finds. */
  function RuleCall(o: NpOutcome): Call {
    if o == Delta then UpdateRules else NoRuleChange
  }

  lemma RulesStart(c: Ctl, id: nat, ms: set<Member>, ready: bool, has: bool, o: NpOutcome)
    requires Stands(c, id, ms, ready, has, false) && o in {Delta, NoDelta}
    ensures var r := UpdateAnpRules(c, id, o);
            Stands(r, id, ms, ready, has, o == Delta) && r.flight == c.flight + [Flight(id, RuleCall(o))]
  {
    var d := if o == Delta then Set(c, id, At(c, id).(cloudOpInProgress := true)) else c;
    IssueQuiet(d, id, RuleCall(o), id);
    AnpSame(c, id, o);
    QueuedSame(c, UpdateAnpRules(c, id, o), At(c, id).vpc);
  }

  /** A policy with something to say starts the update of the group's rules, also when nothing is to change. */
  lemma PolicyStarts(c: Ctl, id: nat, ms: set<Member>, ready: bool, has: bool, o: NpOutcome)
    requires Stands(c, id, ms, ready, has, false) && o in {Delta, NoDelta}
    ensures var r := Step(c, Policy(id, o));
            Stands(r, id, ms, ready, has, o == Delta) && r.flight == c.flight + [Flight(id, RuleCall(o))]
  {
    RulesStart(c, id, ms, ready, has, o);
  }

  /** A policy that cannot be realized starts nothing; the group is marked as failed. */
  lemma PolicyFails(c: Ctl, id: nat, ms: set<Member>, ready: bool, has: bool)
    requires Stands(c, id, ms, ready, has, false)
    ensures var r := Step(c, Policy(id, ComputeError));
            Stands(r, id, ms, ready, has, false) && r.flight == c.flight && At(r, id).status == Failed
  {
    AnpSame(c, id, ComputeError);
    QueuedSame(c, UpdateAnpRules(c, id, ComputeError), At(c, id).vpc);
  }

  /** A policy makes the group's rules change in the cloud exactly if it has a delta for a free group that is there to stay. */
  lemma RulesStartExactly(c: Ctl, id: nat, o: NpOutcome)
    requires !c.panicked && id < |c.sgs|
    ensures Step(c, Policy(id, o)).flight == c.flight + [Flight(id, UpdateRules)] <==>
            && !c.membershipOnly && o == Delta && At(c, id).state == Created && !At(c, id).deletePending
            && At(c, id).retryOp.None? && !At(c, id).cloudOpInProgress
  {
    var r := Step(c, Policy(id, o));
    assert r.flight != c.flight ==>
           |r.flight| == |c.flight| + 1 && r.flight[|c.flight|].call in {UpdateRules, NoRuleChange, ClearMembers};
    if r.flight == c.flight + [Flight(id, UpdateRules)] { assert r.flight[|c.flight|] == Flight(id, UpdateRules); }
  }

  /** While a rule update is under way no other starts. */
  lemma BusyWaits(c: Ctl, id: nat, ms: set<Member>, ready: bool, has: bool, o: NpOutcome)
    requires Stands(c, id, ms, ready, has, true)
    ensures Step(c, Policy(id, o)) == c
  {
  }

  lemma CloudAnswers(c: Ctl, id: nat, ms: set<Member>, ready: bool, has: bool, busy: bool)
    requires Stands(c, id, ms, ready, has, busy)
    ensures Stands(Step(c, RulesDone(id)), id, ms, ready, has, false) && Step(c, RulesDone(id)).flight == c.flight
  {
    CloudIsDone(c, id);
  }

  lemma CreatedStands(c: Ctl, id: nat)
    requires Alive(c, id) && At(c, id).state == Init && !At(c, id).cloudOpInProgress
    ensures var (r, s) := (BecomeCreated(c, id), At(c, id));
            Stands(r, id, s.members, s.ruleReady, s.hasMembers, false) && r.flight == c.flight
  {
    var r := BecomeCreated(c, id);
    assert At(r, id) == At(c, id).(state := Created);
    SetSame(c, id, At(c, id).(state := Created));
    QueuedSame(c, r, At(c, id).vpc);
  }

  lemma OneRuleUpdate(c: Ctl, id: nat, ms: set<Member>, ready: bool, has: bool, o: NpOutcome)
    requires Stands(c, id, ms, ready, has, false)
    ensures UpdateAllRules(c, id, [o]) == UpdateAnpRules(c, id, o)
  {
    var d := UpdateAnpRules(c, id, o);
    assert UpdateAnps(c, id, [o]) == UpdateAnps(d, id, []) by { assert [o][1..] == []; }
  }

  /** Created, the group gets its rules. */
  lemma CreationAnswered(c: Ctl, rest: seq<Flight>, id: nat, o: NpOutcome)
    requires Alive(c, id) && At(c, id).state == Init && !At(c, id).cloudOpInProgress
    requires c.flight == rest + [Flight(id, Create)] && o in {Delta, NoDelta}
    ensures var (r, s) := (Step(c, Success(|rest|, OpAdd, [o])), At(c, id));
            && Stands(r, id, s.members, s.ruleReady, s.hasMembers, o == Delta)
            && r.flight == rest + [Flight(id, RuleCall(o))]
  {
    var s := At(c, id);
    var c1 := QuietAnswer(c, rest, id, Create, OpAdd, [o]);
    var c2 := BecomeCreated(c1, id);
    CreatedStands(c1, id);
    RulesStart(c2, id, s.members, s.ruleReady, s.hasMembers, o);
    OneRuleUpdate(c2, id, s.members, s.ruleReady, s.hasMembers, o);
    assert AppliedToOk(c1, id, OpAdd, [o]) == UpdateAllRules(c2, id, [o]);
  }

  lemma Refreshed(c: Ctl, id: nat, ms: set<Member>, ready: bool, has: bool, busy: bool)
    requires Stands(c, id, ms, ready, has, busy)
    ensures var r := RulesRefreshed(c, id);
            Stands(r, id, ms, true, has, busy) && r.flight == c.flight && Lookup(r, At(c, id).vpc) == Some(id)
  {
    var d := Set(c, id, At(c, id).(ruleReady := true));
    var r := RulesRefreshed(c, id);
    assert At(r, id) == At(d, id);
    RefreshedSame(c, id);
    QueuedSame(c, r, At(c, id).vpc);
  }

  lemma MembersStart(c: Ctl, id: nat, ms: set<Member>, ready: bool, has: bool, busy: bool)
    requires Stands(c, id, ms, ready, has, busy)
    ensures var r := UpdateImpl(c, id, {}, {});
            && Stands(r, id, ms, ready, has, busy) && r.indexer == c.indexer
            && r.flight == c.flight + if ms == {} then [] else [Flight(id, SetMembers)]
  {
    if ms != {} {
      RedoMembers(c, id);
      var d := Set(c, id, At(c, id).(members := At(c, id).members - {} + {}));
      assert At(c, id).members - {} + {} == At(c, id).members;
      IssueQuiet(d, id, SetMembers, id);
      UpdateSame(c, id, {}, {});
      QueuedSame(c, UpdateImpl(c, id, {}, {}), At(c, id).vpc);
    }
  }

  lemma MembersFollow(c: Ctl, id: nat, ms: set<Member>, ready: bool, has: bool)
    requires Stands(c, id, ms, ready, has, false)
    ensures var r := AppliedToOk(c, id, OpUpdateRules, []);
            && Stands(r, id, ms, true, has, false) && Lookup(r, At(c, id).vpc) == Some(id)
            && r.flight == c.flight + if has || ms == {} then [] else [Flight(id, SetMembers)]
  {
    Refreshed(c, id, ms, ready, has, false);
    var d := RulesRefreshed(c, id);
    if !has {
      MembersStart(d, id, ms, true, has, false);
      UpdateSame(d, id, {}, {});
    }
  }

  /** Rules realized, the members follow, unless they are there or there are none. */
  lemma RulesAnswered(c: Ctl, rest: seq<Flight>, id: nat, call: Call, ms: set<Member>, ready: bool, has: bool)
    requires Stands(c, id, ms, ready, has, false) && c.flight == rest + [Flight(id, call)] && call in {UpdateRules, NoRuleChange}
    ensures var r := Step(c, Success(|rest|, OpUpdateRules, []));
            && Stands(r, id, ms, true, has, false) && Lookup(r, At(c, id).vpc) == Some(id)
            && r.flight == rest + if has || ms == {} then [] else [Flight(id, SetMembers)]
  {
    var c1 := QuietAnswer(c, rest, id, call, OpUpdateRules, []);
    MembersFollow(c1, id, ms, ready, has);
  }

  lemma MembersAnswered(c: Ctl, rest: seq<Flight>, id: nat, ms: set<Member>, ready: bool, has: bool, busy: bool)
    requires Stands(c, id, ms, ready, has, busy) && c.flight == rest + [Flight(id, SetMembers)]
    ensures var r := Step(c, Success(|rest|, OpUpdateMembers, []));
            Stands(r, id, ms, ready, true, busy) && r.flight == rest
  {
    var c1 := QuietAnswer(c, rest, id, SetMembers, OpUpdateMembers, []);
    SuccessSame(c1, id, OpUpdateMembers, []);
    QueuedSame(c1, OnSuccess(c1, id, OpUpdateMembers, []), At(c, id).vpc);
  }

  lemma ClearStarts(c: Ctl, id: nat, ms: set<Member>, ready: bool, has: bool, busy: bool)
    requires Stands(c, id, ms, ready, has, busy)
    ensures var r := ClearMembersImpl(c, id);
            && Stands(r, id, ms, ready && has, has, busy)
            && r.flight == c.flight + if has then [Flight(id, ClearMembers)] else []
  {
    IssueQuiet(c, id, ClearMembers, id);
    ClearSame(c, id);
    QueuedSame(c, ClearMembersImpl(c, id), At(c, id).vpc);
  }

  /** Without policies the members are taken off, and with no members there the rules count as gone. */
  lemma PoliciesGone(c: Ctl, id: nat, ms: set<Member>, ready: bool, has: bool)
    requires Stands(c, id, ms, ready, has, false)
    ensures var r := Step(c, Policy(id, NoPolicies));
            && Stands(r, id, ms, ready && has, has, false)
            && r.flight == c.flight + if has then [Flight(id, ClearMembers)] else []
  {
    ClearStarts(c, id, ms, ready, has, false);
  }

  /** Members taken off: with policies there the rules are updated again, without them they count as gone. */
  lemma ClearAnswered(c: Ctl, rest: seq<Flight>, id: nat, ms: set<Member>, ready: bool, has: bool, os: seq<NpOutcome>)
    requires Stands(c, id, ms, ready, has, false) && c.flight == rest + [Flight(id, ClearMembers)]
    requires os == [] || os == [Delta]
    ensures var r := Step(c, Success(|rest|, OpClearMembers, os));
            && Stands(r, id, ms, ready && os != [], false, ready && os != [])
            && r.flight == rest + if ready && os != [] then [Flight(id, UpdateRules)] else []
  {
    var c1 := QuietAnswer(c, rest, id, ClearMembers, OpClearMembers, os);
    var c2 := SetHasMembers(c1, id, false);
    assert Stands(c2, id, ms, ready, false, false) by {
      assert Queued(c2, At(c, id).vpc) == Queued(c1, At(c, id).vpc);
    }
    if ready && os == [] {
      ClearStarts(c2, id, ms, ready, false, false);
    } else if ready {
      RulesStart(c2, id, ms, ready, false, Delta);
      OneRuleUpdate(c2, id, ms, ready, false, Delta);
    }
  }

  // ---------------------------------------------------------------------------------------------
  // Into use and out of it
  // ---------------------------------------------------------------------------------------------

  /**
   * Whatever else is in flight: a group being created for some members, with a policy to realize, ends up with its
   * rules and then its members realized, in the index, and no call more in flight than before its creation.
   */
  lemma GroupComesIntoUse(c: Ctl, rest: seq<Flight>, id: nat, o: NpOutcome)
    requires Alive(c, id) && At(c, id).state == Init && !At(c, id).cloudOpInProgress && !At(c, id).hasMembers
    requires At(c, id).members != {} && c.flight == rest + [Flight(id, Create)] && o in {Delta, NoDelta}
    ensures var r := Run(c, [Success(|rest|, OpAdd, [o]), RulesDone(id)] +
                            [Success(|rest|, OpUpdateRules, []), Success(|rest|, OpUpdateMembers, [])]);
            && Stands(r, id, At(c, id).members, true, true, false) && r.flight == rest
  {
    var s := At(c, id);
    CreationAnswered(c, rest, id, o);
    var c1 := Step(c, Success(|rest|, OpAdd, [o]));
    CloudAnswers(c1, id, s.members, s.ruleReady, false, o == Delta);
    var c2 := Step(c1, RulesDone(id));
    RulesAnswered(c2, rest, id, RuleCall(o), s.members, s.ruleReady, false);
    var c3 := Step(c2, Success(|rest|, OpUpdateRules, []));
    MembersAnswered(c3, rest, id, s.members, true, false, false);
    RunTwo(c, Success(|rest|, OpAdd, [o]), RulesDone(id));
    RunTwo(c2, Success(|rest|, OpUpdateRules, []), Success(|rest|, OpUpdateMembers, []));
    RunConcat(c, [Success(|rest|, OpAdd, [o]), RulesDone(id)],
              [Success(|rest|, OpUpdateRules, []), Success(|rest|, OpUpdateMembers, [])]);
  }

  lemma RunTwo(c: Ctl, a: Event, b: Event)
    ensures Run(c, [a, b]) == Step(Step(c, a), b)
  {
    RunOne(c, a);
    RunOne(Step(c, a), b);
    RunConcat(c, [a], [b]);
    assert [a] + [b] == [a, b];
  }

  /** When its last policy goes, a group in use loses its members in the cloud, and after that its rules count as gone. */
  lemma GroupGoesOutOfUse(c: Ctl, id: nat, ms: set<Member>)
    requires Stands(c, id, ms, true, true, false)
    ensures var r := Run(c, [Policy(id, NoPolicies), Success(|c.flight|, OpClearMembers, [])]);
            Stands(r, id, ms, false, false, false) && r.flight == c.flight
  {
    PoliciesGone(c, id, ms, true, true);
    ClearAnswered(Step(c, Policy(id, NoPolicies)), c.flight, id, ms, true, true, []);
    RunTwo(c, Policy(id, NoPolicies), Success(|c.flight|, OpClearMembers, []));
  }
}
