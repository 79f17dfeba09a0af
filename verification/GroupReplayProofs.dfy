/** Deferred group events: the deletes they wait for are counted exactly, and they replay faithfully. */
module GroupReplayProofs {
  import opened Wrappers
  import opened GroupLifecycle
  import opened GroupLifecycleProofs

  /** What was replayed is what the deferred events leave in an empty group, with no delete in flight. */
  predicate ReplayOk(r: Replay) {
    r.members == Fold(r.hist) && r.deletes == 0
  }

  predicate ReplaysOk(rs: seq<Replay>) {
    forall i :: 0 <= i < |rs| ==> ReplayOk(rs[i])
  }

  /** `owed` deletes have answered without having been taken off the item's count yet. */
  predicate Deferred(c: Ctl, owed: nat) {
    Uncounted(c) + owed == 0 && Faithful(c.pend) && ReplaysOk(c.replays)
  }

  lemma FoldSnoc(hist: seq<GroupEvent>, e: GroupEvent)
    ensures Fold(hist + [e]) == Apply(Fold(hist), e)
  {
    assert (hist + [e])[..|hist|] == hist;
  }

  lemma CoalesceFaithful(p: PendingGroup, e: GroupEvent)
    requires Faithful(Some(p))
    ensures Faithful(Some(UpdatePendingGroup(p, e)))
  {
    if !e.Deleted? { FoldSnoc(p.hist, e); }
  }

  lemma ProcessGroupDefers(c: Ctl, e: GroupEvent, env: Env)
    requires Deferred(c, 0)
    ensures Deferred(ProcessGroup(c, e, env), 0)
  {
    if c.pend.Some? { CoalesceFaithful(c.pend.value, e); }
  }

  lemma ReplayItemDefers(c: Ctl, p: PendingGroup)
    requires DeletesIn(c.flight) == 0 && ReplaysOk(c.replays) && p.added == Fold(p.hist)
    ensures Deferred(ReplayItem(c, p), 0)
  {
    var replay := Replay(p.added, p.hist, DeletesIn(c.flight));
    ProcessGroupDefers(c.(pend := None, replays := c.replays + [replay]), Added(p.added), Env({}, {}));
  }

  lemma DeleteAnsweredDefers(c: Ctl, moreOps: bool)
    requires Deferred(c, 1)
    ensures Deferred(PendingDeleteAnswered(c, moreOps), 0)
  {
    var p := Uncount(c.pend.value, moreOps);
    if p.refCnt <= 0 && p.runOnClear && p.added != {} { ReplayItemDefers(c, p); }
  }

  lemma SettledDefers(c: Ctl, r: Ctl, owed: nat)
    requires Deferred(c, owed) && Settled(c, r)
    ensures Deferred(r, owed)
  {
  }

  lemma NotifyDefers(c: Ctl, id: nat, op: Op, ok: bool, os: seq<NpOutcome>, retryOs: seq<NpOutcome>,
                     drain: seq<NpOutcome>, referred: bool)
    requires Deferred(c, if op == OpDelete then 1 else 0)
    ensures Deferred(Notify(c, id, op, ok, os, retryOs, drain, referred), 0)
  {
    var owed := if op == OpDelete then 1 else 0;
    var c0 := SetStatus(c, id, op, ok);
    var c1 := AfterStatus(c0, id, op, ok, os, referred);
    var c2 := Retried(c1, id, op, ok, retryOs, referred);
    SettledDefers(c, c0, owed);
    SettledDefers(c0, c1, owed);
    SettledDefers(c1, c2, owed);
    var v := At(c1, id).vpc;
    if op == OpDelete { DeleteAnsweredDefers(c2, MoreOps(c2, v)); }
    var c3 := NotifyImpl(c1, id, op, ok, retryOs, referred);
    SettledDefers(c3, UpdateAnps(c3, id, drain), 0);
  }

  lemma LandDeletes(c: Ctl, k: nat)
    requires k < |c.flight|
    ensures DeletesIn(c.flight) == DeletesIn(Land(c, k).flight) + if c.flight[k].call == Delete then 1 else 0
  {
    var (a, b) := (c.flight[..k], c.flight[k + 1..]);
    assert c.flight == a + [c.flight[k]] + b;
    DeletesInAppend(a, [c.flight[k]]);
    DeletesInAppend(a + [c.flight[k]], b);
    DeletesInAppend(a, b);
  }

  lemma RespondDefers(c: Ctl, k: nat, op: Op, ok: bool, os: seq<NpOutcome>, retryOs: seq<NpOutcome>,
                      drain: seq<NpOutcome>, referred: bool)
    requires Deferred(c, 0)
    ensures Deferred(Respond(c, k, op, ok, os, retryOs, drain, referred), 0)
  {
    if k < |c.flight| && Answers(c.flight[k].call, op, ok) {
      LandDeletes(c, k);
      NotifyDefers(Land(c, k), c.flight[k].sg, op, ok, os, retryOs, drain, referred);
    }
  }

  lemma StepDefers(c: Ctl, e: Event)
    requires Deferred(c, 0)
    ensures Deferred(Step(c, e), 0)
  {
    if !c.panicked {
      match e
      case Group(g, env) => ProcessGroupDefers(c, g, env);
      case Response(k, op, ok, os, retryOs, drain, referred) =>
        RespondDefers(c, k, op, ok, os, retryOs, drain, referred);
      case _ =>
    }
  }

  /**
   * Over every run the deferred-delete item counts exactly the deletes in flight for its name in all VPCs
   * (no item: none); what it holds, and what every replay applied, is the fold of the events it deferred on
   * an empty group; and each replay ran with no delete in flight.
   */
  lemma {:induction false} ReplaysAreFaithful(c: Ctl, es: seq<Event>)
    requires Deferred(c, 0)
    ensures Deferred(Run(c, es), 0)
    decreases es
  {
    if es != [] {
      StepDefers(c, es[0]);
      ReplaysAreFaithful(Step(c, es[0]), es[1..]);
    }
  }

  /** Deferred members are replayed exactly when the last delete answers and will not be retried; the item is out by then. */
  lemma ReplayTakesItemOut(c: Ctl, moreOps: bool)
    requires Deferred(c, 1)
    ensures |PendingDeleteAnswered(c, moreOps).replays| > |c.replays| <==>
            DeletesIn(c.flight) == 0 && !moreOps && c.pend.value.added != {}
    ensures DeletesIn(c.flight) == 0 && !moreOps <==> PendingDeleteAnswered(c, moreOps).pend.None?
  {
    DeleteAnsweredDefers(c, moreOps);
  }

  /** A controller that has just started satisfies all of this, and so does whatever it becomes. */
  lemma EveryRunFromStart(membershipOnly: bool, synced: bool, vpcs: seq<Vpc>, vpcOf: map<Member, Vpc>, es: seq<Event>)
    ensures AllDominated(Run(Start(membershipOnly, synced, vpcs, vpcOf), es))
    ensures Deferred(Run(Start(membershipOnly, synced, vpcs, vpcOf), es), 0)
  {
    var c := Start(membershipOnly, synced, vpcs, vpcOf);
    DeletionDominates(c, es, 0);
    ReplaysAreFaithful(c, es);
  }

  // ---------------------------------------------------------------------------------------------
  // What the item makes of the events it defers
  // ---------------------------------------------------------------------------------------------

  /** What the events leave of some members. */
  function FoldFrom(before: set<Member>, hist: seq<GroupEvent>): set<Member>
    decreases hist
  {
    if hist == [] then before else FoldFrom(Apply(before, hist[0]), hist[1..])
  }

  /** The group events among the events of the loop. */
  function GroupEvents(es: seq<Event>): seq<GroupEvent> {
    if es == [] then [] else (if es[0].Group? then [es[0].e] else []) + GroupEvents(es[1..])
  }

  /** The item stays queued through all of the events. */
  predicate ItemStays(c: Ctl, es: seq<Event>)
    decreases es
  {
    c.pend.Some? && !c.panicked && (es == [] || ItemStays(Step(c, es[0]), es[1..]))
  }

  lemma AnswerKeepsDeferred(c: Ctl, moreOps: bool)
    requires c.pend.Some?
    ensures var r := PendingDeleteAnswered(c, moreOps); r.pend.None? || SameDeferred(c.pend.value, r.pend.value)
  {
  }

  lemma NotifyKeepsDeferred(c: Ctl, id: nat, op: Op, ok: bool, os: seq<NpOutcome>, retryOs: seq<NpOutcome>,
                            drain: seq<NpOutcome>, referred: bool)
    requires c.pend.Some?
    ensures var r := Notify(c, id, op, ok, os, retryOs, drain, referred);
            r.pend.None? || SameDeferred(c.pend.value, r.pend.value)
  {
    var c1 := AfterStatus(SetStatus(c, id, op, ok), id, op, ok, os, referred);
    var c2 := Retried(c1, id, op, ok, retryOs, referred);
    if op == OpDelete { AnswerKeepsDeferred(c2, MoreOps(c2, At(c1, id).vpc)); }
  }

  lemma RespondKeepsDeferred(c: Ctl, k: nat, op: Op, ok: bool, os: seq<NpOutcome>, retryOs: seq<NpOutcome>,
                             drain: seq<NpOutcome>, referred: bool)
    requires c.pend.Some?
    ensures var r := Respond(c, k, op, ok, os, retryOs, drain, referred);
            r.pend.None? || SameDeferred(c.pend.value, r.pend.value)
  {
    if k < |c.flight| && Answers(c.flight[k].call, op, ok) {
      NotifyKeepsDeferred(Land(c, k), c.flight[k].sg, op, ok, os, retryOs, drain, referred);
    }
  }

  lemma {:induction false} StepDefersEvents(c: Ctl, e: Event)
    requires c.pend.Some? && !c.panicked && Step(c, e).pend.Some?
    ensures Step(c, e).pend.value.added == if e.Group? then Apply(c.pend.value.added, e.e) else c.pend.value.added
  {
    if e.Response? {
      RespondKeepsDeferred(c, e.k, e.op, e.ok, e.os, e.retryOs, e.drain, e.isReferred);
    } else if !e.Group? {
      assert Settled(c, QuietStep(c, e)) && Step(c, e) == QuietStep(c, e);
    }
  }

  /** While the item waits it makes of its members exactly what the group events among all events make of them. */
  lemma {:induction false} DeferredEventsFold(c: Ctl, es: seq<Event>)
    requires ItemStays(c, es)
    ensures Run(c, es).pend.Some? && Run(c, es).pend.value.added == FoldFrom(c.pend.value.added, GroupEvents(es))
    decreases es
  {
    if es != [] {
      var d := Step(c, es[0]);
      StepDefersEvents(c, es[0]);
      DeferredEventsFold(d, es[1..]);
      if es[0].Group? {
        assert GroupEvents(es)[0] == es[0].e && GroupEvents(es)[1..] == GroupEvents(es[1..]);
      } else {
        assert GroupEvents(es) == GroupEvents(es[1..]);
      }
    }
  }

  /** The item after the events were coalesced one by one. */
  function Coalesced(p: PendingGroup, es: seq<GroupEvent>): PendingGroup {
    if es == [] then p else UpdatePendingGroup(Coalesced(p, es[..|es| - 1]), es[|es| - 1])
  }

  /** The events since the last deletion. */
  function Since(es: seq<GroupEvent>): seq<GroupEvent> {
    if es == [] || es[|es| - 1].Deleted? then [] else Since(es[..|es| - 1]) + [es[|es| - 1]]
  }

  predicate Adds(e: GroupEvent, m: Member) {
    !e.Deleted? && m in e.added
  }

  /** The event removes a member that the earlier ones did not leave in the group. */
  predicate Drops(hist: seq<GroupEvent>, k: nat, m: Member) {
    k < |hist| && hist[k].Modified? && m in hist[k].removed && !Adds(hist[k], m) && m !in Fold(hist[..k])
  }

  /** Some event removed the member although it was not there, and none added it since. */
  predicate Dropped(hist: seq<GroupEvent>, m: Member) {
    exists k :: 0 <= k < |hist| && Drops(hist, k, m) && forall j :: k < j < |hist| ==> !Adds(hist[j], m)
  }

  lemma DroppedNext(hist: seq<GroupEvent>, e: GroupEvent, m: Member)
    requires !e.Deleted?
    ensures Dropped(hist + [e], m) <==>
            !Adds(e, m) && (Dropped(hist, m) || (e.Modified? && m in e.removed && m !in Fold(hist)))
  {
    var next := hist + [e];
    assert next[..|hist|] == hist;
    forall k | 0 <= k < |hist| ensures Drops(next, k, m) <==> Drops(hist, k, m) { assert next[..k] == hist[..k]; }
    if Dropped(next, m) {
      var k :| 0 <= k < |next| && Drops(next, k, m) && forall j :: k < j < |next| ==> !Adds(next[j], m);
      assert !Adds(next[|hist|], m);
      assert forall j :: 0 <= j < |hist| ==> next[j] == hist[j];
      if k < |hist| { assert forall j :: k < j < |hist| ==> !Adds(hist[j], m); }
    }
    if Dropped(hist, m) && !Adds(e, m) {
      var k :| 0 <= k < |hist| && Drops(hist, k, m) && forall j :: k < j < |hist| ==> !Adds(hist[j], m);
      assert Drops(next, k, m);
    } else if !Adds(e, m) && e.Modified? && m in e.removed && m !in Fold(hist) {
      assert Drops(next, |hist|, m);
    }
  }

  /**
   * A fresh item that coalesces events holds those since the last deletion: their fold as added members, as removed
   * ones those that were removed without being there, and the type of the first.
   */
  lemma {:induction false} CoalescingIs(p: PendingGroup, es: seq<GroupEvent>, m: Member)
    requires p.event.None? && p.added == {} && p.removed == {} && p.hist == []
    ensures var (r, hist) := (Coalesced(p, es), Since(es));
            && r.hist == hist && r.added == Fold(hist) && (m in r.removed <==> Dropped(hist, m))
            && r.event == (if hist == [] then None else Some(if hist[0].Added? then TypeAdded else TypeModified))
            && r.refCnt == p.refCnt && r.runOnClear == p.runOnClear
  {
    if es != [] {
      var init, last := es[..|es| - 1], es[|es| - 1];
      CoalescingIs(p, init, m);
      if !last.Deleted? {
        FoldSnoc(Since(init), last);
        DroppedNext(Since(init), last, m);
      }
    }
  }
}
