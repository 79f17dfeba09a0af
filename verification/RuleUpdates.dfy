/**
 * Rule updates of one applied-to group: the loop starts an update for one policy at a time, policies that
 * come meanwhile wait in a bounded queue, the cloud answers later, and each response drains the queue.
 */
module RuleUpdates {
  import opened Wrappers
  import opened CloudRules
  import opened Reconcile

  /** Capacity of the queue of waiting policies, and the bound of the draining loop. */
  const QUEUE_LIMIT: nat := 50

  /** A group just created: nothing realized, nothing started. */
  function Start(policies: seq<Policy>): Group {
    Group(QUEUE_LIMIT, policies, true, map[], map[], false, [], [], 0, false)
  }

  /** A policy object; `desired` is what it wants in this group, `Err` if the cloud cannot express it. */
  datatype Policy = Policy(owner: Owner, ready: bool, desired: Result<set<Rule>>)

  /**
   * A started update: `want` is what the policy desired then; the cloud may have carried it out (`done`)
   * without the index knowing yet.
   */
  datatype Update = Update(owner: Owner, want: set<Rule>, delta: Delta, done: bool)

  /**
   * `usable`: the group exists in the cloud, is not being deleted and nothing is retried for it.
   * `responses` counts the answers of rule updates that were sent but not processed yet.
   * `blocked`: the loop hangs on a full queue. `limit` is the capacity of the queue.
   */
  datatype Group = Group(
    limit: nat, policies: seq<Policy>, usable: bool, index: Index, cloud: Index,
    inProgress: bool, updates: seq<Update>, queue: seq<nat>, responses: nat, blocked: bool)

  datatype Event =
    | Change(id: nat, policy: Policy)
    | SetUsable(usable: bool)
    | Trigger(id: nat, anyPolicy: bool)
    | CloudDone(k: nat)
    | CloudFailed(k: nat)
    | Finish(k: nat)
    | Respond(ruleUpdate: bool, anyPolicy: bool)

  /** The policy object with the given number; unknown numbers name a policy that is not ready. */
  function PolicyAt(g: Group, id: nat): Policy {
    if id < |g.policies| then g.policies[id] else Policy("", false, Err)
  }

  /** Starts the update of one policy on a group with nothing in progress. */
  function Begin(g: Group, p: Policy): Group {
    if p.desired.Err? || Conflict(g.index, p.owner, p.desired.value) then g
    else
      var d := DeltaOf(g.index, p.owner, p.desired.value);
      if d == Delta({}, {}) then g.(responses := g.responses + 1)
      else g.(inProgress := true, updates := g.updates + [Update(p.owner, p.desired.value, d, false)])
  }

  /** `updateANPRules`; `anyPolicy`: some policy is still applied to the group. */
  function UpdateAnp(g: Group, id: nat, anyPolicy: bool): Group {
    var p := PolicyAt(g, id);
    if !p.ready || !g.usable then g
    else if g.inProgress then
      if |g.queue| >= g.limit then g.(blocked := true) else g.(queue := g.queue + [id])
    else if !anyPolicy then g
    else Begin(g, p)
  }

  /** The draining loop with `n` rounds to go. */
  function Drain(g: Group, anyPolicy: bool, n: nat): Group
    decreases n
  {
    if n == 0 || g.inProgress || g.queue == [] then g
    else Drain(UpdateAnp(g.(queue := g.queue[1..]), g.queue[0], anyPolicy), anyPolicy, n - 1)
  }

  function Without(us: seq<Update>, k: nat): seq<Update>
    requires k < |us|
  {
    us[..k] + us[k + 1..]
  }

  /** The index learns of an update the cloud carried out, and the answer is sent. */
  function Finished(g: Group, k: nat): Group
    requires k < |g.updates|
  {
    g.(index := Apply(g.index, g.updates[k].owner, g.updates[k].delta), inProgress := false,
       updates := Without(g.updates, k), responses := g.responses + 1)
  }

  function Failed(g: Group, k: nat): Group
    requires k < |g.updates|
  {
    g.(inProgress := false, updates := Without(g.updates, k), responses := g.responses + 1)
  }

  function Carried(g: Group, k: nat): Group
    requires k < |g.updates|
  {
    g.(cloud := Apply(g.cloud, g.updates[k].owner, g.updates[k].delta),
       updates := g.updates[k := g.updates[k].(done := true)])
  }

  function Changed(g: Group, id: nat, p: Policy): Group {
    g.(policies := if id < |g.policies| then g.policies[id := p] else g.policies + [p])
  }

  /** A blocked loop does nothing more; calls in flight still end. */
  function Step(g: Group, e: Event): Group {
    match e
    case CloudDone(k) => if k < |g.updates| && !g.updates[k].done then Carried(g, k) else g
    case CloudFailed(k) => if k < |g.updates| && !g.updates[k].done then Failed(g, k) else g
    case Finish(k) => if k < |g.updates| && g.updates[k].done then Finished(g, k) else g
    case Change(id, p) => if g.blocked then g else Changed(g, id, p)
    case SetUsable(u) => if g.blocked then g else g.(usable := u)
    case Trigger(id, any) => if g.blocked then g else UpdateAnp(g, id, any)
    case Respond(ruleUpdate, any) =>
      if g.blocked || (ruleUpdate && g.responses == 0) then g
      else Drain(g.(responses := g.responses - if ruleUpdate then 1 else 0), any, g.limit)
  }

  function Run(g: Group, es: seq<Event>): Group
    decreases es
  {
    if es == [] then g else Run(Step(g, es[0]), es[1..])
  }

  // ---------------------------------------------------------------------------------------------
  // One update at a time, and the index agrees with the cloud
  // ---------------------------------------------------------------------------------------------

  /** The update adds rules that nobody has and removes only rules of its own policy. */
  predicate Clean(index: Index, u: Update) {
    u.delta.add !! index.Keys && u.delta.remove <= Owned(index, u.owner)
  }

  predicate Agrees(g: Group) {
    && |g.updates| == (if g.inProgress then 1 else 0)
    && (!g.inProgress ==> g.cloud == g.index)
    && (g.inProgress ==>
          var u := g.updates[0];
          Clean(g.index, u) && g.cloud == if u.done then Apply(g.index, u.owner, u.delta) else g.index)
  }

  lemma UpdateAnpAgrees(g: Group, id: nat, anyPolicy: bool)
    requires Agrees(g)
    ensures Agrees(UpdateAnp(g, id, anyPolicy))
  {
    assert g.updates == [] ==> forall u: Update :: (g.updates + [u])[0] == u;
  }

  lemma {:induction false} DrainAgrees(g: Group, anyPolicy: bool, n: nat)
    requires Agrees(g)
    ensures Agrees(Drain(g, anyPolicy, n))
    decreases n
  {
    if n != 0 && !g.inProgress && g.queue != [] {
      var g1 := g.(queue := g.queue[1..]);
      UpdateAnpAgrees(g1, g.queue[0], anyPolicy);
      DrainAgrees(UpdateAnp(g1, g.queue[0], anyPolicy), anyPolicy, n - 1);
    }
  }

  lemma StepAgrees(g: Group, e: Event)
    requires Agrees(g)
    ensures Agrees(Step(g, e))
  {
    match e
    case Trigger(id, any) => UpdateAnpAgrees(g, id, any);
    case Respond(ruleUpdate, any) =>
      if !(ruleUpdate && g.responses == 0) {
        DrainAgrees(g.(responses := g.responses - if ruleUpdate then 1 else 0), any, g.limit);
      }
    case _ =>
  }

  /**
   * In every run at most one rule update is outstanding, and whenever none is, the index equals the
   * cloud; the outstanding one adds rules nobody has and removes none of another policy.
   */
  lemma {:induction false} IndexAgreesWithCloud(g: Group, es: seq<Event>)
    requires Agrees(g)
    ensures Agrees(Run(g, es))
    decreases es
  {
    if es != [] {
      StepAgrees(g, es[0]);
      IndexAgreesWithCloud(Step(g, es[0]), es[1..]);
    }
  }

  // ---------------------------------------------------------------------------------------------
  // Policies do not touch each other's rules
  // ---------------------------------------------------------------------------------------------

  /** The policy with the given number is one of `o` that an update would take up. */
  predicate Involves(g: Group, id: nat, o: Owner) {
    PolicyAt(g, id).ready && PolicyAt(g, id).owner == o
  }

  /** No policy of `o` waits and no outstanding update belongs to it. */
  predicate Uninvolved(g: Group, o: Owner) {
    (forall id <- g.queue :: !Involves(g, id, o)) && (forall u <- g.updates :: u.owner != o)
  }

  /** The event triggers no policy of `o`, and gives no waiting policy to it. */
  predicate LeavesOut(g: Group, e: Event, o: Owner) {
    match e
    case Trigger(id, _) => !Involves(g, id, o)
    case Change(id, p) => Uninvolved(Changed(g, id, p), o)
    case _ => true
  }

  predicate RunLeavesOut(g: Group, es: seq<Event>, o: Owner)
    decreases es
  {
    es == [] || (LeavesOut(g, es[0], o) && RunLeavesOut(Step(g, es[0]), es[1..], o))
  }

  predicate SameRules(g: Group, h: Group, o: Owner) {
    Owned(h.index, o) == Owned(g.index, o) && Owned(h.cloud, o) == Owned(g.cloud, o)
  }

  lemma UpdateAnpSpares(g: Group, id: nat, anyPolicy: bool, o: Owner)
    requires Uninvolved(g, o) && !Involves(g, id, o)
    ensures Uninvolved(UpdateAnp(g, id, anyPolicy), o) && SameRules(g, UpdateAnp(g, id, anyPolicy), o)
  {
  }

  lemma {:induction false} DrainSpares(g: Group, anyPolicy: bool, n: nat, o: Owner)
    requires Uninvolved(g, o)
    ensures Uninvolved(Drain(g, anyPolicy, n), o) && SameRules(g, Drain(g, anyPolicy, n), o)
    decreases n
  {
    if n != 0 && !g.inProgress && g.queue != [] {
      var g1 := g.(queue := g.queue[1..]);
      assert g.queue[0] in g.queue && forall id <- g1.queue :: id in g.queue;
      assert forall id: nat :: Involves(g1, id, o) <==> Involves(g, id, o);
      UpdateAnpSpares(g1, g.queue[0], anyPolicy, o);
      DrainSpares(UpdateAnp(g1, g.queue[0], anyPolicy), anyPolicy, n - 1, o);
    }
  }

  lemma ApplySpares(index: Index, u: Update, o: Owner)
    requires Clean(index, u) && u.owner != o
    ensures Owned(Apply(index, u.owner, u.delta), o) == Owned(index, o)
  {
  }

  lemma StepSpares(g: Group, e: Event, o: Owner)
    requires Agrees(g) && Uninvolved(g, o) && LeavesOut(g, e, o)
    ensures Uninvolved(Step(g, e), o) && SameRules(g, Step(g, e), o)
  {
    match e
    case Trigger(id, any) => UpdateAnpSpares(g, id, any, o);
    case Respond(ruleUpdate, any) =>
      if !(ruleUpdate && g.responses == 0) {
        DrainSpares(g.(responses := g.responses - if ruleUpdate then 1 else 0), any, g.limit, o);
      }
    case CloudDone(k) => if k < |g.updates| { ApplySpares(g.index, g.updates[k], o); }
    case Finish(k) => if k < |g.updates| { ApplySpares(g.index, g.updates[k], o); }
    case _ =>
  }

  /** As long as no policy of `o` is triggered, its rules stay as they are, in the index and in the cloud. */
  lemma {:induction false} OthersRulesUntouched(g: Group, es: seq<Event>, o: Owner)
    requires Agrees(g) && Uninvolved(g, o) && RunLeavesOut(g, es, o)
    ensures SameRules(g, Run(g, es), o)
    decreases es
  {
    if es != [] {
      StepAgrees(g, es[0]);
      StepSpares(g, es[0], o);
      OthersRulesUntouched(Step(g, es[0]), es[1..], o);
    }
  }

  // ---------------------------------------------------------------------------------------------
  // No lost wake-ups
  // ---------------------------------------------------------------------------------------------

  /** Waiting policies will be looked at: an update is in flight or an answer is still to be processed. */
  predicate Awake(g: Group) {
    |g.queue| <= g.limit && (g.queue != [] ==> g.inProgress || g.responses > 0)
  }

  /** A drain of as many rounds as policies wait ends with an empty queue or a new update in flight. */
  lemma {:induction false} DrainWakes(g: Group, anyPolicy: bool, n: nat)
    requires |g.queue| <= n
    ensures Drain(g, anyPolicy, n).queue == [] || Drain(g, anyPolicy, n).inProgress
    ensures |Drain(g, anyPolicy, n).queue| <= |g.queue| && Drain(g, anyPolicy, n).limit == g.limit
    decreases n
  {
    if n != 0 && !g.inProgress && g.queue != [] {
      DrainWakes(UpdateAnp(g.(queue := g.queue[1..]), g.queue[0], anyPolicy), anyPolicy, n - 1);
    }
  }

  lemma StepStaysAwake(g: Group, e: Event)
    requires Awake(g)
    ensures Awake(Step(g, e))
  {
    if e.Respond? && !(e.ruleUpdate && g.responses == 0) {
      DrainWakes(g.(responses := g.responses - if e.ruleUpdate then 1 else 0), e.anyPolicy, g.limit);
    }
  }

  /** No lost wake-ups, in every run. */
  lemma {:induction false} NoLostWakeUps(g: Group, es: seq<Event>)
    requires Awake(g)
    ensures Awake(Run(g, es))
    decreases es
  {
    if es != [] {
      StepStaysAwake(g, es[0]);
      NoLostWakeUps(Step(g, es[0]), es[1..]);
    }
  }

  function Triggered(es: seq<Event>): set<nat> {
    set e <- es | e.Trigger? :: e.id
  }

  lemma {:induction false} DrainTakesFirst(g: Group, anyPolicy: bool, n: nat) returns (k: nat)
    ensures k <= |g.queue| && Drain(g, anyPolicy, n).queue == g.queue[k..]
    decreases n
  {
    k := 0;
    if n != 0 && !g.inProgress && g.queue != [] {
      var h := UpdateAnp(g.(queue := g.queue[1..]), g.queue[0], anyPolicy);
      var j := DrainTakesFirst(h, anyPolicy, n - 1);
      assert h.queue == g.queue[1..];
      k := j + 1;
      assert g.queue[1..][j..] == g.queue[k..];
    }
  }

  lemma StepServesFirst(g: Group, e: Event) returns (k: nat, more: seq<nat>)
    ensures k <= |g.queue| && Step(g, e).queue == g.queue[k..] + more
    ensures forall id <- more :: e.Trigger? && e.id == id
  {
    k, more := 0, [];
    if e.Trigger? && Step(g, e).queue != g.queue {
      more := [e.id];
    } else if e.Respond? && !g.blocked && !(e.ruleUpdate && g.responses == 0) {
      k := DrainTakesFirst(g.(responses := g.responses - if e.ruleUpdate then 1 else 0), e.anyPolicy, g.limit);
    }
  }

  lemma Suffixes(was: seq<nat>, k: nat, more: seq<nat>, j: nat) returns (l: nat, tail: seq<nat>)
    requires k <= |was| && j <= |was| - k + |more|
    ensures l <= |was| && (was[k..] + more)[j..] == was[l..] + tail && forall id <- tail :: id in more
  {
    if j <= |was| - k {
      l, tail := k + j, more;
    } else {
      l, tail := |was|, more[j - (|was| - k)..];
    }
  }

  /**
   * First come, first served: after every run those that still wait of the policies that waited are the last ones of
   * them, in order, and whoever was triggered since waits behind them.
   */
  lemma {:induction false} WaitingInOrder(g: Group, es: seq<Event>) returns (k: nat, more: seq<nat>)
    ensures k <= |g.queue| && Run(g, es).queue == g.queue[k..] + more
    ensures forall id <- more :: id in Triggered(es)
    decreases es
  {
    if es == [] {
      k, more := 0, [];
    } else {
      var h := Step(g, es[0]);
      var first, came := StepServesFirst(g, es[0]);
      var j, later := WaitingInOrder(h, es[1..]);
      var l, tail := Suffixes(g.queue, first, came, j);
      k, more := l, tail + later;
      assert h.queue[j..] + later == g.queue[l..] + (tail + later);
      TriggeredNext(es);
    }
  }

  lemma TriggeredNext(es: seq<Event>)
    requires es != []
    ensures Triggered(es[1..]) <= Triggered(es) && (es[0].Trigger? ==> es[0].id in Triggered(es))
  {
    assert es[0] in es && forall e <- es[1..] :: e in es;
  }

  /** The group has no policy any more, as far as the events know. */
  predicate NoPolicyLeft(e: Event) {
    (e.Trigger? || e.Respond?) ==> !e.anyPolicy
  }

  lemma {:induction false} DrainWithoutPolicy(g: Group, n: nat)
    ensures Drain(g, false, n).updates == g.updates && Drain(g, false, n).index == g.index && Drain(g, false, n).cloud == g.cloud
    decreases n
  {
    if n != 0 && !g.inProgress && g.queue != [] {
      DrainWithoutPolicy(UpdateAnp(g.(queue := g.queue[1..]), g.queue[0], false), n - 1);
    }
  }

  lemma StepWithoutPolicy(g: Group, e: Event)
    requires NoPolicyLeft(e)
    ensures |Step(g, e).updates| <= |g.updates|
  {
    if e.Respond? && !g.blocked && !(e.ruleUpdate && g.responses == 0) {
      DrainWithoutPolicy(g.(responses := g.responses - if e.ruleUpdate then 1 else 0), g.limit);
    }
  }

  /** Once no policy is left for the group, no rule update starts any more. */
  lemma {:induction false} NothingStartsWithoutPolicies(g: Group, es: seq<Event>)
    requires forall e <- es :: NoPolicyLeft(e)
    ensures |Run(g, es).updates| <= |g.updates|
    decreases es
  {
    if es != [] {
      assert es[0] in es && forall e <- es[1..] :: e in es;
      StepWithoutPolicy(g, es[0]);
      NothingStartsWithoutPolicies(Step(g, es[0]), es[1..]);
    }
  }

  /** All of this holds of every run of a group just created. */
  lemma EveryRunFromStart(policies: seq<Policy>, es: seq<Event>)
    ensures Agrees(Run(Start(policies), es)) && Awake(Run(Start(policies), es))
  {
    IndexAgreesWithCloud(Start(policies), es);
    NoLostWakeUps(Start(policies), es);
  }

  // ---------------------------------------------------------------------------------------------
  // The loop can hang
  // ---------------------------------------------------------------------------------------------

  /** The loop hangs exactly when a ready policy comes for a usable group that is busy with a full queue. */
  lemma BlocksWhenFull(g: Group, e: Event)
    requires !g.blocked && Awake(g)
    ensures Step(g, e).blocked <==>
            e.Trigger? && PolicyAt(g, e.id).ready && g.usable && g.inProgress && |g.queue| == g.limit
  {
    if e.Respond? && !(e.ruleUpdate && g.responses == 0) {
      DrainRuns(g.(responses := g.responses - if e.ruleUpdate then 1 else 0), e.anyPolicy, g.limit);
    }
  }

  lemma {:induction false} DrainRuns(g: Group, anyPolicy: bool, n: nat)
    ensures Drain(g, anyPolicy, n).blocked == g.blocked
    decreases n
  {
    if n != 0 && !g.inProgress && g.queue != [] {
      DrainRuns(UpdateAnp(g.(queue := g.queue[1..]), g.queue[0], anyPolicy), anyPolicy, n - 1);
    }
  }

  /** Once it hangs it hangs for good: the queue stays full, since only the loop itself empties it. */
  lemma {:induction false} BlockedForever(g: Group, es: seq<Event>)
    requires g.blocked
    ensures Run(g, es).blocked && Run(g, es).queue == g.queue
    decreases es
  {
    if es != [] { BlockedForever(Step(g, es[0]), es[1..]); }
  }

  function Triggers(id: nat, n: nat): seq<Event> {
    if n == 0 then [] else [Trigger(id, true)] + Triggers(id, n - 1)
  }

  /** On a busy group every trigger of a ready policy takes a place; the one that finds none hangs the loop. */
  lemma {:induction false} TriggersFill(g: Group, id: nat, n: nat)
    requires !g.blocked && g.usable && g.inProgress && PolicyAt(g, id).ready && |g.queue| <= g.limit
    ensures Run(g, Triggers(id, n)).blocked <==> |g.queue| + n > g.limit
    decreases n
  {
    if n > 0 {
      var g1 := Step(g, Trigger(id, true));
      assert Triggers(id, n)[1..] == Triggers(id, n - 1);
      if |g.queue| == g.limit {
        BlockedForever(g1, Triggers(id, n - 1));
      } else {
        TriggersFill(g1, id, n - 1);
      }
    }
  }

  /**
   * From the start: the first trigger of a policy with something to realize starts its update, the next
   * `QUEUE_LIMIT` fill the queue, and the loop hangs exactly when one more comes before the cloud answers.
   */
  lemma HangsFromStart(policies: seq<Policy>, id: nat, n: nat)
    requires id < |policies| && policies[id].ready && policies[id].desired.Ok? && policies[id].desired.value != {}
    ensures Run(Start(policies), Triggers(id, n)).blocked <==> n >= 52
  {
    if n > 0 {
      var p := policies[id];
      var g1 := Step(Start(policies), Trigger(id, true));
      assert DeltaOf(map[], p.owner, p.desired.value).add == p.desired.value;
      assert g1.inProgress && g1.queue == [];
      assert Triggers(id, n)[1..] == Triggers(id, n - 1);
      TriggersFill(g1, id, n - 1);
    }
  }

  // ---------------------------------------------------------------------------------------------
  // What an update achieves
  // ---------------------------------------------------------------------------------------------

  /** In the index and in the cloud, the policy owns exactly the given rules. */
  predicate Realized(g: Group, o: Owner, rules: set<Rule>) {
    Owned(g.index, o) == rules && Owned(g.cloud, o) == rules
  }

  /** The cloud carries out whatever update is out, and the index learns of it. */
  function Settled(g: Group): Group {
    if g.updates == [] then g else Step(Step(g, CloudDone(0)), Finish(0))
  }

  /**
   * A ready policy that comes for an idle group, and wants nothing another policy has, ends with exactly the
   * rules it desires; the rules of the others are as before, and an answer is sent.
   */
  lemma TriggerRealizes(g: Group, id: nat)
    requires Agrees(g) && !g.blocked && g.usable && !g.inProgress && PolicyAt(g, id).ready
    requires var p := PolicyAt(g, id); p.desired.Ok? && !Conflict(g.index, p.owner, p.desired.value)
    ensures var (p, after) := (PolicyAt(g, id), Settled(Step(g, Trigger(id, true))));
            && Realized(after, p.owner, p.desired.value) && after.updates == [] && after.responses == g.responses + 1
            && Spares(g.index, after.index, p.owner) && Spares(g.cloud, after.cloud, p.owner)
  {
    var p := PolicyAt(g, id);
    DeltaIsExact(g.index, p.owner, p.desired.value);
    var g1 := Step(g, Trigger(id, true));
    if g1.updates != [] {
      assert g1.updates == [g1.updates[0]];
      var u := g1.updates[0];
      assert Step(g1, CloudDone(0)).cloud == Apply(g.index, u.owner, u.delta);
    }
  }

  /** A policy that cannot be expressed or that is in conflict changes nothing. */
  lemma TriggerRefused(g: Group, id: nat, anyPolicy: bool)
    requires !g.inProgress
    requires var p := PolicyAt(g, id); p.desired.Err? || Conflict(g.index, p.owner, p.desired.value)
    ensures Step(g, Trigger(id, anyPolicy)) == g
  {
  }

  /** Carrying the update out gives its policy exactly what it wants, and leaves the others alone. */
  ghost predicate Achieves(index: Index, u: Update) {
    var after := Apply(index, u.owner, u.delta);
    Owned(after, u.owner) == u.want && Spares(index, after, u.owner)
  }

  ghost predicate AllAchieve(g: Group) {
    forall u <- g.updates :: Achieves(g.index, u)
  }

  lemma BeginAchieves(g: Group, p: Policy)
    requires Agrees(g) && !g.inProgress
    ensures AllAchieve(Begin(g, p))
  {
    if p.desired.Ok? && !Conflict(g.index, p.owner, p.desired.value) {
      DeltaIsExact(g.index, p.owner, p.desired.value);
    }
  }

  lemma UpdateAnpAchieves(g: Group, id: nat, anyPolicy: bool)
    requires Agrees(g) && AllAchieve(g)
    ensures AllAchieve(UpdateAnp(g, id, anyPolicy))
  {
    if !g.inProgress { BeginAchieves(g, PolicyAt(g, id)); }
  }

  lemma {:induction false} DrainAchieves(g: Group, anyPolicy: bool, n: nat)
    requires Agrees(g) && AllAchieve(g)
    ensures AllAchieve(Drain(g, anyPolicy, n))
    decreases n
  {
    if n != 0 && !g.inProgress && g.queue != [] {
      var g1 := g.(queue := g.queue[1..]);
      UpdateAnpAgrees(g1, g.queue[0], anyPolicy);
      UpdateAnpAchieves(g1, g.queue[0], anyPolicy);
      DrainAchieves(UpdateAnp(g1, g.queue[0], anyPolicy), anyPolicy, n - 1);
    }
  }

  lemma CarriedAchieves(g: Group, k: nat)
    requires k < |g.updates| && AllAchieve(g)
    ensures AllAchieve(Carried(g, k))
  {
    var h := Carried(g, k);
    forall u <- h.updates ensures Achieves(h.index, u) {
      assert u in g.updates || u == g.updates[k].(done := true);
      assert g.updates[k] in g.updates;
    }
  }

  lemma StepAchieves(g: Group, e: Event)
    requires Agrees(g) && AllAchieve(g)
    ensures AllAchieve(Step(g, e))
  {
    match e
    case Trigger(id, any) => UpdateAnpAchieves(g, id, any);
    case Respond(ruleUpdate, any) =>
      if !(ruleUpdate && g.responses == 0) {
        DrainAchieves(g.(responses := g.responses - if ruleUpdate then 1 else 0), any, g.limit);
      }
    case CloudDone(k) => if k < |g.updates| { CarriedAchieves(g, k); }
    case _ =>
  }

  /** The policy with this number, as it is in `g`, is ready and wants what the update is about. */
  predicate StartedBy(g: Group, id: nat, u: Update) {
    var p := PolicyAt(g, id);
    p.ready && p.owner == u.owner && p.desired == Ok(u.want)
  }

  /** The event makes the loop look at the policy. */
  predicate LooksAt(g: Group, e: Event, id: nat) {
    (e.Trigger? && e.id == id) || (e.Respond? && id in g.queue)
  }

  /** An update that is new after the event is that of a ready policy the event made the loop look at. */
  ghost predicate Starts(g: Group, e: Event, u: Update) {
    exists id :: LooksAt(g, e, id) && StartedBy(g, id, u)
  }

  lemma UpdateAnpStarts(g: Group, id: nat, anyPolicy: bool, u: Update)
    requires u in UpdateAnp(g, id, anyPolicy).updates && u !in g.updates
    ensures StartedBy(g, id, u)
  {
  }

  lemma {:induction false} DrainStarts(g: Group, anyPolicy: bool, n: nat, u: Update) returns (id: nat)
    requires u in Drain(g, anyPolicy, n).updates && u !in g.updates
    ensures id in g.queue && StartedBy(g, id, u)
    decreases n
  {
    var g1 := g.(queue := g.queue[1..]);
    var g2 := UpdateAnp(g1, g.queue[0], anyPolicy);
    if u in g2.updates {
      id := g.queue[0];
      UpdateAnpStarts(g1, id, anyPolicy, u);
    } else {
      DrainLooksOn(g, anyPolicy);
      id := DrainStarts(g2, anyPolicy, n - 1, u);
    }
  }

  lemma DrainLooksOn(g: Group, anyPolicy: bool)
    requires g.queue != [] && !g.inProgress
    ensures var g2 := UpdateAnp(g.(queue := g.queue[1..]), g.queue[0], anyPolicy);
            g2.policies == g.policies && forall id <- g2.queue :: id in g.queue
  {
  }

  /** The same update, whether or not the cloud has carried it out. */
  function Undone(u: Update): Update {
    u.(done := false)
  }

  lemma StepStarts(g: Group, e: Event, u: Update)
    requires u in Step(g, e).updates
    ensures (exists w <- g.updates :: Undone(w) == Undone(u)) || Starts(g, e, u)
  {
    if u !in g.updates {
      match e
      case Trigger(id, any) => UpdateAnpStarts(g, id, any, u);
      case Respond(ruleUpdate, any) =>
        var h := g.(responses := g.responses - if ruleUpdate then 1 else 0);
        var id := DrainStarts(h, any, g.limit, u);
        assert LooksAt(g, e, id) && StartedBy(g, id, u);
      case CloudDone(k) => assert u == g.updates[k].(done := true) && Undone(g.updates[k]) == Undone(u);
      case _ =>
    }
  }

  /** At some point of the run an event made the loop start the update. */
  ghost predicate Began(g: Group, es: seq<Event>, u: Update) {
    exists i :: 0 <= i < |es| && Starts(Run(g, es[..i]), es[i], Undone(u))
  }

  lemma {:induction false} RunSnoc(g: Group, es: seq<Event>, e: Event)
    ensures Run(g, es + [e]) == Step(Run(g, es), e)
    decreases es
  {
    if es == [] {
      assert [e][1..] == [] && es + [e] == [e];
    } else {
      assert (es + [e])[1..] == es[1..] + [e];
      RunSnoc(Step(g, es[0]), es[1..], e);
    }
  }

  lemma BeganLater(g: Group, es: seq<Event>, e: Event, u: Update)
    requires Began(g, es, u)
    ensures Began(g, es + [e], u)
  {
    var i :| 0 <= i < |es| && Starts(Run(g, es[..i]), es[i], Undone(u));
    assert (es + [e])[..i] == es[..i] && (es + [e])[i] == es[i];
  }

  lemma BeginsNow(g: Group, es: seq<Event>, e: Event, u: Update)
    requires Starts(Run(g, es), e, u)
    ensures Began(g, es + [e], u)
  {
    var all := es + [e];
    assert all[..|es|] == es && all[|es|] == e;
    var id :| LooksAt(Run(g, es), e, id) && StartedBy(Run(g, es), id, u);
    assert StartedBy(Run(g, es), id, Undone(u));
  }

  lemma {:induction false} EveryUpdateBegan(g: Group, es: seq<Event>, u: Update)
    requires g.updates == [] && u in Run(g, es).updates
    ensures Began(g, es, u)
    decreases |es|
  {
    if es != [] {
      var init, e := es[..|es| - 1], es[|es| - 1];
      assert es == init + [e];
      RunSnoc(g, init, e);
      StepStarts(Run(g, init), e, u);
      if w :| w in Run(g, init).updates && Undone(w) == Undone(u) {
        EveryUpdateBegan(g, init, w);
        BeganLater(g, init, e, w);
      } else {
        BeginsNow(g, init, e, u);
      }
    }
  }

  lemma {:induction false} RunsAchieve(g: Group, es: seq<Event>)
    requires Agrees(g) && AllAchieve(g)
    ensures Agrees(Run(g, es)) && AllAchieve(Run(g, es))
    decreases es
  {
    if es != [] {
      StepAgrees(g, es[0]);
      StepAchieves(g, es[0]);
      RunsAchieve(Step(g, es[0]), es[1..]);
    }
  }

  /**
   * Over every run: when an update ends well, its policy owns, in the index and in the cloud, exactly the rules
   * it desired when the loop looked at it and started that update; nobody else's rules changed in the index.
   */
  lemma FinishedUpdatesRealize(policies: seq<Policy>, es: seq<Event>, k: nat)
    requires var g := Run(Start(policies), es); k < |g.updates| && g.updates[k].done
    ensures var (g, u) := (Run(Start(policies), es), Run(Start(policies), es).updates[k]);
            var after := Step(g, Finish(k));
            Began(Start(policies), es, u) && Realized(after, u.owner, u.want) && Spares(g.index, after.index, u.owner)
  {
    var g := Run(Start(policies), es);
    RunsAchieve(Start(policies), es);
    var u := g.updates[k];
    assert u in g.updates;
    EveryUpdateBegan(Start(policies), es, u);
    assert g.inProgress && k == 0;
  }

  // ---------------------------------------------------------------------------------------------
  // The group object
  // ---------------------------------------------------------------------------------------------

  /** The group as the controller keeps it, with the calls it has started; `View` is the state above. */
  class AppliedToGroup {
    const limit: nat
    var policies: seq<Policy>
    var usable: bool
    var index: Index
    var cloud: Index
    var inProgress: bool
    var updates: seq<Update>
    var queue: seq<nat>
    var responses: nat
    var blocked: bool

    function View(): Group
      reads this
    {
      Group(limit, policies, usable, index, cloud, inProgress, updates, queue, responses, blocked)
    }

    /**
     * At most one update is out, it gives its policy what it wanted and the index agrees with the cloud;
     * whoever waits will be looked at.
     */
    ghost predicate Valid()
      reads this
    {
      Agrees(View()) && Awake(View()) && AllAchieve(View())
    }

    constructor (policies: seq<Policy>)
      ensures View() == Start(policies) && Valid()
    {
      this.limit := QUEUE_LIMIT;
      this.policies, usable, index, cloud := policies, true, map[], map[];
      inProgress, updates, queue, responses, blocked := false, [], [], 0, false;
    }

    /** A send on a full queue never returns: the object is left blocked. */
    method UpdateAnpRules(id: nat, anyPolicy: bool)
      modifies this
      ensures View() == UpdateAnp(old(View()), id, anyPolicy)
    {
      var p := PolicyAt(View(), id);
      if !p.ready { return; }
      if !usable { return; }
      if inProgress {
        if |queue| < limit { queue := queue + [id]; } else { blocked := true; }
        return;
      }
      if !anyPolicy || p.desired.Err? { return; }
      if Conflict(index, p.owner, p.desired.value) { return; }
      var d := DeltaOf(index, p.owner, p.desired.value);
      if d.add == {} && d.remove == {} {
        responses := responses + 1;
        return;
      }
      inProgress := true;
      updates := updates + [Update(p.owner, p.desired.value, d, false)];
    }

    /** A queue that never holds more than the loop's bound is drained, or an update is in flight again. */
    method ProcessPending(anyPolicy: bool)
      modifies this
      ensures View() == Drain(old(View()), anyPolicy, limit)
      ensures |old(queue)| <= limit ==> queue == [] || inProgress
    {
      ghost var start := View();
      if !inProgress {
        var i := 0;
        while i < limit
          invariant 0 <= i <= limit && !inProgress
          invariant Drain(View(), anyPolicy, limit - i) == Drain(start, anyPolicy, limit)
        {
          if queue == [] { break; }
          ghost var before := View();
          var id := queue[0];
          queue := queue[1..];
          UpdateAnpRules(id, anyPolicy);
          i := i + 1;
          assert !before.inProgress ==> Drain(before, anyPolicy, limit - i + 1) == Drain(View(), anyPolicy, limit - i);
          if inProgress { break; }
        }
        assert Drain(View(), anyPolicy, limit - i) == View();
      }
      if |old(queue)| <= limit { DrainWakes(start, anyPolicy, limit); }
    }

    /** The call answers; on success the index is brought up to date rule by rule. */
    method Complete(k: nat, ok: bool)
      requires k < |updates| && updates[k].done == ok
      modifies this
      ensures View() == if ok then Finished(old(View()), k) else Failed(old(View()), k)
    {
      var u := updates[k];
      if ok {
        StoreAll(u.owner, u.delta.add);
        index := index - u.delta.remove;
      }
      inProgress := false;
      updates := Without(updates, k);
      responses := responses + 1;
    }

    method StoreAll(owner: Owner, rules: set<Rule>)
      modifies `index
      ensures index == old(index) + map r | r in rules :: owner
    {
      var todo := rules;
      while todo != {}
        invariant todo <= rules
        invariant index == old(index) + map r | r in rules - todo :: owner
        decreases todo
      {
        var r :| r in todo;
        index := index[r := owner];
        todo := todo - {r};
      }
    }

    /** What the calls in flight do, whether or not the loop hangs. */
    method FromCloud(e: Event)
      requires e.CloudDone? || e.CloudFailed? || e.Finish?
      modifies this
      ensures View() == Step(old(View()), e)
    {
      match e {
        case CloudDone(k) =>
          if k < |updates| && !updates[k].done {
            cloud := Apply(cloud, updates[k].owner, updates[k].delta);
            updates := updates[k := updates[k].(done := true)];
          }
        case CloudFailed(k) => if k < |updates| && !updates[k].done { Complete(k, false); }
        case Finish(k) => if k < |updates| && updates[k].done { Complete(k, true); }
      }
    }

    method Respond(ruleUpdate: bool, anyPolicy: bool)
      modifies this
      ensures View() == Step(old(View()), Event.Respond(ruleUpdate, anyPolicy))
    {
      if blocked || (ruleUpdate && responses == 0) { return; }
      if ruleUpdate { responses := responses - 1; }
      ProcessPending(anyPolicy);
    }

    method Dispatch(e: Event)
      modifies this
      ensures View() == Step(old(View()), e)
    {
      match e {
        case Change(id, p) =>
          if !blocked { policies := if id < |policies| then policies[id := p] else policies + [p]; }
        case SetUsable(u) => if !blocked { usable := u; }
        case Trigger(id, anyPolicy) => if !blocked { UpdateAnpRules(id, anyPolicy); }
        case Respond(ruleUpdate, anyPolicy) => Respond(ruleUpdate, anyPolicy);
        case _ => FromCloud(e);
      }
    }

    /**
     * One event. Never two updates out, never a waiting policy without an answer to come, no rule of an
     * uninvolved policy touched; an update that ends well leaves its policy what it wanted when it started; the
     * loop hangs only on a ready policy that finds the queue full.
     */
    method Handle(e: Event)
      requires Valid()
      modifies this
      ensures Valid() && |updates| <= 1 && (updates == [] ==> cloud == index)
      ensures View() == Step(old(View()), e)
      ensures forall u <- updates ::
                (exists w <- old(updates) :: Undone(w) == Undone(u)) || Starts(old(View()), e, u)
      ensures e.Finish? && e.k < |old(updates)| && old(updates)[e.k].done ==>
                Realized(View(), old(updates)[e.k].owner, old(updates)[e.k].want)
      ensures forall o :: Uninvolved(old(View()), o) && LeavesOut(old(View()), e, o) ==> SameRules(old(View()), View(), o)
      ensures blocked <==>
              || old(blocked)
              || (e.Trigger? && PolicyAt(old(View()), e.id).ready && old(usable && inProgress && |queue| == limit))
    {
      ghost var g := View();
      Dispatch(e);
      StepAgrees(g, e);
      StepStaysAwake(g, e);
      StepAchieves(g, e);
      forall u <- updates ensures (exists w <- g.updates :: Undone(w) == Undone(u)) || Starts(g, e, u) {
        StepStarts(g, e, u);
      }
      assert e.Finish? && e.k < |g.updates| ==> g.updates[e.k] in g.updates;
      forall o | Uninvolved(g, o) && LeavesOut(g, e, o) ensures SameRules(g, View(), o) {
        StepSpares(g, e, o);
      }
      if g.blocked {
        assert View().blocked;
      } else {
        BlocksWhenFull(g, e);
      }
    }
  }
}
