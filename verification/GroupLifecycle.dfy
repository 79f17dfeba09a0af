/**
 * The life of the security groups that share one group name, one per VPC: asynchronous cloud calls,
 * the retry queue, the deferred-delete item and the group events replayed when deletion is over.
 *
 * The controller is a single loop that reacts to events; cloud calls run on the side and answer later.
 * One state (`Ctl`) holds everything the loop and the calls in flight know about the name, and one
 * function per source routine says how the loop moves it. Whatever the loop reads from elsewhere
 * (which policies are ready, whether an applied-to group still refers to an address group) is
 * a parameter of the event, so that a statement about every run covers every environment.
 */
module GroupLifecycle {
  import opened Wrappers

  /** VPCs and members are opaque names; only their identity matters here. */
  type Vpc = int
  type Member = int

  /** How many retries an item of the retry queue starts with. */
  const RETRY_COUNT: nat := 3

  datatype Op = OpAdd | OpUpdateMembers | OpClearMembers | OpUpdateRules | OpDelete

  datatype State = Init | Created | Garbage

  datatype Status = StatusOk | InProgress | Failed

  /** What runs beside the loop. `NoRuleChange` answers like a rule update without calling the cloud. */
  datatype Call = Create | SetMembers | ClearMembers | UpdateRules | NoRuleChange | Delete

  /**
   * One security group object. Objects are never reused: a group that comes back is a new object.
   * `liveDeletes` counts the cloud deletes issued for it before it was marked for garbage collection,
   * `garbageCalls` the other cloud calls issued for it since.
   */
  datatype Sg = Sg(
    vpc: Vpc, members: set<Member>, state: State, deletePending: bool, status: Status,
    retryOp: Option<Op>, retryInProgress: bool,
    cloudOpInProgress: bool, ruleReady: bool, hasMembers: bool,
    liveDeletes: int, garbageCalls: int)

  /** An item of the retry queue; its key is the VPC of the group it retries. */
  datatype RetryItem = RetryItem(sg: nat, count: int)

  datatype GroupEvent =
    | Added(added: set<Member>)
    | Modified(added: set<Member>, removed: set<Member>)
    | Deleted

  datatype EventType = TypeAdded | TypeModified

  /** The deferred-delete item of the name. `hist` records the events it has coalesced. */
  datatype PendingGroup = PendingGroup(
    refCnt: int, runOnClear: bool, event: Option<EventType>,
    added: set<Member>, removed: set<Member>, hist: seq<GroupEvent>)

  /**
   * What a group event finds elsewhere: the VPCs whose address group some applied-to group still refers
   * to, and those whose address group is marked for re-use.
   */
  datatype Env = Env(referred: set<Vpc>, reUsed: set<Vpc>)

  /** A call whose response the loop has not processed yet. */
  datatype Flight = Flight(sg: nat, call: Call)

  /** A replay of deferred events, with the number of deletes in flight when it ran. */
  datatype Replay = Replay(members: set<Member>, hist: seq<GroupEvent>, deletes: nat)

  /** What a rule update finds when it looks at one policy. */
  datatype NpOutcome = NotReady | NoPolicies | ComputeError | NoDelta | Delta

  datatype Ctl = Ctl(
    membershipOnly: bool, synced: bool, vpcs: seq<Vpc>, vpcOf: map<Member, Vpc>,
    sgs: seq<Sg>, indexer: map<Vpc, nat>, retryQueue: map<Vpc, RetryItem>, pend: Option<PendingGroup>,
    flight: seq<Flight>, replays: seq<Replay>, panicked: bool)

  // ---------------------------------------------------------------------------------------------
  // What the deferred-delete item stands for
  // ---------------------------------------------------------------------------------------------

  /** What one event makes of the members a group has. */
  function Apply(before: set<Member>, e: GroupEvent): set<Member> {
    match e
    case Added(a) => before + a
    case Modified(a, r) => before - r + a
    case Deleted => {}
  }

  /** The members an event list leaves in a group that starts empty: the meaning of a replay. */
  function Fold(hist: seq<GroupEvent>): set<Member> {
    if hist == [] then {} else Apply(Fold(hist[..|hist| - 1]), hist[|hist| - 1])
  }

  function DeletesIn(fs: seq<Flight>): nat {
    if fs == [] then 0 else (if fs[0].call == Delete then 1 else 0) + DeletesIn(fs[1..])
  }

  lemma DeletesInAppend(a: seq<Flight>, b: seq<Flight>)
    ensures DeletesIn(a + b) == DeletesIn(a) + DeletesIn(b)
  {
    if a == [] {
      assert a + b == b;
    } else {
      assert (a + b)[1..] == a[1..] + b;
    }
  }

  /** The deletes in flight that the item does not count. */
  function Uncounted(c: Ctl): int {
    DeletesIn(c.flight) - if c.pend.Some? then c.pend.value.refCnt else 0
  }

  /** The item holds what its events would leave in an empty group, and never adds what it removes. */
  predicate Faithful(p: Option<PendingGroup>) {
    p.Some? ==> p.value.added == Fold(p.value.hist) && p.value.added !! p.value.removed
  }

  /** Only the controller of address groups can panic. */
  predicate Calm(c: Ctl, r: Ctl) {
    r.membershipOnly == c.membershipOnly && (!c.membershipOnly ==> r.panicked == c.panicked)
  }

  /**
   * A routine that counts the deletes it issues, neither replays nor disturbs the deferred events, and
   * keeps the item queued; an item it makes has deferred nothing yet.
   */
  predicate Settled(c: Ctl, r: Ctl) {
    && Uncounted(r) == Uncounted(c) && r.replays == c.replays
    && (c.pend.None? && r.pend.Some? ==> r.pend.value.hist == [] && r.pend.value.added == {} && r.pend.value.removed == {})
    && (c.pend.Some? ==> r.pend.Some? && SameDeferred(c.pend.value, r.pend.value))
    && Calm(c, r)
  }

  /** The deferred events and what they amount to; only the count of deletes may differ. */
  predicate SameDeferred(p: PendingGroup, q: PendingGroup) {
    q.added == p.added && q.removed == p.removed && q.event == p.event && q.hist == p.hist
  }

  // ---------------------------------------------------------------------------------------------
  // The routines of a security group
  // ---------------------------------------------------------------------------------------------

  function NewSg(v: Vpc, ms: set<Member>): Sg {
    Sg(v, ms, Init, false, StatusOk, None, false, false, false, false, 0, 0)
  }

  /** The object with the given number. Numbers that were never handed out name a blank object. */
  function At(c: Ctl, id: nat): Sg {
    if id < |c.sgs| then c.sgs[id] else NewSg(0, {})
  }

  function Set(c: Ctl, id: nat, s: Sg): (r: Ctl)
    ensures |r.sgs| == |c.sgs| && r == c.(sgs := r.sgs)
    ensures forall q: nat {:trigger At(r, q)} :: At(r, q) == if q == id && id < |c.sgs| then s else At(c, q)
    ensures Settled(c, r)
  {
    if id < |c.sgs| then c.(sgs := c.sgs[id := s]) else c
  }

  /** The object indexed under a VPC: its key is its own VPC. */
  function Lookup(c: Ctl, v: Vpc): Option<nat> {
    if v in c.indexer && c.indexer[v] < |c.sgs| && At(c, c.indexer[v]).vpc == v then Some(c.indexer[v]) else None
  }

  /** The item queued for retry under a VPC: its key is the VPC of its object. */
  function Queued(c: Ctl, v: Vpc): Option<RetryItem> {
    if v in c.retryQueue && At(c, c.retryQueue[v].sg).vpc == v then Some(c.retryQueue[v]) else None
  }

  function Record(s: Sg, call: Call): Sg {
    if call == NoRuleChange then s
    else if s.state == Garbage then s.(garbageCalls := s.garbageCalls + if call == Delete then 0 else 1)
    else s.(liveDeletes := s.liveDeletes + if call == Delete then 1 else 0)
  }

  function Issue(c: Ctl, id: nat, call: Call): (r: Ctl)
    ensures r == c.(sgs := r.sgs, flight := r.flight) && |r.sgs| == |c.sgs|
    ensures DeletesIn(r.flight) == DeletesIn(c.flight) + if call == Delete then 1 else 0
  {
    DeletesInAppend(c.flight, [Flight(id, call)]);
    Set(c, id, Record(At(c, id), call)).(flight := c.flight + [Flight(id, call)])
  }

  /** An object is filed under its own VPC; a number that was never handed out is not filed. */
  function Filed(c: Ctl, id: nat): map<Vpc, nat> {
    if id < |c.sgs| then c.indexer[At(c, id).vpc := id] else c.indexer
  }

  function AddImpl(c: Ctl, id: nat): (r: Ctl)
    ensures r.pend == c.pend && r.panicked == c.panicked && Settled(c, r)
  {
    var s := At(c, id);
    var c1 := c.(indexer := Filed(c, id));
    if !c.synced || s.retryOp.Some? then c1
    else Issue(Set(c1, id, s.(status := InProgress)), id, Create)
  }

  /** Removing a queued item clears the retry of the object it holds. */
  function RetryRemove(c: Ctl, v: Vpc): (r: Ctl)
    ensures |r.sgs| == |c.sgs| && r == c.(sgs := r.sgs, retryQueue := r.retryQueue)
    ensures Settled(c, r)
  {
    if Queued(c, v).None? then c
    else
      var id := Queued(c, v).value.sg;
      Set(c, id, At(c, id).(retryOp := None)).(retryQueue := c.retryQueue - {v})
  }

  function EnsurePending(c: Ctl): (r: Ctl)
    ensures r.pend.Some? && r == c.(pend := r.pend)
    ensures Settled(c, r)
  {
    if c.pend.Some? then c
    else c.(pend := Some(PendingGroup(0, false, None, {}, {}, [])))
  }

  function CountDelete(c: Ctl): (r: Ctl)
    requires c.pend.Some?
    ensures r == c.(pend := r.pend)
  {
    c.(pend := Some(c.pend.value.(refCnt := c.pend.value.refCnt + 1, runOnClear := false)))
  }

  function IssueDelete(c: Ctl, id: nat): (r: Ctl)
    requires c.pend.Some?
    ensures r.panicked == c.panicked && DeletesIn(r.flight) == DeletesIn(c.flight) + 1
    ensures Settled(c, r)
  {
    Issue(Set(CountDelete(c), id, At(c, id).(status := InProgress)), id, Delete)
  }

  /** The key leaves the indexer and the retry queue. */
  function Unindex(c: Ctl, v: Vpc): (r: Ctl)
    ensures |r.sgs| == |c.sgs| && r == c.(sgs := r.sgs, retryQueue := r.retryQueue, indexer := r.indexer)
    ensures Settled(c, r)
  {
    RetryRemove(c.(indexer := c.indexer - {v}), v)
  }

  function ClearRetry(c: Ctl, id: nat): (r: Ctl)
    ensures |r.sgs| == |c.sgs| && r == c.(sgs := r.sgs)
    ensures Settled(c, r)
  {
    Set(c, id, At(c, id).(retryOp := None))
  }

  function MarkGarbage(c: Ctl, id: nat): (r: Ctl)
    ensures |r.sgs| == |c.sgs| && r == c.(sgs := r.sgs)
    ensures Settled(c, r)
  {
    Set(c, id, At(c, id).(retryOp := None, state := Garbage))
  }

  /** Deletion proper: a group the cloud may know becomes garbage and is deleted there. */
  function Condemn(c: Ctl, id: nat): (r: Ctl)
    requires c.pend.Some?
    ensures r.panicked == c.panicked && Settled(c, r)
  {
    var c1 := Unindex(c, At(c, id).vpc);
    if At(c, id).state == Init && At(c, id).status != InProgress then ClearRetry(c1, id)
    else IssueDelete(MarkGarbage(c1, id), id)
  }

  /** `referred`: some indexed applied-to group still refers to this address group. */
  function DeleteImpl(c: Ctl, id: nat, referred: bool): (r: Ctl)
    ensures r.panicked == c.panicked && Settled(c, r)
  {
    var c1 := EnsurePending(c);
    var s := At(c, id);
    if s.state != Garbage then
      if c.membershipOnly && referred then Set(c1, id, s.(deletePending := true))
      else Condemn(c1, id)
    else if s.retryOp.Some? then c1
    else IssueDelete(c1, id)
  }

  function UpdateImpl(c: Ctl, id: nat, added: set<Member>, removed: set<Member>): (r: Ctl)
    ensures r.indexer == c.indexer && |r.sgs| == |c.sgs|
    ensures r.pend == c.pend && r.panicked == c.panicked && Settled(c, r)
  {
    var s := At(c, id);
    if added == {} && removed == {} && s.members == {} then c
    else
      var c1 := Set(c, id, s.(members := s.members - removed + added));
      if s.state != Created || s.retryOp.Some? then c1 else Issue(c1, id, SetMembers)
  }

  function ClearMembersImpl(c: Ctl, id: nat): (r: Ctl)
    ensures r.panicked == c.panicked && r.pend == c.pend && r.indexer == c.indexer && |r.sgs| == |c.sgs|
    ensures Settled(c, r)
  {
    if At(c, id).hasMembers then Issue(c, id, ClearMembers)
    else Set(c, id, At(c, id).(ruleReady := false))
  }

  function UpdateAnpRules(c: Ctl, id: nat, o: NpOutcome): (r: Ctl)
    ensures r.panicked == c.panicked && r.pend == c.pend && r.indexer == c.indexer && |r.sgs| == |c.sgs|
    ensures Settled(c, r)
  {
    var s := At(c, id);
    if o == NotReady || s.state != Created || s.deletePending || s.retryOp.Some? || s.cloudOpInProgress then c
    else if o == NoPolicies then ClearMembersImpl(c, id)
    else if o == ComputeError then Set(c, id, s.(status := Failed))
    else if o == NoDelta then Issue(c, id, NoRuleChange)
    else Issue(Set(c, id, s.(cloudOpInProgress := true)), id, UpdateRules)
  }

  function UpdateAnps(c: Ctl, id: nat, os: seq<NpOutcome>): (r: Ctl)
    ensures r.panicked == c.panicked && r.pend == c.pend && r.indexer == c.indexer && |r.sgs| == |c.sgs|
    ensures Settled(c, r)
    decreases os
  {
    if os == [] then c else UpdateAnps(UpdateAnpRules(c, id, os[0]), id, os[1..])
  }

  /** `os` lists the policies applied to the group; none means its members are cleared. */
  function UpdateAllRules(c: Ctl, id: nat, os: seq<NpOutcome>): (r: Ctl)
    ensures r.panicked == c.panicked && r.indexer == c.indexer && |r.sgs| == |c.sgs|
    ensures Settled(c, r)
  {
    if At(c, id).state != Created || At(c, id).retryOp.Some? then c
    else if os == [] then ClearMembersImpl(c, id)
    else UpdateAnps(c, id, os)
  }

  // ---------------------------------------------------------------------------------------------
  // The retry queue
  // ---------------------------------------------------------------------------------------------

  /** The retried operation answered: it is no longer ongoing, and done with if the group is fine. */
  function UpdatePendingItem(s: Sg, op: Op): (r: Sg)
    ensures r.vpc == s.vpc && r.state == s.state
  {
    if s.retryOp != Some(op) then s
    else s.(retryInProgress := false, retryOp := if s.status == StatusOk then None else s.retryOp)
  }

  /** Redoes an operation. An address group asked to redo rules or cleared members panics. */
  function Redo(c: Ctl, id: nat, op: Op, os: seq<NpOutcome>, referred: bool): (r: Ctl)
    ensures Settled(c, r)
  {
    match op
    case OpAdd => AddImpl(c, id)
    case OpUpdateMembers => UpdateImpl(c, id, {}, {})
    case OpDelete => DeleteImpl(c, id, referred)
    case _ => if c.membershipOnly then c.(panicked := true) else UpdateAllRules(c, id, os)
  }

  /** `runPendingItemImpl`: the retried operation runs as if nothing were being retried. */
  function RunPendingItem(c: Ctl, id: nat, os: seq<NpOutcome>, referred: bool): (r: Ctl)
    requires At(c, id).retryOp.Some?
    ensures Settled(c, r)
  {
    var op := At(c, id).retryOp.value;
    var c1 := Redo(ClearRetry(c, id), id, op, os, referred);
    Set(c1, id, At(c1, id).(retryInProgress := true, retryOp := Some(op)))
  }

  function SetCount(c: Ctl, v: Vpc, count: int): (r: Ctl)
    ensures r == c.(retryQueue := r.retryQueue)
    ensures Settled(c, r)
  {
    if Queued(c, v).None? then c else c.(retryQueue := c.retryQueue[v := Queued(c, v).value.(count := count)])
  }

  /** A run costs the item one retry, and its place when fewer than `least` are left. */
  function Spend(c: Ctl, v: Vpc, count: int, least: int): (r: Ctl)
    ensures r.panicked == c.panicked && r.indexer == c.indexer && |r.sgs| == |c.sgs|
    ensures Settled(c, r)
  {
    if count - 1 < least then RetryRemove(SetCount(c, v, count - 1), v) else SetCount(c, v, count - 1)
  }

  /** The queued object hears that `op` answered. */
  function TellItem(c: Ctl, id: nat, op: Op): (r: Ctl)
    ensures r.panicked == c.panicked && r.indexer == c.indexer && |r.sgs| == |c.sgs|
    ensures Settled(c, r)
  {
    Set(c, id, UpdatePendingItem(At(c, id), op))
  }

  /** `PendingItemQueue.Update` on the retry queue, with the operation that answered. */
  function RetryUpdate(c: Ctl, v: Vpc, checkRun: bool, op: Op, os: seq<NpOutcome>, referred: bool): (r: Ctl)
    ensures Settled(c, r)
  {
    if Queued(c, v).None? then c
    else
      var i := Queued(c, v).value;
      var c1 := TellItem(c, i.sg, op);
      if !checkRun then c1
      else if At(c1, i.sg).retryOp.None? then RetryRemove(c1, v)
      else if At(c1, i.sg).retryInProgress then
        if i.count <= 0 then RetryRemove(c1, v) else c1
      else Spend(RunPendingItem(c1, i.sg, os, referred), v, i.count, 1)
  }

  /** One item of a `CheckToRun` sweep. */
  function RetrySweep(c: Ctl, v: Vpc, os: seq<NpOutcome>, referred: bool): (r: Ctl)
    ensures Settled(c, r)
  {
    if Queued(c, v).None? then c
    else
      var i := Queued(c, v).value;
      if At(c, i.sg).retryOp.None? then RetryRemove(c, v)
      else if At(c, i.sg).retryInProgress then
        if i.count < 0 then RetryRemove(c, v) else c
      else Spend(if i.count > 0 then RunPendingItem(c, i.sg, os, referred) else c, v, i.count, 0)
  }

  // ---------------------------------------------------------------------------------------------
  // Group events and the deferred-delete item
  // ---------------------------------------------------------------------------------------------

  function UpdatePendingGroup(p: PendingGroup, e: GroupEvent): PendingGroup {
    match e
    case Deleted => p.(added := {}, removed := {}, event := None, hist := [])
    case Added(a) =>
      p.(event := if p.event.None? then Some(TypeAdded) else p.event,
         added := p.added + a, removed := p.removed - a, hist := p.hist + [e])
    case Modified(a, r) =>
      p.(event := if p.event.None? then Some(TypeModified) else p.event,
         added := p.added - r + a, removed := p.removed + (r - p.added) - a, hist := p.hist + [e])
  }

  function InVpc(c: Ctl, ms: set<Member>, v: Vpc): set<Member> {
    set m <- ms | m in c.vpcOf && c.vpcOf[m] == v
  }

  /** An event with a member whose machine is not known yet is put off as a whole. */
  predicate AllFound(c: Ctl, ms: set<Member>) {
    ms <= c.vpcOf.Keys
  }

  function NewGroup(c: Ctl, v: Vpc, ms: set<Member>): (r: Ctl)
    ensures r.panicked == c.panicked
    ensures r.pend == c.pend && Settled(c, r)
  {
    c.(sgs := c.sgs + [NewSg(v, ms)])
  }

  /** First pass of a group event: the VPCs with added members. `left` keeps the removals still to apply. */
  function AddPass(c: Ctl, vs: seq<Vpc>, added: set<Member>, removed: set<Member>, left: set<Vpc>): (r: (Ctl, set<Vpc>))
    ensures r.0.pend == c.pend && r.0.panicked == c.panicked && Settled(c, r.0)
    decreases vs
  {
    if vs == [] then (c, left)
    else
      var v := vs[0];
      var ms := InVpc(c, added, v);
      if ms == {} then AddPass(c, vs[1..], added, removed, left)
      else if Lookup(c, v).None? then
        AddPass(AddImpl(NewGroup(c, v, ms), |c.sgs|), vs[1..], added, removed, left)
      else if At(c, Lookup(c, v).value).members == ms then AddPass(c, vs[1..], added, removed, left)
      else
        AddPass(UpdateImpl(c, Lookup(c, v).value, ms, InVpc(c, removed, v)), vs[1..], added, removed, left - {v})
  }

  /** Second pass: the removals the first pass did not consume. */
  function RemovePass(c: Ctl, vs: seq<Vpc>, removed: set<Member>, left: set<Vpc>): (r: Ctl)
    ensures r.panicked == c.panicked
    ensures r.pend == c.pend && Settled(c, r)
    decreases vs
  {
    if vs == [] then c
    else
      var v := vs[0];
      var ms := InVpc(c, removed, v);
      if ms == {} || v !in left || Lookup(c, v).None? then RemovePass(c, vs[1..], removed, left)
      else RemovePass(UpdateImpl(c, Lookup(c, v).value, {}, ms), vs[1..], removed, left)
  }

  function ApplyMembers(c: Ctl, added: set<Member>, removed: set<Member>): (r: Ctl)
    ensures r.panicked == c.panicked
    ensures r.pend == c.pend && Settled(c, r)
  {
    var (c1, left) := AddPass(c, c.vpcs, added, removed, set v <- c.vpcs);
    RemovePass(c1, c.vpcs, removed, left)
  }

  /** A group marked for re-use is not deleted. */
  predicate Spared(c: Ctl, v: Vpc, env: Env) {
    c.membershipOnly && v in env.reUsed
  }

  function DeletePass(c: Ctl, vs: seq<Vpc>, env: Env): (r: Ctl)
    ensures r.panicked == c.panicked
    ensures Settled(c, r)
    decreases vs
  {
    if vs == [] then c
    else if Lookup(c, vs[0]).None? || Spared(c, vs[0], env) then DeletePass(c, vs[1..], env)
    else DeletePass(DeleteImpl(c, Lookup(c, vs[0]).value, vs[0] in env.referred), vs[1..], env)
  }

  /** `processGroup`: while the name waits for deletion its events are coalesced, not applied. */
  function ProcessGroup(c: Ctl, e: GroupEvent, env: Env): (r: Ctl)
    ensures r.panicked == c.panicked
    ensures Calm(c, r)
  {
    if c.pend.Some? then c.(pend := Some(UpdatePendingGroup(c.pend.value, e)))
    else match e
      case Added(a) => if AllFound(c, a) then ApplyMembers(c, a, {}) else c
      case Modified(a, r) => if AllFound(c, a) then ApplyMembers(c, a, r) else c
      case Deleted => DeletePass(c, c.vpcs, env)
  }

  function Uncount(p: PendingGroup, moreOps: bool): PendingGroup {
    p.(refCnt := p.refCnt - 1, runOnClear := !moreOps)
  }

  /** The item is out of the queue and its members are processed like a fresh group event. */
  function ReplayItem(c: Ctl, p: PendingGroup): (r: Ctl)
    ensures r.panicked == c.panicked
    ensures Calm(c, r)
  {
    var replay := Replay(p.added, p.hist, DeletesIn(c.flight));
    ProcessGroup(c.(pend := None, replays := c.replays + [replay]), Added(p.added), Env({}, {}))
  }

  /**
   * `PendingItemQueue.Update` on the deferred-delete queue when a delete answered. Once no delete is in
   * flight and none will be retried, the item leaves the queue and its members are processed like a
   * fresh group event.
   */
  function PendingDeleteAnswered(c: Ctl, moreOps: bool): (r: Ctl)
    ensures r.panicked == c.panicked
    ensures Calm(c, r)
  {
    if c.pend.None? then c
    else
      var p := Uncount(c.pend.value, moreOps);
      if p.refCnt > 0 || !p.runOnClear then c.(pend := Some(p))
      else if p.added == {} then c.(pend := None)
      else ReplayItem(c, p)
  }

  /** The group's retry has tries left. */
  predicate MoreOps(c: Ctl, v: Vpc) {
    Queued(c, v).Some? && Queued(c, v).value.count > 0
  }

  // ---------------------------------------------------------------------------------------------
  // Responses
  // ---------------------------------------------------------------------------------------------

  /** A failed operation is queued for retry, unless the key already retries or the group is garbage. */
  function QueueRetry(c: Ctl, id: nat, op: Op): (r: Ctl)
    ensures r.panicked == c.panicked && r.indexer == c.indexer && |r.sgs| == |c.sgs|
    ensures Settled(c, r)
  {
    var s := At(c, id);
    if Queued(c, s.vpc).Some? || (s.state == Garbage && op != OpDelete) then c
    else Set(c, id, s.(retryOp := Some(op))).(retryQueue := c.retryQueue[s.vpc := RetryItem(id, RETRY_COUNT)])
  }

  /** The retry queue hears of the response: a failure may be queued, a success may run the next retry. */
  function Retried(c: Ctl, id: nat, op: Op, ok: bool, os: seq<NpOutcome>, referred: bool): (r: Ctl)
    ensures Settled(c, r)
  {
    if ok then RetryUpdate(c, At(c, id).vpc, true, op, os, referred)
    else RetryUpdate(QueueRetry(c, id, op), At(c, id).vpc, false, op, os, referred)
  }

  function NotifyImpl(c: Ctl, id: nat, op: Op, ok: bool, os: seq<NpOutcome>, referred: bool): (r: Ctl)
    ensures Calm(c, r)
  {
    var c1 := Retried(c, id, op, ok, os, referred);
    var v := At(c, id).vpc;
    if op != OpDelete then c1
    else PendingDeleteAnswered(c1, MoreOps(c1, v))
  }

  /** A group whose creation answered is usable, unless it was deleted meanwhile. */
  function BecomeCreated(c: Ctl, id: nat): (r: Ctl)
    ensures r.panicked == c.panicked && r.indexer == c.indexer && |r.sgs| == |c.sgs|
    ensures Settled(c, r)
  {
    Set(c, id, At(c, id).(state := if At(c, id).state == Init then Created else At(c, id).state))
  }

  function SetHasMembers(c: Ctl, id: nat, b: bool): (r: Ctl)
    ensures r.panicked == c.panicked && r.indexer == c.indexer && |r.sgs| == |c.sgs|
    ensures Settled(c, r)
  {
    Set(c, id, At(c, id).(hasMembers := b))
  }

  /** The refreshed group is taken out of the indexer and put back, whether or not it was there. */
  function RulesRefreshed(c: Ctl, id: nat): (r: Ctl)
    ensures r.panicked == c.panicked
    ensures Settled(c, r)
  {
    Set(c, id, At(c, id).(ruleReady := true)).(indexer := Filed(c, id))
  }

  function AppliedToOk(c: Ctl, id: nat, op: Op, os: seq<NpOutcome>): (r: Ctl)
    ensures r.panicked == c.panicked
    ensures Settled(c, r)
  {
    match op
    case OpAdd => if At(c, id).state == Init then UpdateAllRules(BecomeCreated(c, id), id, os) else c
    case OpUpdateMembers => SetHasMembers(c, id, true)
    case OpUpdateRules =>
      if At(c, id).hasMembers then RulesRefreshed(c, id) else UpdateImpl(RulesRefreshed(c, id), id, {}, {})
    case OpClearMembers =>
      if At(c, id).ruleReady then UpdateAllRules(SetHasMembers(c, id, false), id, os) else SetHasMembers(c, id, false)
    case OpDelete => c
  }

  function AddressOk(c: Ctl, id: nat, op: Op): (r: Ctl)
    ensures r.panicked == c.panicked
    ensures Settled(c, r)
  {
    if op != OpAdd then c else UpdateImpl(BecomeCreated(c, id), id, {}, {})
  }

  /** The status a response leaves, unless the group is being deleted and this is not the delete. */
  function SetStatus(c: Ctl, id: nat, op: Op, ok: bool): (r: Ctl)
    ensures r.panicked == c.panicked && r.indexer == c.indexer && |r.sgs| == |c.sgs|
    ensures Settled(c, r)
  {
    if At(c, id).state == Garbage && op != OpDelete then c
    else Set(c, id, At(c, id).(status := if ok then StatusOk else Failed))
  }

  function OnSuccess(c: Ctl, id: nat, op: Op, os: seq<NpOutcome>): (r: Ctl)
    ensures r.panicked == c.panicked
    ensures Settled(c, r)
  {
    if c.membershipOnly then AddressOk(c, id, op) else AppliedToOk(c, id, op, os)
  }

  function AfterStatus(c: Ctl, id: nat, op: Op, ok: bool, os: seq<NpOutcome>, referred: bool): (r: Ctl)
    ensures Settled(c, r)
  {
    if ok then OnSuccess(RetryUpdate(c, At(c, id).vpc, false, op, [], referred), id, op, os) else c
  }

  /** `notify` of both kinds of group: status, retry bookkeeping, success actions, `notifyImpl`, drain. */
  function Notify(c: Ctl, id: nat, op: Op, ok: bool, os: seq<NpOutcome>, retryOs: seq<NpOutcome>,
                  drain: seq<NpOutcome>, referred: bool): (r: Ctl)
    ensures Calm(c, r)
  {
    var c1 := AfterStatus(SetStatus(c, id, op, ok), id, op, ok, os, referred);
    var c2 := NotifyImpl(c1, id, op, ok, retryOs, referred);
    if c.membershipOnly then c2 else UpdateAnps(c2, id, drain)
  }

  // ---------------------------------------------------------------------------------------------
  // Events and runs
  // ---------------------------------------------------------------------------------------------

  datatype Event =
    | Group(e: GroupEvent, env: Env)
    | Response(k: nat, op: Op, ok: bool, os: seq<NpOutcome>, retryOs: seq<NpOutcome>, drain: seq<NpOutcome>, isReferred: bool)
    | Sweep(v: Vpc, os: seq<NpOutcome>, isReferred: bool)
    | Policy(sg: nat, o: NpOutcome)
    | RulesDone(sg: nat)
    | RefDropped(v: Vpc, isReferred: bool)

  /** The operation a call answers with. A membership call answers "cleared" when the group is empty by then. */
  predicate Answers(call: Call, op: Op, ok: bool) {
    match call
    case Create => op == OpAdd
    case SetMembers => op == OpUpdateMembers || op == OpClearMembers
    case ClearMembers => op == OpClearMembers
    case UpdateRules => op == OpUpdateRules
    case NoRuleChange => op == OpUpdateRules && ok
    case Delete => op == OpDelete
  }

  /** The response of the `k`-th call is taken from the channel. */
  function Land(c: Ctl, k: nat): (r: Ctl)
    requires k < |c.flight|
  {
    c.(flight := c.flight[..k] + c.flight[k + 1..])
  }

  function Respond(c: Ctl, k: nat, op: Op, ok: bool, os: seq<NpOutcome>, retryOs: seq<NpOutcome>,
                   drain: seq<NpOutcome>, referred: bool): (r: Ctl)
    ensures Calm(c, r)
  {
    if k >= |c.flight| || !Answers(c.flight[k].call, op, ok) then c
    else Notify(Land(c, k), c.flight[k].sg, op, ok, os, retryOs, drain, referred)
  }

  /** Steps other than group events and responses. */
  function QuietStep(c: Ctl, e: Event): (r: Ctl)
    ensures Settled(c, r)
  {
    match e
    case Sweep(v, os, referred) => RetrySweep(c, v, os, referred)
    case Policy(id, o) => if id >= |c.sgs| || c.membershipOnly then c else UpdateAnpRules(c, id, o)
    case RulesDone(id) => if id >= |c.sgs| then c else Set(c, id, At(c, id).(cloudOpInProgress := false))
    case RefDropped(v, referred) =>
      if c.membershipOnly && Lookup(c, v).Some? && At(c, Lookup(c, v).value).deletePending
      then DeleteImpl(c, Lookup(c, v).value, referred) else c
    case _ => c
  }

  function Step(c: Ctl, e: Event): (r: Ctl)
    ensures Calm(c, r)
  {
    if c.panicked then c
    else match e
      case Group(g, env) => ProcessGroup(c, g, env)
      case Response(k, op, ok, os, retryOs, drain, referred) =>
        Respond(c, k, op, ok, os, retryOs, drain, referred)
      case _ => QuietStep(c, e)
  }

  function Run(c: Ctl, es: seq<Event>): (r: Ctl)
    decreases es
  {
    if es == [] then c else Run(Step(c, es[0]), es[1..])
  }

  function Start(membershipOnly: bool, synced: bool, vpcs: seq<Vpc>, vpcOf: map<Member, Vpc>): (r: Ctl)
  {
    Ctl(membershipOnly, synced, vpcs, vpcOf, [], map[], map[], None, [], [], false)
  }
}
