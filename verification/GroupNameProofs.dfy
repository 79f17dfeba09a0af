/** When a deleted name comes back: what its deletion waits for, and what takes its place in the index. */
module GroupNameProofs {
  import opened Wrappers
  import opened GroupLifecycle

  // ---------------------------------------------------------------------------------------------
  // Which deletions reach the cloud
  // ---------------------------------------------------------------------------------------------

  /** Deleting the group reaches the cloud: nothing refers to it and its creation was at least started. */
  predicate ReachesCloud(c: Ctl, id: nat, referred: bool) {
    var s := At(c, id);
    if s.state == Garbage then s.retryOp.None?
    else !(c.membershipOnly && referred) && (s.state == Init ==> s.status == InProgress)
  }

  /** A delete of one object queues the item, and issues a cloud delete exactly then. */
  lemma DeleteIssued(c: Ctl, id: nat, referred: bool)
    ensures DeleteImpl(c, id, referred).pend.Some?
    ensures DeletesIn(DeleteImpl(c, id, referred).flight) ==
            DeletesIn(c.flight) + if ReachesCloud(c, id, referred) then 1 else 0
  {
    var c1 := EnsurePending(c);
    if At(c, id).state != Garbage && !(c.membershipOnly && referred) { CondemnIssues(c1, id); }
  }

  lemma CondemnIssues(c: Ctl, id: nat)
    requires c.pend.Some?
    ensures Condemn(c, id).pend.Some?
    ensures DeletesIn(Condemn(c, id).flight) ==
            DeletesIn(c.flight) + if At(c, id).state == Init && At(c, id).status != InProgress then 0 else 1
  {
  }

  // ---------------------------------------------------------------------------------------------
  // Deleting the group of one VPC leaves the groups of the others
  // ---------------------------------------------------------------------------------------------

  predicate SameAt(c: Ctl, d: Ctl, w: Vpc) {
    Lookup(d, w) == Lookup(c, w) && (Lookup(c, w).Some? ==> At(d, Lookup(c, w).value) == At(c, Lookup(c, w).value))
  }

  lemma SetElsewhere(c: Ctl, id: nat, s: Sg, w: Vpc)
    requires At(c, id).vpc != w && s.vpc == At(c, id).vpc
    ensures SameAt(c, Set(c, id, s), w)
  {
  }

  lemma RetryRemoveElsewhere(c: Ctl, v: Vpc, w: Vpc)
    requires v != w
    ensures SameAt(c, RetryRemove(c, v), w)
  {
    if Queued(c, v).Some? {
      var id := Queued(c, v).value.sg;
      SetElsewhere(c, id, At(c, id).(retryOp := None), w);
    }
  }

  lemma UnindexElsewhere(c: Ctl, v: Vpc, w: Vpc)
    requires v != w
    ensures SameAt(c, Unindex(c, v), w)
  {
    RetryRemoveElsewhere(c.(indexer := c.indexer - {v}), v, w);
  }

  lemma RetryRemoveVpc(c: Ctl, v: Vpc, q: nat)
    ensures At(RetryRemove(c, v), q).vpc == At(c, q).vpc
    ensures At(RetryRemove(c, v), q).state == At(c, q).state && At(RetryRemove(c, v), q).status == At(c, q).status
  {
  }

  lemma IssueDeleteElsewhere(c: Ctl, id: nat, w: Vpc)
    requires c.pend.Some? && At(c, id).vpc != w
    ensures SameAt(c, IssueDelete(c, id), w)
  {
    var c1 := CountDelete(c);
    var s := At(c, id).(status := InProgress);
    var c2 := Set(c1, id, s);
    SetElsewhere(c1, id, s, w);
    SetElsewhere(c2, id, Record(At(c2, id), Delete), w);
  }

  lemma CondemnElsewhere(c: Ctl, id: nat, w: Vpc)
    requires c.pend.Some? && At(c, id).vpc != w
    ensures SameAt(c, Condemn(c, id), w)
  {
    var v := At(c, id).vpc;
    var c1 := Unindex(c, v);
    UnindexElsewhere(c, v, w);
    RetryRemoveVpc(c.(indexer := c.indexer - {v}), v, id);
    SetElsewhere(c1, id, At(c1, id).(retryOp := None), w);
    SetElsewhere(c1, id, At(c1, id).(retryOp := None, state := Garbage), w);
    IssueDeleteElsewhere(MarkGarbage(c1, id), id, w);
  }

  lemma DeleteElsewhere(c: Ctl, id: nat, referred: bool, w: Vpc)
    requires At(c, id).vpc != w
    ensures SameAt(c, DeleteImpl(c, id, referred), w)
  {
    var c1 := EnsurePending(c);
    if At(c, id).state != Garbage {
      SetElsewhere(c1, id, At(c, id).(deletePending := true), w);
      CondemnElsewhere(c1, id, w);
    } else {
      IssueDeleteElsewhere(c1, id, w);
    }
  }

  // ---------------------------------------------------------------------------------------------
  // A deleted name
  // ---------------------------------------------------------------------------------------------

  /** The name has a group in the VPC that its deletion takes up. */
  predicate Taken(c: Ctl, v: Vpc, env: Env) {
    Lookup(c, v).Some? && !Spared(c, v, env)
  }

  predicate Reaches(c: Ctl, v: Vpc, env: Env) {
    Taken(c, v, env) && ReachesCloud(c, Lookup(c, v).value, v in env.referred)
  }

  /** A group whose deletion did not reach the cloud does not reach it the next time either. */
  lemma StillUnreached(c: Ctl, v: Vpc, env: Env)
    requires Taken(c, v, env) && !Reaches(c, v, env)
    ensures !Reaches(DeleteImpl(c, Lookup(c, v).value, v in env.referred), v, env)
  {
    var id := Lookup(c, v).value;
    if At(c, id).state != Garbage && !(c.membershipOnly && v in env.referred) {
      assert v !in Unindex(EnsurePending(c), v).indexer;
    }
  }

  lemma OthersReach(c: Ctl, v: Vpc, w: Vpc, env: Env)
    requires Taken(c, v, env) && v != w
    ensures Reaches(DeleteImpl(c, Lookup(c, v).value, v in env.referred), w, env) <==> Reaches(c, w, env)
    ensures Taken(DeleteImpl(c, Lookup(c, v).value, v in env.referred), w, env) <==> Taken(c, w, env)
  {
    DeleteElsewhere(c, Lookup(c, v).value, v in env.referred, w);
  }

  lemma {:induction false} PassIssues(c: Ctl, vs: seq<Vpc>, env: Env)
    ensures DeletesIn(DeletePass(c, vs, env).flight) >= DeletesIn(c.flight)
    ensures DeletesIn(DeletePass(c, vs, env).flight) == DeletesIn(c.flight) <==> forall v <- vs :: !Reaches(c, v, env)
    decreases vs
  {
    if vs != [] {
      var v := vs[0];
      assert forall w :: w in vs <==> w == v || w in vs[1..] by { assert vs == [v] + vs[1..]; }
      if !Taken(c, v, env) {
        PassIssues(c, vs[1..], env);
      } else {
        var d := DeleteImpl(c, Lookup(c, v).value, v in env.referred);
        DeleteIssued(c, Lookup(c, v).value, v in env.referred);
        PassIssues(d, vs[1..], env);
        if !Reaches(c, v, env) {
          StillUnreached(c, v, env);
          forall w <- vs[1..] ensures Reaches(d, w, env) <==> Reaches(c, w, env) {
            if w != v { OthersReach(c, v, w, env); }
          }
        }
      }
    }
  }

  lemma {:induction false} PassQueues(c: Ctl, vs: seq<Vpc>, env: Env)
    ensures DeletePass(c, vs, env).pend.Some? <==> c.pend.Some? || exists v <- vs :: Taken(c, v, env)
    decreases vs
  {
    if vs != [] {
      var v := vs[0];
      assert forall w :: w in vs <==> w == v || w in vs[1..] by { assert vs == [v] + vs[1..]; }
      if !Taken(c, v, env) {
        PassQueues(c, vs[1..], env);
      } else {
        DeleteIssued(c, Lookup(c, v).value, v in env.referred);
        PassQueues(DeleteImpl(c, Lookup(c, v).value, v in env.referred), vs[1..], env);
      }
    }
  }

  /**
   * A deleted name waits with no delete in flight exactly when it has a group to delete and the deletion of
   * none of its groups reaches the cloud.
   */
  lemma NameWaits(c: Ctl, env: Env)
    requires c.pend.None? && Uncounted(c) == 0
    ensures var d := ProcessGroup(c, Deleted, env);
            d.pend.Some? && DeletesIn(d.flight) == 0 <==>
            (exists v <- c.vpcs :: Taken(c, v, env)) && (forall v <- c.vpcs :: !Reaches(c, v, env))
  {
    PassIssues(c, c.vpcs, env);
    PassQueues(c, c.vpcs, env);
  }

  /** The group was not created in the cloud, and its creation is not under way. */
  predicate NotInCloud(s: Sg) {
    s.state == Init && s.status != InProgress
  }

  /** For applied-to groups, none of them being deleted again: exactly when no group of the name is in the cloud yet. */
  lemma AppliedToNameWaits(c: Ctl, env: Env)
    requires c.pend.None? && Uncounted(c) == 0 && !c.membershipOnly
    requires forall v <- c.vpcs :: Lookup(c, v).Some? && At(c, Lookup(c, v).value).state == Garbage ==>
               At(c, Lookup(c, v).value).retryOp.None?
    ensures var d := ProcessGroup(c, Deleted, env);
            d.pend.Some? && DeletesIn(d.flight) == 0 <==>
            (exists v <- c.vpcs :: Lookup(c, v).Some?) &&
            (forall v <- c.vpcs :: Lookup(c, v).Some? ==> NotInCloud(At(c, Lookup(c, v).value)))
  {
    NameWaits(c, env);
    forall v <- c.vpcs
      ensures Taken(c, v, env) <==> Lookup(c, v).Some?
      ensures !Reaches(c, v, env) <==> (Lookup(c, v).Some? ==> NotInCloud(At(c, Lookup(c, v).value)))
    {
    }
  }

  // ---------------------------------------------------------------------------------------------
  // What a deletion leaves in each VPC
  // ---------------------------------------------------------------------------------------------

  lemma CondemnLeaves(c: Ctl, id: nat, q: nat)
    requires c.pend.Some? && At(c, q).vpc != At(c, id).vpc
    ensures At(Condemn(c, id), q) == At(c, q)
  {
    var c1 := Unindex(c, At(c, id).vpc);
    assert At(c1, q) == At(c, q);
  }

  lemma DeleteLeaves(c: Ctl, id: nat, referred: bool, q: nat)
    requires At(c, q).vpc != At(c, id).vpc
    ensures At(DeleteImpl(c, id, referred), q) == At(c, q)
  {
    var c1 := EnsurePending(c);
    assert At(c1, q) == At(c, q) && At(c1, id) == At(c, id);
    if At(c, id).state != Garbage { CondemnLeaves(c1, id, q); }
  }

  lemma IssueDeleteMarks(c: Ctl, id: nat)
    requires c.pend.Some?
    ensures var r := IssueDelete(c, id);
            r.indexer == c.indexer && At(r, id).vpc == At(c, id).vpc && At(r, id).state == At(c, id).state
  {
    var c1 := Set(CountDelete(c), id, At(c, id).(status := InProgress));
    var c2 := Set(c1, id, Record(At(c1, id), Delete));
    assert At(IssueDelete(c, id), id) == At(c2, id);
  }

  lemma UnindexTakes(c: Ctl, id: nat)
    ensures var (r, v) := (Unindex(c, At(c, id).vpc), At(c, id).vpc);
            v !in r.indexer && At(r, id).vpc == v && At(r, id).state == At(c, id).state && |r.sgs| == |c.sgs|
  {
    var v := At(c, id).vpc;
    RetryRemoveVpc(c.(indexer := c.indexer - {v}), v, id);
  }

  lemma CondemnTakes(c: Ctl, id: nat)
    requires c.pend.Some? && id < |c.sgs| && At(c, id).state != Garbage
    ensures TakenOut(c, Condemn(c, id), At(c, id).vpc, id)
  {
    var c1 := Unindex(c, At(c, id).vpc);
    UnindexTakes(c, id);
    if !NotInCloud(At(c, id)) { IssueDeleteMarks(MarkGarbage(c1, id), id); }
  }

  /** The group is gone from the index; it is garbage if the cloud may know it. */
  predicate TakenOut(c: Ctl, d: Ctl, v: Vpc, id: nat) {
    && Lookup(d, v).None? && At(d, id).vpc == v
    && At(d, id).state == if NotInCloud(At(c, id)) then Init else Garbage
  }

  /** What a deletion leaves of the group of one VPC, told from the state before it. */
  predicate DeletedRight(c: Ctl, d: Ctl, v: Vpc, id: nat, env: Env) {
    if c.membershipOnly && v in env.reUsed then SameAt(c, d, v)
    else if c.membershipOnly && v in env.referred then Lookup(d, v) == Some(id) && At(d, id) == At(c, id).(deletePending := true)
    else TakenOut(c, d, v, id)
  }

  lemma {:induction false} PassLeavesOut(c: Ctl, vs: seq<Vpc>, env: Env, v: Vpc, q: nat)
    requires Lookup(c, v).None? && At(c, q).vpc == v
    ensures Lookup(DeletePass(c, vs, env), v).None? && At(DeletePass(c, vs, env), q) == At(c, q)
    decreases vs
  {
    if vs != [] {
      if !Taken(c, vs[0], env) {
        PassLeavesOut(c, vs[1..], env, v, q);
      } else {
        var id := Lookup(c, vs[0]).value;
        DeleteElsewhere(c, id, vs[0] in env.referred, v);
        DeleteLeaves(c, id, vs[0] in env.referred, q);
        PassLeavesOut(DeleteImpl(c, id, vs[0] in env.referred), vs[1..], env, v, q);
      }
    }
  }

  lemma {:induction false} PassSame(c: Ctl, vs: seq<Vpc>, env: Env, v: Vpc)
    requires v !in vs || Spared(c, v, env)
    ensures SameAt(c, DeletePass(c, vs, env), v)
    decreases vs
  {
    if vs != [] {
      if !Taken(c, vs[0], env) {
        PassSame(c, vs[1..], env, v);
      } else {
        DeleteElsewhere(c, Lookup(c, vs[0]).value, vs[0] in env.referred, v);
        PassSame(DeleteImpl(c, Lookup(c, vs[0]).value, vs[0] in env.referred), vs[1..], env, v);
      }
    }
  }

  lemma OneDeletes(c: Ctl, v: Vpc, id: nat, env: Env)
    requires Lookup(c, v) == Some(id) && At(c, id).state != Garbage && !Spared(c, v, env)
    ensures DeletedRight(c, DeleteImpl(c, id, v in env.referred), v, id, env)
  {
    var c1 := EnsurePending(c);
    assert At(c1, id) == At(c, id);
    if !(c.membershipOnly && v in env.referred) { CondemnTakes(c1, id); }
  }

  lemma {:induction false} PassDeletes(c: Ctl, vs: seq<Vpc>, env: Env, v: Vpc, id: nat)
    requires Lookup(c, v) == Some(id) && At(c, id).state != Garbage && !Spared(c, v, env) && v in vs
    ensures DeletedRight(c, DeletePass(c, vs, env), v, id, env)
    decreases vs
  {
    var w := vs[0];
    if !Taken(c, w, env) {
      PassDeletes(c, vs[1..], env, v, id);
    } else {
      var d := DeleteImpl(c, Lookup(c, w).value, w in env.referred);
      if w != v {
        DeleteElsewhere(c, Lookup(c, w).value, w in env.referred, v);
        PassDeletes(d, vs[1..], env, v, id);
      } else {
        OneDeletes(c, v, id, env);
        if !(c.membershipOnly && v in env.referred) {
          PassLeavesOut(d, vs[1..], env, v, id);
        } else if v in vs[1..] {
          PassDeletes(d, vs[1..], env, v, id);
        } else {
          PassSame(d, vs[1..], env, v);
        }
      }
    }
  }

  /**
   * A deleted name, VPC by VPC: an address group found in use again stays untouched, one that is still referred to
   * is only marked, and any other leaves the index, as garbage if the cloud may know it.
   */
  lemma DeletionIsExact(c: Ctl, env: Env, v: Vpc, id: nat)
    requires c.pend.None? && v in c.vpcs && Lookup(c, v) == Some(id) && At(c, id).state != Garbage
    ensures DeletedRight(c, ProcessGroup(c, Deleted, env), v, id, env)
  {
    if Spared(c, v, env) { PassSame(c, c.vpcs, env, v); } else { PassDeletes(c, c.vpcs, env, v, id); }
  }
}
