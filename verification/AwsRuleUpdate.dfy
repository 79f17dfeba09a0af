/** The rule update of one AWS security group: four cloud calls, undone when one of them fails. */
module AwsRuleUpdate {
  import opened Wrappers
  import opened Matching
  import opened AwsPermissions

  /** The permissions a security group has in the cloud. */
  datatype Rules = Rules(ingress: set<IpPermission>, egress: set<IpPermission>)

  /** What is to be revoked and authorized; each of the four calls succeeds or fails as a whole. */
  datatype Change = Change(
    rmIngress: set<IpPermission>, addIngress: set<IpPermission>,
    rmEgress: set<IpPermission>, addEgress: set<IpPermission>)

  function Elements(ps: seq<IpPermission>): set<IpPermission> {
    set p <- ps
  }

  function Realized(r: Rules, c: Change): Rules {
    Rules(r.ingress - c.rmIngress + c.addIngress, r.egress - c.rmEgress + c.addEgress)
  }

  /** What is left when the given call fails and the calls that undo the earlier ones succeed. */
  function RolledBack(r: Rules, c: Change, step: int): Rules {
    if step <= 1 then r
    else if step == 2 then r.(ingress := r.ingress - c.rmIngress + c.rmIngress)
    else
      Rules(r.ingress - c.rmIngress + c.addIngress + c.rmIngress - c.addIngress,
            if step == 3 then r.egress else r.egress - c.rmEgress + c.rmEgress)
  }

  /** What the failed call leaves behind is what was there before. */
  predicate CanRestore(r: Rules, c: Change, step: int) {
    && (step == 2 ==> c.rmIngress <= r.ingress)
    && (step >= 3 ==> c.addIngress !! r.ingress && c.rmIngress <= r.ingress + c.addIngress)
    && (step == 4 ==> c.rmEgress <= r.egress)
  }

  /** A failed update restores the rules exactly under that condition, whichever call failed. */
  lemma RollbackRestores(r: Rules, c: Change, step: int)
    requires 1 <= step <= 4
    ensures RolledBack(r, c, step) == r <==> CanRestore(r, c, step)
  {
    var back := RolledBack(r, c, step);
    if step >= 2 && back == r {
      forall p <- c.rmIngress ensures p in r.ingress || (step >= 3 && p in c.addIngress) {
        assert p in back.ingress || p in c.addIngress;
      }
      if step >= 3 { assert c.addIngress !! back.ingress; }
      if step == 4 { assert c.rmEgress <= back.egress; }
    }
  }

  /**
   * After the additions already in the cloud were dropped, none of them is there, unless the local list
   * names a permission of the cloud twice.
   */
  lemma DedupKeepsApart(local: seq<IpPermission>, cloud: set<IpPermission>)
    ensures Elements(Unmatched(local, multiset(cloud))) !! cloud <==>
            forall p <- cloud :: multiset(local)[p] <= 1
  {
    UnmatchedIsDifference(local, multiset(cloud));
    var left := Unmatched(local, multiset(cloud));
    forall p ensures p in Elements(left) <==> multiset(local)[p] > multiset(cloud)[p] {
      assert p in left <==> p in multiset(left);
    }
  }

  /** Permissions to revoke that are there, and additions that do not repeat: all or nothing, whatever fails. */
  lemma UpdateIsAllOrNothing(r: Rules, rmIngress: set<IpPermission>, rmEgress: set<IpPermission>,
                             addIngress: seq<IpPermission>, addEgress: seq<IpPermission>, step: int)
    requires 1 <= step <= 4 && rmIngress <= r.ingress && rmEgress <= r.egress
    requires forall p <- r.ingress :: multiset(addIngress)[p] <= 1
    ensures var c := Change(rmIngress, Elements(Unmatched(addIngress, multiset(r.ingress))),
                            rmEgress, Elements(Unmatched(addEgress, multiset(r.egress))));
            RolledBack(r, c, step) == r
  {
    DedupKeepsApart(addIngress, r.ingress);
    var c := Change(rmIngress, Elements(Unmatched(addIngress, multiset(r.ingress))),
                    rmEgress, Elements(Unmatched(addEgress, multiset(r.egress))));
    RollbackRestores(r, c, step);
  }

  /** A successful update ends with the wanted permissions exactly when none is both there, revoked and added. */
  lemma UpdateReachesGoal(r: set<IpPermission>, remove: set<IpPermission>, add: seq<IpPermission>)
    ensures r - remove + Elements(Unmatched(add, multiset(r))) == r - remove + Elements(add) <==>
            forall p <- remove :: p in r && p in add ==> multiset(add)[p] > 1
  {
    UnmatchedIsDifference(add, multiset(r));
    var left := Unmatched(add, multiset(r));
    forall p ensures p in Elements(left) <==> multiset(add)[p] > multiset(r)[p] {
      assert p in left <==> p in multiset(left);
    }
    forall p ensures p in Elements(add) <==> multiset(add)[p] > 0 {
      assert p in add <==> p in multiset(add);
    }
    var goal, got := r - remove + Elements(add), r - remove + Elements(left);
    if goal == got {
      forall p <- remove | p in r && p in add ensures multiset(add)[p] > 1 { assert p in goal; }
    } else {
      assert got <= goal;
      var p :| p in goal && p !in got;
      assert p in remove && p in r && p in add && multiset(add)[p] <= 1;
    }
  }

  // ---------------------------------------------------------------------------------------------
  // The update
  // ---------------------------------------------------------------------------------------------

  /** A call with nothing to do is not made and cannot fail. */
  predicate Fails(perms: seq<IpPermission>, ok: bool) {
    perms != [] && !ok
  }

  /** The first call that fails, or 5 when all go through. */
  function FailedStep(rmI: seq<IpPermission>, addI: seq<IpPermission>, rmE: seq<IpPermission>, addE: seq<IpPermission>,
                      ok1: bool, ok2: bool, ok3: bool, ok4: bool): int {
    if Fails(rmI, ok1) then 1
    else if Fails(addI, ok2) then 2
    else if Fails(rmE, ok3) then 3
    else if Fails(addE, ok4) then 4
    else 5
  }

  /** The step is the first call that has something to do and is refused. */
  lemma FirstFailure(perms: seq<seq<IpPermission>>, oks: seq<bool>)
    requires |perms| == 4 && |oks| == 4
    ensures var step := FailedStep(perms[0], perms[1], perms[2], perms[3], oks[0], oks[1], oks[2], oks[3]);
            && 1 <= step <= 5 && (forall i :: 0 <= i < step - 1 ==> perms[i] == [] || oks[i])
            && (step <= 4 ==> perms[step - 1] != [] && !oks[step - 1])
  {
  }

  /** The cloud lists the permissions of a group, several peers to an entry or not. */
  predicate Lists(listed: seq<IpPermission>, perms: set<IpPermission>) {
    multiset(Singles(Atoms(listed))) == multiset(perms)
  }

  /** Every permission to revoke is there, and no addition that is there is named twice. */
  predicate Undoable(r: Rules, rmI: seq<IpPermission>, addI: seq<IpPermission>, rmE: seq<IpPermission>) {
    && Elements(rmI) <= r.ingress && Elements(rmE) <= r.egress
    && forall p <- r.ingress :: multiset(addI)[p] <= 1
  }

  /** No permission that is there is both revoked and, once, added. */
  predicate Reaches(have: set<IpPermission>, rm: seq<IpPermission>, add: seq<IpPermission>) {
    forall p <- Elements(rm) :: p in have && p in add ==> multiset(add)[p] > 1
  }

  class CloudGroup {
    var ingress: set<IpPermission>
    var egress: set<IpPermission>

    function View(): Rules
      reads this
    {
      Rules(ingress, egress)
    }

    constructor (r: Rules)
      ensures View() == r
    {
      ingress, egress := r.ingress, r.egress;
    }

    method RealizeIngress(perms: seq<IpPermission>, isDelete: bool, ok: bool) returns (failed: bool)
      modifies `ingress
      ensures failed == Fails(perms, ok)
      ensures ingress == if failed then old(ingress)
                         else if isDelete then old(ingress) - Elements(perms) else old(ingress) + Elements(perms)
    {
      if |perms| == 0 { return false; }
      if ok { ingress := if isDelete then ingress - Elements(perms) else ingress + Elements(perms); }
      return !ok;
    }

    method RealizeEgress(perms: seq<IpPermission>, isDelete: bool, ok: bool) returns (failed: bool)
      modifies `egress
      ensures failed == Fails(perms, ok)
      ensures egress == if failed then old(egress)
                        else if isDelete then old(egress) - Elements(perms) else old(egress) + Elements(perms)
    {
      if |perms| == 0 { return false; }
      if ok { egress := if isDelete then egress - Elements(perms) else egress + Elements(perms); }
      return !ok;
    }

    /** The additions the cloud lacks: the local list, compacted in place. */
    method Missing(add: array<IpPermission>, listed: seq<IpPermission>) returns (missing: seq<IpPermission>)
      modifies add
      ensures missing == Unmatched(old(add[..]), multiset(listed))
    {
      var cloud := new Option<IpPermission>[|listed|](i requires 0 <= i < |listed| => Some(listed[i]));
      assert cloud[..] == Somes(listed);
      CompactSomes(listed);
      var n := DedupIpPermissions(add, cloud, multiset(listed));
      missing := add[..n];
    }

    /** The four calls in order; when one fails, the flags say which of the earlier ones to undo. */
    method Realize(rmI: seq<IpPermission>, addI: seq<IpPermission>, rmE: seq<IpPermission>, addE: seq<IpPermission>,
                   ok1: bool, ok2: bool, ok3: bool, ok4: bool) returns (failed: bool)
      modifies this
      ensures var c := Change(Elements(rmI), Elements(addI), Elements(rmE), Elements(addE));
              var step := FailedStep(rmI, addI, rmE, addE, ok1, ok2, ok3, ok4);
              && failed == (step <= 4)
              && View() == if failed then RolledBack(old(View()), c, step) else Realized(old(View()), c)
    {
      var rollbackRmIngress, rollbackAddIngress, rollbackRmEgress := false, false, false;
      failed := RealizeIngress(rmI, true, ok1);
      if !failed {
        failed := RealizeIngress(addI, false, ok2);
        if failed {
          rollbackRmIngress := true;
        } else {
          failed := RealizeEgress(rmE, true, ok3);
          if failed {
            rollbackRmIngress, rollbackAddIngress := true, true;
          } else {
            failed := RealizeEgress(addE, false, ok4);
            if failed { rollbackRmIngress, rollbackAddIngress, rollbackRmEgress := true, true, true; }
          }
        }
      }
      if rollbackRmIngress { var _ := RealizeIngress(rmI, false, true); }
      if rollbackAddIngress { var _ := RealizeIngress(addI, true, true); }
      if rollbackRmEgress { var _ := RealizeEgress(rmE, false, true); }
    }

    /**
     * The whole update: the listings are normalized, what they already hold is dropped from the additions,
     * and the rest is realized. A failure leaves the group as it was, a success as it was to be.
     */
    method Update(listedI: seq<IpPermission>, listedE: seq<IpPermission>, rmI: seq<IpPermission>, addI: array<IpPermission>,
                  rmE: seq<IpPermission>, addE: array<IpPermission>, ok1: bool, ok2: bool, ok3: bool, ok4: bool)
      returns (failed: bool)
      requires Lists(listedI, ingress) && Lists(listedE, egress) && addI != addE
      modifies this, addI, addE
      ensures failed && Undoable(old(View()), rmI, old(addI[..]), rmE) ==> View() == old(View())
      ensures !failed && Reaches(old(ingress), rmI, old(addI[..])) ==>
              ingress == old(ingress) - Elements(rmI) + Elements(old(addI[..]))
      ensures !failed && Reaches(old(egress), rmE, old(addE[..])) ==>
              egress == old(egress) - Elements(rmE) + Elements(old(addE[..]))
      ensures ok1 && ok2 && ok3 && ok4 ==> !failed
    {
      ghost var r, wantI, wantE := View(), addI[..], addE[..];
      var haveI := NormalizeIpPermissions(listedI);
      var haveE := NormalizeIpPermissions(listedE);
      var newI := Missing(addI, haveI);
      var newE := Missing(addE, haveE);
      failed := Realize(rmI, newI, rmE, newE, ok1, ok2, ok3, ok4);
      UpdateReachesGoal(r.ingress, Elements(rmI), wantI);
      UpdateReachesGoal(r.egress, Elements(rmE), wantE);
      if failed && Undoable(r, rmI, wantI, rmE) {
        var step := FailedStep(rmI, newI, rmE, newE, ok1, ok2, ok3, ok4);
        UpdateIsAllOrNothing(r, Elements(rmI), Elements(rmE), wantI, wantE, step);
      }
    }
  }
}
