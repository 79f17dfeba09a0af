/** The deferred-delete item as the controller keeps it: two member maps edited member by member. */
module PendingGroups {
  import opened Wrappers
  import opened GroupLifecycle
  import opened GroupReplayProofs

  function Keys(ms: seq<Member>): set<Member> {
    set m <- ms
  }

  predicate Distinct(ms: seq<Member>) {
    forall i, j :: 0 <= i < j < |ms| ==> ms[i] != ms[j]
  }

  lemma KeysNext(ms: seq<Member>, n: nat)
    requires n < |ms|
    ensures Keys(ms[..n + 1]) == Keys(ms[..n]) + {ms[n]}
    ensures Distinct(ms) ==> ms[n] !in Keys(ms[..n])
  {
    assert ms[..n + 1] == ms[..n] + [ms[n]];
  }

  /** The group event behind a call; an added group comes without removed members, but need not. */
  function EventOf(e: EventType, added: seq<Member>, removed: seq<Member>): GroupEvent {
    if e == TypeAdded && removed == [] then Added(Keys(added)) else Modified(Keys(added), Keys(removed))
  }

  /** The item after its maps were edited for an event. */
  predicate Edited(was: PendingGroup, now: PendingGroup, e: EventType, added: seq<Member>, removed: seq<Member>) {
    && now.added == was.added - Keys(removed) + Keys(added)
    && (Distinct(removed) ==> now.removed == was.removed + (Keys(removed) - was.added) - Keys(added))
    && now.hist == was.hist + [EventOf(e, added, removed)]
    && now.event == (if was.event.None? then Some(e) else was.event)
    && now.refCnt == was.refCnt && now.runOnClear == was.runOnClear
  }

  lemma EditedFold(was: PendingGroup, now: PendingGroup, e: EventType, added: seq<Member>, removed: seq<Member>)
    requires Edited(was, now, e, added, removed) && was.added == Fold(was.hist)
    ensures now.added == Fold(now.hist)
  {
    FoldSnoc(was.hist, EventOf(e, added, removed));
    if removed == [] { assert was.added - Keys(removed) == was.added; }
  }

  /** Editing the maps is the coalescing step of the life cycle. */
  lemma EditedCoalesces(was: PendingGroup, now: PendingGroup, e: EventType, added: seq<Member>, removed: seq<Member>)
    requires Edited(was, now, e, added, removed) && Distinct(removed) && (e == TypeAdded ==> removed == [])
    ensures now == UpdatePendingGroup(was, EventOf(e, added, removed))
  {
    if e == TypeAdded {
      assert Keys(removed) == {};
      assert now.added == was.added + Keys(added) && now.removed == was.removed - Keys(added);
    }
  }

  class PendingGroupItem {
    var refCnt: int
    var runOnClear: bool
    var event: Option<EventType>
    var addedMembers: set<Member>
    var removedMembers: set<Member>

    /** The events absorbed since the item was made or last emptied. */
    ghost var hist: seq<GroupEvent>

    /** The item as the life cycle sees it. */
    ghost function View(): PendingGroup
      reads this
    {
      PendingGroup(refCnt, runOnClear, event, addedMembers, removedMembers, hist)
    }

    /** The added members are what the absorbed events leave in an empty group, and none of them is to be removed. */
    ghost predicate Valid()
      reads this
    {
      addedMembers == Fold(hist) && addedMembers !! removedMembers
    }

    constructor ()
      ensures Valid() && View() == PendingGroup(0, false, None, {}, {}, [])
    {
      refCnt, runOnClear, event, addedMembers, removedMembers, hist := 0, false, None, {}, {}, [];
    }

    method UpdateReferences(delta: int, clear: bool)
      requires Valid()
      modifies this
      ensures Valid() && View() == old(View()).(refCnt := old(refCnt) + delta, runOnClear := clear)
    {
      runOnClear := clear;
      refCnt := refCnt + delta;
    }

    method DropMembers(removed: seq<Member>)
      modifies `addedMembers, `removedMembers
      ensures addedMembers == old(addedMembers) - Keys(removed)
      ensures Distinct(removed) ==> removedMembers == old(removedMembers) + (Keys(removed) - old(addedMembers))
      ensures old(addedMembers) !! old(removedMembers) ==> addedMembers !! removedMembers
    {
      for n := 0 to |removed|
        invariant addedMembers == old(addedMembers) - Keys(removed[..n])
        invariant Distinct(removed) ==>
          removedMembers == old(removedMembers) + (Keys(removed[..n]) - old(addedMembers))
        invariant old(addedMembers) !! old(removedMembers) ==> addedMembers !! removedMembers
      {
        KeysNext(removed, n);
        if removed[n] in addedMembers {
          addedMembers := addedMembers - {removed[n]};
        } else {
          removedMembers := removedMembers + {removed[n]};
        }
      }
      assert removed[..|removed|] == removed;
    }

    method TakeMembers(added: seq<Member>)
      modifies `addedMembers, `removedMembers
      ensures addedMembers == old(addedMembers) + Keys(added)
      ensures removedMembers == old(removedMembers) - Keys(added)
      ensures old(addedMembers) !! old(removedMembers) ==> addedMembers !! removedMembers
    {
      for n := 0 to |added|
        invariant addedMembers == old(addedMembers) + Keys(added[..n])
        invariant removedMembers == old(removedMembers) - Keys(added[..n])
      {
        KeysNext(added, n);
        removedMembers := removedMembers - {added[n]};
        addedMembers := addedMembers + {added[n]};
      }
      assert added[..|added|] == added;
    }

    /** Editing the two maps. */
    method EditMembers(added: seq<Member>, removed: seq<Member>)
      requires addedMembers !! removedMembers
      modifies `addedMembers, `removedMembers
      ensures addedMembers == old(addedMembers) - Keys(removed) + Keys(added) && addedMembers !! removedMembers
      ensures Distinct(removed) ==>
        removedMembers == old(removedMembers) + (Keys(removed) - old(addedMembers)) - Keys(added)
    {
      DropMembers(removed);
      TakeMembers(added);
    }

    /**
     * Editing the maps member by member, whatever is listed, absorbs the event; it is the coalescing step of
     * the life cycle when no removed member is listed twice.
     */
    method Coalesce(e: EventType, added: seq<Member>, removed: seq<Member>)
      requires Valid()
      modifies this
      ensures Valid() && hist == old(hist) + [EventOf(e, added, removed)]
      ensures refCnt == old(refCnt) && runOnClear == old(runOnClear)
      ensures Distinct(removed) && (e == TypeAdded ==> removed == []) ==>
        View() == UpdatePendingGroup(old(View()), EventOf(e, added, removed))
    {
      ghost var was := View();
      if event.None? { event := Some(e); }
      hist := hist + [EventOf(e, added, removed)];
      EditMembers(added, removed);
      EditedFold(was, View(), e, added, removed);
      if Distinct(removed) && (e == TypeAdded ==> removed == []) { EditedCoalesces(was, View(), e, added, removed); }
    }

    method Clear()
      requires Valid()
      modifies this
      ensures Valid() && View() == UpdatePendingGroup(old(View()), Deleted)
    {
      event, addedMembers, removedMembers, hist := None, {}, {}, [];
    }
  }
}
