/**
 * Which applied-to groups refer to an address group: the reference index, its refresh after a rule
 * update, and the deletion of address groups that waits for it.
 */
module AddressRefs {
  type Key = string

  /** An applied-to group object and its key; a group that comes back is another object under the same key. */
  datatype AppliedTo = AppliedTo(key: Key, object: nat)

  /** Address groups go by name. */
  datatype Address = Address(name: string)

  type Refs = map<AppliedTo, set<Address>>

  /** The indexer of applied-to groups: one object for each key and, kept beside them, the keys per reference. */
  datatype Indexer = Indexer(items: map<Key, AppliedTo>, byRef: map<Address, set<Key>>)

  /**
   * An address group of the indexer: its deletion is wanted, some notification found no policy for it, it
   * was found in use again since, the cloud may know it.
   */
  datatype Info = Info(pending: bool, unused: bool, reUsed: bool, started: bool)

  /** What a notification leaves of the marks; `mentioned`: some policy mentions the group. */
  function Marked(i: Info, mentioned: bool): Info {
    if !mentioned then i.(unused := true)
    else if !i.pending && i.unused then i.(unused := false, reUsed := true)
    else i
  }

  /** The marks after a series of notifications; each tells whether some policy mentions the group. */
  function MarkedBy(i: Info, told: seq<bool>): Info {
    if told == [] then i else Marked(MarkedBy(i, told[..|told| - 1]), told[|told| - 1])
  }

  /** The notification finds the group mentioned when the one before did not, or when it was unused at the start. */
  predicate Returns(i: Info, told: seq<bool>, k: nat) {
    k < |told| && told[k] && if k == 0 then i.unused else !told[k - 1]
  }

  predicate ReturnsEver(i: Info, told: seq<bool>) {
    exists k :: 0 <= k < |told| && Returns(i, told, k)
  }

  /**
   * A group whose deletion is not wanted is unused exactly if the last notification found no policy, and marked for
   * re-use exactly if some notification found one again; one whose deletion is wanted stays unused once it was, and
   * is never marked.
   */
  lemma {:induction false} MarksTellHistory(i: Info, told: seq<bool>)
    ensures var r := MarkedBy(i, told);
            && r.pending == i.pending && r.started == i.started
            && (r.unused <==> if i.pending then i.unused || false in told
                              else if told == [] then i.unused else !told[|told| - 1])
            && (r.reUsed <==> i.reUsed || (!i.pending && ReturnsEver(i, told)))
  {
    if told != [] {
      var n := |told| - 1;
      MarksTellHistory(i, told[..n]);
      ReturnsNext(i, told);
      assert told == told[..n] + [told[n]];
    }
  }

  lemma ReturnsNext(i: Info, told: seq<bool>)
    requires told != []
    ensures ReturnsEver(i, told) <==> ReturnsEver(i, told[..|told| - 1]) || Returns(i, told, |told| - 1)
  {
    var n := |told| - 1;
    forall k | 0 <= k < n ensures Returns(i, told, k) <==> Returns(i, told[..n], k) {
      assert told[k] == told[..n][k] && (k > 0 ==> told[k - 1] == told[..n][k - 1]);
    }
  }

  function RefsOf(refs: Refs, a: AppliedTo): set<Address> {
    if a in refs then refs[a] else {}
  }

  function Lookup(ix: Indexer, x: Address): set<Key> {
    if x in ix.byRef then ix.byRef[x] else {}
  }

  /** Whatever object is stored under the key is taken out from under the references it has at that moment. */
  function Delete(ix: Indexer, refs: Refs, k: Key): Indexer {
    if k !in ix.items then ix
    else
      var rs := RefsOf(refs, ix.items[k]);
      Indexer(ix.items - {k}, map x | x in ix.byRef :: if x in rs then ix.byRef[x] - {k} else ix.byRef[x])
  }

  /** Storing a group replaces the one with its key, and files it under the references it has at that moment. */
  function Insert(ix: Indexer, refs: Refs, a: AppliedTo): Indexer {
    var jx, rs := Delete(ix, refs, a.key), RefsOf(refs, a);
    Indexer(jx.items[a.key := a],
            map x | x in jx.byRef.Keys + rs :: if x in rs then Lookup(jx, x) + {a.key} else Lookup(jx, x))
  }

  predicate Stored(ix: Indexer, a: AppliedTo) {
    a.key in ix.items && ix.items[a.key] == a
  }

  /** Objects are stored under their own keys, and a lookup finds exactly those that refer to the address group. */
  ghost predicate Exact(ix: Indexer, refs: Refs) {
    (forall k <- ix.items :: ix.items[k].key == k) && forall x, k :: Found(ix, refs, x, k)
  }

  predicate Found(ix: Indexer, refs: Refs, x: Address, k: Key) {
    k in Lookup(ix, x) <==> k in ix.items && x in RefsOf(refs, ix.items[k])
  }

  lemma DeleteExact(ix: Indexer, refs: Refs, k: Key)
    requires Exact(ix, refs)
    ensures Exact(Delete(ix, refs, k), refs)
  {
    var jx := Delete(ix, refs, k);
    forall x, j ensures Found(jx, refs, x, j) {
      assert Found(ix, refs, x, j);
    }
  }

  lemma InsertExact(ix: Indexer, refs: Refs, a: AppliedTo)
    requires Exact(ix, refs)
    ensures Exact(Insert(ix, refs, a), refs)
  {
    DeleteExact(ix, refs, a.key);
    var jx := Insert(ix, refs, a);
    forall x, j ensures Found(jx, refs, x, j) {
      assert Found(Delete(ix, refs, a.key), refs, x, j);
    }
  }

  lemma MutateExact(ix: Indexer, refs: Refs, a: AppliedTo, rs: set<Address>)
    requires Exact(ix, refs) && !Stored(ix, a)
    ensures Exact(ix, refs[a := rs])
  {
    var next := refs[a := rs];
    forall x, k ensures Found(ix, next, x, k) {
      assert Found(ix, refs, x, k);
    }
  }

  /** Changing a stored group's references in place keeps the index exact only if nothing changes. */
  lemma MutateInPlace(ix: Indexer, refs: Refs, a: AppliedTo, rs: set<Address>)
    requires Exact(ix, refs) && Stored(ix, a)
    ensures Exact(ix, refs[a := rs]) <==> rs == RefsOf(refs, a)
  {
    if rs != RefsOf(refs, a) {
      var x :| (x in rs) != (x in RefsOf(refs, a));
      assert Found(ix, refs, x, a.key) && !Found(ix, refs[a := rs], x, a.key);
    } else {
      var next := refs[a := rs];
      forall y, k ensures Found(ix, next, y, k) {
        assert Found(ix, refs, y, k);
      }
    }
  }

  datatype Snapshot = Snapshot(indexer: Indexer, refs: Refs, addresses: map<Address, Info>, garbage: set<Address>)

  /** Some stored group refers to the address group, whatever a look-up says. */
  ghost predicate Referred(s: Snapshot, x: Address) {
    exists k :: k in s.indexer.items && x in RefsOf(s.refs, s.indexer.items[k])
  }

  /** Whether a group with these marks is to be deleted when it is notified. */
  predicate Due(addresses: map<Address, Info>, x: Address, mentioned: bool) {
    x in addresses && addresses[x].pending && (!mentioned || addresses[x].unused)
  }

  /** Look-up is exact, and no group is both to be deleted and marked for re-use. */
  ghost predicate Sound(s: Snapshot) {
    Exact(s.indexer, s.refs) && forall x <- s.addresses :: !(s.addresses[x].pending && s.addresses[x].reUsed)
  }

  datatype Event =
    | AddAppliedTo(group: AppliedTo)
    | Refresh(group: AppliedTo, rules: seq<seq<Address>>, mentioned: set<Address>)
    | DeleteAppliedTo(group: AppliedTo)
    | AppliedToDeleted(group: AppliedTo, mentioned: set<Address>)
    | AddAddress(x: Address, pending: bool, started: bool)
    | UpdateAddress(x: Address)
    | CloudAnswered(x: Address, started: bool)
    | DeleteAddress(x: Address)
    | PolicyChanged(x: Address, isMentioned: bool)

  /** The event makes a deletion that was not wanted before. */
  predicate Asks(e: Event, x: Address) {
    e == DeleteAddress(x)
  }

  /**
   * What a step may do to address groups: one becomes garbage only if its deletion was wanted or is now, it
   * is not marked for re-use, and no stored applied-to group refers to it.
   */
  ghost predicate Collects(s: Snapshot, e: Event, t: Snapshot) {
    forall x :: x in t.garbage && x !in s.garbage ==> MayCollect(s, e, t, x)
  }

  ghost predicate MayCollect(s: Snapshot, e: Event, t: Snapshot, x: Address) {
    && x in s.addresses && x !in t.addresses && (s.addresses[x].pending || Asks(e, x))
    && !s.addresses[x].reUsed && s.addresses[x].started && !Referred(t, x)
  }

  lemma LookupMeetsReferred(s: Snapshot, x: Address)
    requires Sound(s)
    ensures Referred(s, x) <==> Lookup(s.indexer, x) != {}
  {
    var users := Lookup(s.indexer, x);
    if users != {} {
      var k :| k in users;
      assert Found(s.indexer, s.refs, x, k);
    } else {
      forall k <- s.indexer.items ensures x !in RefsOf(s.refs, s.indexer.items[k]) { assert Found(s.indexer, s.refs, x, k); }
    }
  }

  /** Of the groups in `xs` exactly the due and unreferred ones left, the others are marked; no other group changed. */
  ghost predicate Notified(s: Snapshot, t: Snapshot, xs: set<Address>, mentioned: set<Address>) {
    forall x :: OneNotified(s, t, x in xs, x, x in mentioned)
  }

  ghost predicate OneNotified(s: Snapshot, t: Snapshot, told: bool, x: Address, mentioned: bool) {
    var leaves := told && Due(s.addresses, x, mentioned) && !Referred(s, x);
    && (x in t.addresses <==> x in s.addresses && !leaves)
    && (x in t.addresses ==> t.addresses[x] == if told then Marked(s.addresses[x], mentioned) else s.addresses[x])
    && (x in t.garbage <==> x in s.garbage || (leaves && s.addresses[x].started))
  }

  lemma NotifiedNext(s: Snapshot, t: Snapshot, u: Snapshot, xs: set<Address>, mentioned: set<Address>, x: Address)
    requires Notified(s, t, xs, mentioned) && x !in xs && t.indexer == s.indexer && t.refs == s.refs
    requires Notified(t, u, {x}, mentioned)
    ensures Notified(s, u, xs + {x}, mentioned)
  {
    forall y ensures OneNotified(s, u, y in xs + {x}, y, y in mentioned) {
      assert OneNotified(s, t, y in xs, y, y in mentioned);
      assert OneNotified(t, u, y in {x}, y, y in mentioned);
      assert Referred(t, y) <==> Referred(s, y);
    }
  }

  /** What left becomes garbage if the cloud may know it. */
  lemma NotifiedGarbage(s: Snapshot, t: Snapshot, xs: set<Address>, mentioned: set<Address>)
    requires Notified(s, t, xs, mentioned)
    ensures t.garbage == s.garbage + (set x <- s.addresses | x !in t.addresses && s.addresses[x].started)
  {
    forall x ensures x in t.garbage <==> x in s.garbage || (x in s.addresses && x !in t.addresses && s.addresses[x].started) {
      assert OneNotified(s, t, x in xs, x, x in mentioned);
    }
  }

  function Elements(xs: seq<Address>): set<Address> {
    set x <- xs
  }

  lemma ElementsSnoc(xs: seq<Address>, i: nat)
    requires i < |xs|
    ensures Elements(xs[..i + 1]) == Elements(xs[..i]) + {xs[i]}
  {
    assert xs[..i + 1] == xs[..i] + [xs[i]];
  }

  class References {
    var indexer: Indexer
    /** The references each applied-to group holds, stored or not. */
    var refs: Refs
    /** The address groups of the indexer. */
    var addresses: map<Address, Info>
    /** The names whose last group was marked for garbage collection. */
    var garbage: set<Address>

    function View(): Snapshot
      reads this
    {
      Snapshot(indexer, refs, addresses, garbage)
    }

    constructor ()
      ensures Sound(View()) && View() == Snapshot(Indexer(map[], map[]), map[], map[], {})
    {
      indexer, refs, addresses, garbage := Indexer(map[], map[]), map[], map[], {};
    }

    /** A new group has the name; what became of the last one that had it no longer matters. */
    method AddAddress(x: Address, pending: bool, started: bool)
      requires Sound(View())
      modifies `addresses, `garbage
      ensures Sound(View())
      ensures x in old(addresses) ==> addresses == old(addresses) && garbage == old(garbage)
      ensures x !in old(addresses) ==>
        addresses == old(addresses)[x := Info(pending, false, false, started)] && garbage == old(garbage) - {x}
    {
      if x in addresses { return; }
      addresses := addresses[x := Info(pending, false, false, started)];
      garbage := garbage - {x};
    }

    /** A change of members takes the mark for re-use away. */
    method UpdateAddress(x: Address)
      requires Sound(View())
      modifies `addresses
      ensures Sound(View())
      ensures addresses == if x in old(addresses) then old(addresses)[x := old(addresses)[x].(reUsed := false)]
                           else old(addresses)
    {
      if x in addresses { addresses := addresses[x := addresses[x].(reUsed := false)]; }
    }

    /**
     * Deletion of an address group: skipped while it is marked for re-use, put off while some stored group
     * refers to it; otherwise it leaves the indexer, and is garbage if the cloud may know it.
     */
    method DeleteAddress(x: Address)
      requires Sound(View()) && x in addresses
      modifies `addresses, `garbage
      ensures Sound(View())
      ensures old(addresses[x].reUsed) ==> addresses == old(addresses) && garbage == old(garbage)
      ensures !old(addresses[x].reUsed) && Referred(old(View()), x) ==>
        addresses == old(addresses)[x := old(addresses[x]).(pending := true)] && garbage == old(garbage)
      ensures !old(addresses[x].reUsed) && !Referred(old(View()), x) ==>
        && addresses == old(addresses) - {x}
        && garbage == if old(addresses[x].started) then old(garbage) + {x} else old(garbage)
    {
      if addresses[x].reUsed { return; }
      LookupMeetsReferred(View(), x);
      if Lookup(indexer, x) != {} {
        addresses := addresses[x := addresses[x].(pending := true)];
        return;
      }
      if addresses[x].started { garbage := garbage + {x}; }
      addresses := addresses - {x};
    }

    /** One group hears that a policy or a reference changed. */
    method NotifyOne(x: Address, mentioned: bool)
      requires Sound(View()) && x in addresses
      modifies `addresses, `garbage
      ensures Sound(View())
      ensures Due(old(addresses), x, mentioned) && !Referred(old(View()), x) ==>
        && addresses == old(addresses) - {x}
        && garbage == if old(addresses[x].started) then old(garbage) + {x} else old(garbage)
      ensures !Due(old(addresses), x, mentioned) || Referred(old(View()), x) ==>
        addresses == old(addresses)[x := Marked(old(addresses[x]), mentioned)] && garbage == old(garbage)
    {
      if !mentioned { addresses := addresses[x := addresses[x].(unused := true)]; }
      if !addresses[x].pending {
        if mentioned && addresses[x].unused {
          addresses := addresses[x := addresses[x].(reUsed := true, unused := false)];
        }
        return;
      }
      ghost var marked := View();
      if !mentioned || addresses[x].unused {
        assert Referred(marked, x) <==> Referred(old(View()), x);
        DeleteAddress(x);
      }
    }

    /**
     * Each existing group of the list is notified, the others are skipped: those that are due for deletion
     * and which nothing refers to any more leave, no other group does.
     */
    method Notify(xs: seq<Address>, mentioned: set<Address>) returns (notified: set<Address>)
      requires Sound(View()) && forall i, j :: 0 <= i < j < |xs| ==> xs[i] != xs[j]
      modifies `addresses, `garbage
      ensures Sound(View()) && indexer == old(indexer) && refs == old(refs)
      ensures notified == (set x <- xs | x in old(addresses))
      ensures Notified(old(View()), View(), Elements(xs), mentioned)
    {
      notified := {};
      ghost var start := View();
      for i := 0 to |xs|
        invariant Sound(View()) && indexer == start.indexer && refs == start.refs
        invariant notified == (set x <- xs[..i] | x in start.addresses)
        invariant Notified(start, View(), Elements(xs[..i]), mentioned)
      {
        var x := xs[i];
        ghost var before := View();
        assert xs[..i + 1] == xs[..i] + [x];
        assert x !in xs[..i];
        if x in addresses {
          notified := notified + {x};
          NotifyOne(x, x in mentioned);
        }
        NotifiedNext(start, before, View(), Elements(xs[..i]), mentioned, x);
        ElementsSnoc(xs, i);
      }
      assert xs[..|xs|] == xs;
    }

    /** The references of the realized rules, each rule giving the address groups it mentions. */
    method CollectRefs(rules: seq<seq<Address>>) returns (current: set<Address>)
      ensures forall x :: x in current <==> exists i :: 0 <= i < |rules| && x in rules[i]
    {
      current := {};
      for i := 0 to |rules|
        invariant forall x :: x in current <==> exists k :: 0 <= k < i && x in rules[k]
      {
        for j := 0 to |rules[i]|
          invariant forall x :: x in current <==> (exists k :: 0 <= k < i && x in rules[k]) || x in rules[i][..j]
        {
          current := current + {rules[i][j]};
        }
        assert rules[i][..|rules[i]|] == rules[i];
      }
    }

    /** Lists a set; the order is of no consequence. */
    method ListOf(s: set<Address>) returns (xs: seq<Address>)
      ensures (set x <- xs) == s && forall i, j :: 0 <= i < j < |xs| ==> xs[i] != xs[j]
    {
      xs := [];
      var todo := s;
      while todo != {}
        invariant todo <= s && (set x <- xs) == s - todo
        invariant forall i, j :: 0 <= i < j < |xs| ==> xs[i] != xs[j]
        decreases todo
      {
        var x :| x in todo;
        assert x !in (set y <- xs);
        assert (set y <- xs + [x]) == (set y <- xs) + {x};
        todo := todo - {x};
        xs := xs + [x];
      }
    }

    /** Delete, change, add: the index follows. */
    method Refile(a: AppliedTo, current: set<Address>)
      requires Sound(View())
      modifies `indexer, `refs
      ensures Sound(View())
      ensures indexer.items == old(indexer.items)[a.key := a] && refs == old(refs)[a := current]
    {
      DeleteExact(indexer, refs, a.key);
      indexer := Delete(indexer, refs, a.key);
      MutateExact(indexer, refs, a, current);
      refs := refs[a := current];
      InsertExact(indexer, refs, a);
      indexer := Insert(indexer, refs, a);
    }

    /**
     * After a rule update: the group's references become those of its realized rules, the index stays
     * exact, and exactly the dropped address groups that still exist are notified.
     */
    method Refresh(a: AppliedTo, rules: seq<seq<Address>>, mentioned: set<Address>) returns (notified: set<Address>)
      requires Sound(View())
      modifies this
      ensures Sound(View())
      ensures indexer.items == old(indexer.items)[a.key := a] && refs == old(refs)[a := RefsOf(refs, a)]
      ensures forall x :: x in RefsOf(refs, a) <==> exists i :: 0 <= i < |rules| && x in rules[i]
      ensures notified == (RefsOf(old(refs), a) - RefsOf(refs, a)) * old(addresses).Keys
      ensures forall x :: x in old(addresses) && x !in addresses <==>
        x in notified && Due(old(addresses), x, x in mentioned) && !Referred(View(), x)
      ensures garbage == old(garbage) + (set x <- old(addresses) | x !in addresses && old(addresses)[x].started)
    {
      var current := CollectRefs(rules);
      var removed := ListOf(RefsOf(refs, a) - current);
      Refile(a, current);
      ghost var filed := View();
      notified := Notify(removed, mentioned);
      NotifiedGarbage(filed, View(), Elements(removed), mentioned);
      assert forall x :: Referred(View(), x) <==> Referred(filed, x);
      assert forall x :: x in removed <==> x in (set y <- removed);
    }

    /** A new group is stored: it refers to nothing yet, and whatever its key stood for is no longer stored. */
    method AddAppliedTo(a: AppliedTo)
      requires Sound(View())
      modifies `indexer, `refs
      ensures Sound(View())
      ensures indexer.items == old(indexer.items)[a.key := a]
      ensures refs == if a in old(refs) then old(refs) else old(refs)[a := {}]
    {
      Refile(a, RefsOf(refs, a));
    }

    /** An applied-to group leaves the indexer when its deletion starts. */
    method DeleteAppliedTo(a: AppliedTo)
      requires Sound(View())
      modifies `indexer
      ensures Sound(View())
      ensures indexer.items == old(indexer.items) - {a.key}
    {
      DeleteExact(indexer, refs, a.key);
      indexer := Delete(indexer, refs, a.key);
    }

    /** Once its deletion succeeded, the address groups it referred to are notified. */
    method AppliedToDeleted(a: AppliedTo, mentioned: set<Address>) returns (notified: set<Address>)
      requires Sound(View())
      modifies `addresses, `garbage
      ensures Sound(View())
      ensures notified == RefsOf(refs, a) * old(addresses).Keys
      ensures forall x :: x in old(addresses) && x !in addresses <==>
        x in notified && Due(old(addresses), x, x in mentioned) && !Referred(View(), x)
      ensures garbage == old(garbage) + (set x <- old(addresses) | x !in addresses && old(addresses)[x].started)
    {
      ghost var before := View();
      var xs := ListOf(RefsOf(refs, a));
      notified := Notify(xs, mentioned);
      NotifiedGarbage(before, View(), Elements(xs), mentioned);
      assert forall x :: Referred(View(), x) <==> Referred(before, x);
      assert forall x :: x in xs <==> x in (set y <- xs);
    }

    /** Any event keeps look-up exact and collects only what may be collected. */
    method Handle(e: Event)
      requires Sound(View())
      modifies this
      ensures Sound(View()) && Collects(old(View()), e, View())
    {
      match e {
        case AddAppliedTo(a) => AddAppliedTo(a);
        case Refresh(a, rules, mentioned) => var _ := Refresh(a, rules, mentioned);
        case DeleteAppliedTo(a) => DeleteAppliedTo(a);
        case AppliedToDeleted(a, mentioned) => var _ := AppliedToDeleted(a, mentioned);
        case AddAddress(x, pending, started) => AddAddress(x, pending, started);
        case UpdateAddress(x) => UpdateAddress(x);
        case CloudAnswered(x, started) =>
          if x in addresses { addresses := addresses[x := addresses[x].(started := started)]; }
        case DeleteAddress(x) =>
          if x in addresses {
            DeleteAddress(x);
            assert Referred(old(View()), x) <==> Referred(View(), x);
          }
        case PolicyChanged(x, mentioned) =>
          if x in addresses {
            NotifyOne(x, mentioned);
            assert Referred(old(View()), x) <==> Referred(View(), x);
          }
      }
    }

    /**
     * Over any list of events: at every step a look-up finds exactly the stored groups that refer to an
     * address group, and each address group that becomes garbage was referred to by none at that step.
     */
    method Drive(es: seq<Event>) returns (trace: seq<Snapshot>)
      requires Sound(View())
      modifies this
      ensures |trace| == |es| + 1 && trace[0] == old(View()) && trace[|es|] == View()
      ensures forall s <- trace :: Sound(s)
      ensures forall i :: 0 <= i < |es| ==> Collects(trace[i], es[i], trace[i + 1])
    {
      trace := [View()];
      for i := 0 to |es|
        invariant |trace| == i + 1 && trace[0] == old(View()) && trace[i] == View()
        invariant forall s <- trace :: Sound(s)
        invariant forall k :: 0 <= k < i ==> Collects(trace[k], es[k], trace[k + 1])
      {
        Handle(es[i]);
        trace := trace + [View()];
      }
    }
  }
}
