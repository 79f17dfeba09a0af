/** Periodic synchronization of one applied-to group with what its cloud says the group contains. */
module CloudSync {
  import opened Wrappers
  import opened CloudRules
  import opened Reconcile

  /** What is counted of a rule. The texts of ports, addresses and groups are taken to be distinct. */
  datatype Item = PortItem(protocol: int, port: int) | AddressItem(cidr: string) | GroupItem(group: GroupId)

  function Hashes(content: seq<CloudRule>): set<Rule> {
    set c <- content :: c.rule
  }

  predicate NoDuplicates(content: seq<CloudRule>) {
    forall i, j :: 0 <= i < j < |content| ==> content[i].rule != content[j].rule
  }

  /** The index after a prefix of the content: known rules stay, once, and everything else is stored. */
  function Stored(index: Index, content: seq<CloudRule>): Index {
    if content == [] then index
    else
      var (init, last) := (content[..|content| - 1], content[|content| - 1]);
      if last.rule in index && last.rule !in Hashes(init) then Stored(index, init)
      else Stored(index, init)[last.rule := last.owner]
  }

  /** The indexed rules the content does not mention are dropped. */
  function Synced(index: Index, content: seq<CloudRule>): Index {
    Stored(index, content) - (index.Keys - Hashes(content))
  }

  lemma HashesSnoc(content: seq<CloudRule>, n: nat)
    requires n < |content|
    ensures Hashes(content[..n + 1]) == Hashes(content[..n]) + {content[n].rule}
    ensures content[..n + 1][..n] == content[..n] && content[..n + 1][n] == content[n]
  {
    assert content[..n + 1] == content[..n] + [content[n]];
    assert content[n] in content[..n + 1];
  }

  lemma DuplicatesSnoc(content: seq<CloudRule>, n: nat)
    requires n < |content|
    ensures NoDuplicates(content[..n + 1]) <==>
            NoDuplicates(content[..n]) && content[n].rule !in Hashes(content[..n])
  {
    var a, b := content[..n], content[..n + 1];
    assert b == a + [content[n]];
    if content[n].rule in Hashes(a) {
      var i :| 0 <= i < n && a[i].rule == content[n].rule;
      assert b[i].rule == b[n].rule;
    } else {
      forall i, j | 0 <= i < j < n + 1 ensures b[i].rule != b[j].rule || (j < n && a[i].rule == a[j].rule) {
        assert b[i] == a[i] && a[i] in a;
      }
    }
    if !NoDuplicates(a) {
      var i, j :| 0 <= i < j < n && a[i].rule == a[j].rule;
      assert b[i].rule == b[j].rule;
    }
  }

  lemma {:induction false} StoredKeys(index: Index, content: seq<CloudRule>)
    ensures Stored(index, content).Keys == index.Keys + Hashes(content)
  {
    if content != [] {
      var n := |content| - 1;
      assert content[..n + 1] == content;
      HashesSnoc(content, n);
      StoredKeys(index, content[..n]);
    }
  }

  /** Whatever was indexed before, synchronization leaves exactly the rules of the content. */
  lemma SyncRepairsIndex(index: Index, content: seq<CloudRule>)
    ensures Synced(index, content).Keys == Hashes(content)
  {
    StoredKeys(index, content);
  }

  lemma {:induction false} StoredUnchanged(index: Index, content: seq<CloudRule>)
    ensures NoDuplicates(content) && Hashes(content) <= index.Keys ==> Stored(index, content) == index
  {
    if content != [] {
      var n := |content| - 1;
      assert content[..n + 1] == content;
      HashesSnoc(content, n);
      DuplicatesSnoc(content, n);
      StoredUnchanged(index, content[..n]);
    }
  }

  lemma {:induction false} StoredOther(index: Index, content: seq<CloudRule>, r: Rule)
    requires r !in Hashes(content) && r in index
    ensures r in Stored(index, content) && Stored(index, content)[r] == index[r]
  {
    if content != [] {
      var n := |content| - 1;
      assert content[..n + 1] == content;
      HashesSnoc(content, n);
      StoredOther(index, content[..n], r);
    }
  }

  /** How often the content lists a rule. */
  function Times(content: seq<CloudRule>, r: Rule): nat {
    if content == [] then 0
    else Times(content[..|content| - 1], r) + if content[|content| - 1].rule == r then 1 else 0
  }

  /** The owner the cloud names for a rule: that of the last listing. */
  function LastOwner(content: seq<CloudRule>, r: Rule): Owner
    requires r in Hashes(content)
  {
    var n := |content| - 1;
    HashesSnoc(content, n);
    assert content[..n + 1] == content;
    if content[n].rule == r then content[n].owner else LastOwner(content[..n], r)
  }

  lemma {:induction false} TimesPositive(content: seq<CloudRule>, r: Rule)
    ensures Times(content, r) > 0 <==> r in Hashes(content)
  {
    if content != [] {
      var n := |content| - 1;
      assert content[..n + 1] == content;
      HashesSnoc(content, n);
      TimesPositive(content[..n], r);
    }
  }

  /** A rule known before and listed once keeps its recorded owner; any other gets the one the cloud names. */
  lemma {:induction false} StoredOwner(index: Index, content: seq<CloudRule>, r: Rule)
    requires r in Hashes(content)
    ensures r in Stored(index, content)
    ensures Stored(index, content)[r] ==
            if r in index && Times(content, r) == 1 then index[r] else LastOwner(content, r)
  {
    var n := |content| - 1;
    assert content[..n + 1] == content;
    StoredKeys(index, content);
    HashesSnoc(content, n);
    TimesPositive(content[..n], r);
    if r in Hashes(content[..n]) {
      StoredOwner(index, content[..n], r);
    } else if r in index {
      StoredOther(index, content[..n], r);
    }
  }

  /** The recorded owner after synchronization. */
  function OwnerAfter(index: Index, content: seq<CloudRule>, r: Rule): Owner
    requires r in Hashes(content)
  {
    SyncRepairsIndex(index, content);
    Synced(index, content)[r]
  }

  /**
   * After synchronization all owners are the cloud's exactly when they were already, for the rules that were
   * indexed and are listed once: an owner that changed in the cloud is not noticed.
   */
  lemma OwnersAreTheClouds(index: Index, content: seq<CloudRule>)
    ensures (forall r <- Hashes(content) :: OwnerAfter(index, content, r) == LastOwner(content, r)) <==>
            (forall r <- Hashes(content) :: r in index && Times(content, r) == 1 ==> index[r] == LastOwner(content, r))
  {
    forall r <- Hashes(content)
      ensures OwnerAfter(index, content, r) == if r in index && Times(content, r) == 1 then index[r] else LastOwner(content, r)
    {
      SyncRepairsIndex(index, content);
      StoredOwner(index, content, r);
    }
  }

  // ---------------------------------------------------------------------------------------------
  // Item counters
  // ---------------------------------------------------------------------------------------------

  function PortItems(r: Rule): seq<Item> {
    var proto, port := r.protocol.UnwrapOr(0), r.port.UnwrapOr(0);
    if proto > 0 || port > 0 then [PortItem(proto, port)] else []
  }

  function AddressItems(cidrs: seq<string>): seq<Item> {
    seq(|cidrs|, i requires 0 <= i < |cidrs| => AddressItem(cidrs[i]))
  }

  function GroupItems(groups: seq<GroupId>): seq<Item> {
    seq(|groups|, i requires 0 <= i < |groups| => GroupItem(groups[i]))
  }

  function ItemsOf(r: Rule): seq<Item> {
    PortItems(r) + AddressItems(r.cidrs) + GroupItems(r.groups)
  }

  function Items(rs: seq<Rule>): multiset<Item> {
    if rs == [] then multiset{} else Items(rs[..|rs| - 1]) + multiset(ItemsOf(rs[|rs| - 1]))
  }

  predicate ByPolicy(c: CloudRule) {
    c.owner != ""
  }

  function ItemsOfOwned(c: CloudRule): seq<Item> {
    if ByPolicy(c) then ItemsOf(c.rule) else []
  }

  /** The items of the content's rules that policies own. */
  function OwnedItems(content: seq<CloudRule>): multiset<Item> {
    if content == [] then multiset{}
    else OwnedItems(content[..|content| - 1]) + multiset(ItemsOfOwned(content[|content| - 1]))
  }

  /** How often a rule mentions an item; a rule without protocol and port mentions neither. */
  function Mentions(r: Rule, i: Item): nat {
    match i
    case PortItem(protocol, port) =>
      if r.protocol.UnwrapOr(0) == protocol && r.port.UnwrapOr(0) == port && (protocol > 0 || port > 0) then 1 else 0
    case AddressItem(cidr) => multiset(r.cidrs)[cidr]
    case GroupItem(group) => multiset(r.groups)[group]
  }

  function DesiredMentions(rs: seq<Rule>, i: Item): nat {
    if rs == [] then 0 else DesiredMentions(rs[..|rs| - 1], i) + Mentions(rs[|rs| - 1], i)
  }

  /** Only rules that a policy owns are looked at. */
  function OwnedMentions(content: seq<CloudRule>, i: Item): nat {
    if content == [] then 0
    else
      var last := content[|content| - 1];
      OwnedMentions(content[..|content| - 1], i) + if last.owner != "" then Mentions(last.rule, i) else 0
  }

  lemma {:induction false} AddressItemsCount(cidrs: seq<string>, i: Item)
    ensures multiset(AddressItems(cidrs))[i] == if i.AddressItem? then multiset(cidrs)[i.cidr] else 0
  {
    if cidrs != [] {
      var init, last := cidrs[..|cidrs| - 1], cidrs[|cidrs| - 1];
      AddressItemsCount(init, i);
      assert cidrs == init + [last] && AddressItems(cidrs) == AddressItems(init) + [AddressItem(last)];
    }
  }

  lemma {:induction false} GroupItemsCount(groups: seq<GroupId>, i: Item)
    ensures multiset(GroupItems(groups))[i] == if i.GroupItem? then multiset(groups)[i.group] else 0
  {
    if groups != [] {
      var init, last := groups[..|groups| - 1], groups[|groups| - 1];
      GroupItemsCount(init, i);
      assert groups == init + [last] && GroupItems(groups) == GroupItems(init) + [GroupItem(last)];
    }
  }

  lemma ItemsOfMentions(r: Rule, i: Item)
    ensures multiset(ItemsOf(r))[i] == Mentions(r, i)
  {
    AddressItemsCount(r.cidrs, i);
    GroupItemsCount(r.groups, i);
  }

  lemma {:induction false} ItemsCount(rs: seq<Rule>, i: Item)
    ensures Items(rs)[i] == DesiredMentions(rs, i)
  {
    if rs != [] {
      ItemsCount(rs[..|rs| - 1], i);
      ItemsOfMentions(rs[|rs| - 1], i);
    }
  }

  lemma {:induction false} OwnedItemsCount(content: seq<CloudRule>, i: Item)
    ensures OwnedItems(content)[i] == OwnedMentions(content, i)
  {
    if content != [] {
      OwnedItemsCount(content[..|content| - 1], i);
      ItemsOfMentions(content[|content| - 1].rule, i);
    }
  }

  /** The two sides differ exactly when some item is mentioned more often on one of them. */
  lemma {:induction false} MismatchMeans(desired: seq<Rule>, content: seq<CloudRule>)
    ensures Items(desired) != OwnedItems(content) <==>
            exists i: Item :: DesiredMentions(desired, i) != OwnedMentions(content, i)
  {
    if forall i: Item :: DesiredMentions(desired, i) == OwnedMentions(content, i) {
      forall i: Item ensures Items(desired)[i] == OwnedItems(content)[i] {
        ItemsCount(desired, i);
        OwnedItemsCount(content, i);
      }
    } else {
      var i: Item :| DesiredMentions(desired, i) != OwnedMentions(content, i);
      ItemsCount(desired, i);
      OwnedItemsCount(content, i);
    }
  }

  function CountOf(counts: map<Item, int>, i: Item): int {
    if i in counts then counts[i] else 0
  }

  ghost predicate Counts(counts: map<Item, int>, plus: multiset<Item>, minus: multiset<Item>) {
    forall i: Item :: CountOf(counts, i) == plus[i] as int - minus[i] as int
  }

  predicate AllZero(counts: map<Item, int>) {
    forall i <- counts :: counts[i] == 0
  }

  /** The counters cancel out exactly when the same items were added as were subtracted, each as often. */
  lemma CountersDecide(counts: map<Item, int>, plus: multiset<Item>, minus: multiset<Item>)
    requires Counts(counts, plus, minus)
    ensures AllZero(counts) <==> plus == minus
  {
    if AllZero(counts) {
      forall i: Item ensures plus[i] == minus[i] { assert CountOf(counts, i) == 0; }
    } else {
      var i :| i in counts && counts[i] != 0;
      assert CountOf(counts, i) == plus[i] as int - minus[i] as int;
    }
  }

  method CountItems(counts: map<Item, int>, items: seq<Item>, subtract: bool) returns (out: map<Item, int>)
    ensures forall i: Item ::
      CountOf(out, i) == CountOf(counts, i) + if subtract then -(multiset(items)[i] as int) else multiset(items)[i]
  {
    out := counts;
    for n := 0 to |items|
      invariant forall i: Item ::
        CountOf(out, i) == CountOf(counts, i) + if subtract then -(multiset(items[..n])[i] as int) else multiset(items[..n])[i]
    {
      assert items[..n + 1] == items[..n] + [items[n]];
      out := out[items[n] := CountOf(out, items[n]) + if subtract then -1 else 1];
    }
    assert items[..|items|] == items;
  }

  method CountDesired(desired: seq<Rule>) returns (counts: map<Item, int>)
    ensures Counts(counts, Items(desired), multiset{})
  {
    counts := map[];
    for n := 0 to |desired|
      invariant Counts(counts, Items(desired[..n]), multiset{})
    {
      assert desired[..n + 1][..n] == desired[..n];
      counts := CountItems(counts, ItemsOf(desired[n]), false);
    }
    assert desired[..|desired|] == desired;
  }

  // ---------------------------------------------------------------------------------------------
  // The synchronization
  // ---------------------------------------------------------------------------------------------

  datatype Outcome = Outcome(index: Index, changed: bool, mismatch: bool)

  lemma OwnedSnoc(content: seq<CloudRule>, n: nat)
    requires n < |content|
    ensures OwnedItems(content[..n + 1]) == OwnedItems(content[..n]) + multiset(ItemsOfOwned(content[n]))
  {
    assert content[..n + 1][..n] == content[..n];
  }

  /** A rule the map still holds is known and leaves the map; any other is stored. */
  method CheckAndUpdateIndexer(current: Index, leftover: set<Rule>, c: CloudRule)
    returns (next: Index, left: set<Rule>, updated: bool)
    ensures updated <==> c.rule !in leftover
    ensures next == if updated then current[c.rule := c.owner] else current
    ensures left == leftover - {c.rule}
  {
    next, left, updated := current, leftover, false;
    if c.rule !in leftover {
      updated := true;
      next := next[c.rule := c.owner];
    } else {
      left := left - {c.rule};
    }
  }

  /** Where the loop over the content stands after `n` rules. */
  predicate Progress(index: Index, content: seq<CloudRule>, n: nat, current: Index, leftover: set<Rule>, changed: bool)
    requires n <= |content|
  {
    && leftover == index.Keys - Hashes(content[..n])
    && current == Stored(index, content[..n])
    && (changed <==> !(NoDuplicates(content[..n]) && Hashes(content[..n]) <= index.Keys))
  }

  lemma ProgressNext(index: Index, content: seq<CloudRule>, n: nat, current: Index, leftover: set<Rule>, changed: bool)
    requires n < |content| && Progress(index, content, n, current, leftover, changed)
    ensures var (c, known) := (content[n], content[n].rule in leftover);
            Progress(index, content, n + 1, if known then current else current[c.rule := c.owner],
                     leftover - {c.rule}, changed || !known)
  {
    HashesSnoc(content, n);
    DuplicatesSnoc(content, n);
  }

  lemma ProgressStart(index: Index, content: seq<CloudRule>)
    ensures Progress(index, content, 0, index, index.Keys, false) && OwnedItems(content[..0]) == multiset{}
  {
    assert content[..0] == [];
  }

  lemma ProgressDone(index: Index, content: seq<CloudRule>, current: Index, leftover: set<Rule>, changed: bool)
    requires Progress(index, content, |content|, current, leftover, changed)
    ensures current - leftover == Synced(index, content)
    ensures changed || leftover != {} <==> index.Keys != Hashes(content) || !NoDuplicates(content)
  {
    assert content[..|content|] == content;
    if leftover == {} {
      forall r <- index.Keys ensures r in Hashes(content) { assert r !in leftover; }
    }
  }

  lemma CountsMinus(counts: map<Item, int>, out: map<Item, int>, plus: multiset<Item>, minus: multiset<Item>,
                    more: multiset<Item>)
    requires Counts(counts, plus, minus)
    requires forall i: Item :: CountOf(out, i) == CountOf(counts, i) - more[i] as int
    ensures Counts(out, plus, minus + more)
  {
  }

  /** The items of one rule of the content are taken off, if a policy owns the rule. */
  method CountContent(counts: map<Item, int>, ghost plus: multiset<Item>, content: seq<CloudRule>, n: nat)
    returns (out: map<Item, int>)
    requires n < |content| && Counts(counts, plus, OwnedItems(content[..n]))
    ensures Counts(out, plus, OwnedItems(content[..n + 1]))
  {
    OwnedSnoc(content, n);
    out := CountItems(counts, ItemsOfOwned(content[n]), true);
    CountsMinus(counts, out, plus, OwnedItems(content[..n]), multiset(ItemsOfOwned(content[n])));
  }

  /**
   * `changed` tells whether the index was touched: the rules differ, or the content lists one twice.
   * `mismatch` tells whether the items of the desired rules and of the policies' cloud rules differ.
   */
  method Sync(index: Index, desired: seq<Rule>, content: seq<CloudRule>) returns (o: Outcome)
    ensures o.index == Synced(index, content) && o.index.Keys == Hashes(content)
    ensures o.changed <==> index.Keys != Hashes(content) || !NoDuplicates(content)
    ensures o.mismatch <==> Items(desired) != OwnedItems(content)
    ensures o.mismatch <==> exists i: Item :: DesiredMentions(desired, i) != OwnedMentions(content, i)
  {
    MismatchMeans(desired, content);
    var counts := CountDesired(desired);
    ProgressStart(index, content);
    var leftover, changed, current := index.Keys, false, index;
    for n := 0 to |content|
      invariant Progress(index, content, n, current, leftover, changed)
      invariant Counts(counts, Items(desired), OwnedItems(content[..n]))
    {
      counts := CountContent(counts, Items(desired), content, n);
      current, leftover, changed := Advance(index, content, n, current, leftover, changed);
    }
    o := Conclude(index, content, current, leftover, changed, counts);
    assert content[..|content|] == content;
    CountersDecide(counts, Items(desired), OwnedItems(content));
  }

  method Advance(ghost index: Index, content: seq<CloudRule>, n: nat, current: Index, leftover: set<Rule>, changed: bool)
    returns (next: Index, left: set<Rule>, flag: bool)
    requires n < |content| && Progress(index, content, n, current, leftover, changed)
    ensures Progress(index, content, n + 1, next, left, flag)
  {
    ProgressNext(index, content, n, current, leftover, changed);
    var updated;
    next, left, updated := CheckAndUpdateIndexer(current, leftover, content[n]);
    flag := changed || updated;
  }

  /** Rules that no longer exist in the cloud leave the index. */
  method Conclude(ghost index: Index, ghost content: seq<CloudRule>, current: Index, leftover: set<Rule>, changed: bool,
                  counts: map<Item, int>) returns (o: Outcome)
    requires Progress(index, content, |content|, current, leftover, changed)
    ensures o.index == Synced(index, content) && o.index.Keys == Hashes(content)
    ensures o.changed <==> index.Keys != Hashes(content) || !NoDuplicates(content)
    ensures o.mismatch <==> !AllZero(counts)
  {
    ProgressDone(index, content, current, leftover, changed);
    SyncRepairsIndex(index, content);
    o := Outcome(current - leftover, changed || leftover != {}, !AllZero(counts));
  }
}
