/**
 * The rules of an Azure network security group: which of the current rules stay when one applied-to
 * group changes its rules, where the new rules go among them, and which priorities all of them get.
 */
module AzureMerge {
  import opened Wrappers
  import opened Matching
  import opened CloudRules
  import opened Descriptions
  import AzureConverters

  type NsgRule = AzureConverters.NsgRule

  /** The controller's rules are numbered from here; user rules below are left alone. */
  const START_PRIORITY := 2000

  /** The rule between virtual networks that is never touched. */
  const DENY_PRIORITY := 4096

  /** The priority of a rule that was not given one yet. */
  const UNSET := 0

  /**
   * A security rule in the list of its security group: the description as parsed (`None` for a user's rule),
   * the controller's applied-to groups it is attached to, and the rule as it is written.
   */
  datatype AzureRule = AzureRule(
    direction: Direction, priority: int, desc: Option<Description>, appliedTo: set<string>, body: NsgRule)

  // ---------------------------------------------------------------------------------------------
  // Placing new rules among existing ones
  // ---------------------------------------------------------------------------------------------

  predicate Ranked(r: AzureRule) {
    r.desc.Some? && r.desc.value.priority.Some?
  }

  function Rank(r: AzureRule): real
    requires Ranked(r)
  {
    r.desc.value.priority.value
  }

  /** A new rule goes before an existing one of the same or a larger rank. */
  predicate GoesBefore(n: AzureRule, e: AzureRule) {
    Ranked(n) && Ranked(e) && Rank(n) <= Rank(e)
  }

  function Numbered(r: AzureRule, p: int): AzureRule {
    r.(priority := p)
  }

  /** `existing` and `added` merged; every rule but the user's gets the next priority. */
  function Merge(existing: seq<AzureRule>, added: seq<AzureRule>, p: int): seq<AzureRule>
    decreases |existing| + |added|
  {
    if existing == [] then
      if added == [] then [] else [Numbered(added[0], p)] + Merge([], added[1..], p + 1)
    else if existing[0].desc.None? then [existing[0]] + Merge(existing[1..], added, p)
    else if added != [] && GoesBefore(added[0], existing[0]) then
      [Numbered(added[0], p)] + Merge(existing, added[1..], p + 1)
    else [Numbered(existing[0], p)] + Merge(existing[1..], added, p + 1)
  }

  /** The rules that are not the user's. */
  function Managed(rs: seq<AzureRule>): seq<AzureRule> {
    if rs == [] then [] else (if rs[0].desc.Some? then [rs[0]] else []) + Managed(rs[1..])
  }

  function Users(rs: seq<AzureRule>): seq<AzureRule> {
    if rs == [] then [] else (if rs[0].desc.None? then [rs[0]] else []) + Users(rs[1..])
  }

  function Key(r: AzureRule): AzureRule {
    Numbered(r, UNSET)
  }

  /** How many rules of a list are `k`, priorities aside. */
  function Count(rs: seq<AzureRule>, k: AzureRule): nat {
    if rs == [] then 0 else (if Key(rs[0]) == k then 1 else 0) + Count(rs[1..], k)
  }

  predicate AllManaged(rs: seq<AzureRule>) {
    forall r <- rs :: r.desc.Some?
  }

  /** Priorities count up from `p`. */
  predicate Consecutive(rs: seq<AzureRule>, p: int) {
    rs == [] || (rs[0].priority == p && Consecutive(rs[1..], p + 1))
  }

  lemma ConsecutiveCons(r: AzureRule, rs: seq<AzureRule>, p: int)
    requires r.priority == p && Consecutive(rs, p + 1)
    ensures Consecutive([r] + rs, p)
  {
    assert ([r] + rs)[1..] == rs;
  }

  lemma {:induction false} ConsecutiveAt(rs: seq<AzureRule>, p: int, i: nat)
    requires Consecutive(rs, p) && i < |rs|
    ensures rs[i].priority == p + i
  {
    if i > 0 { ConsecutiveAt(rs[1..], p + 1, i - 1); }
  }

  /** The merge numbers the controller's rules consecutively, however many there are. */
  lemma {:induction false} MergeNumbers(existing: seq<AzureRule>, added: seq<AzureRule>, p: int)
    requires AllManaged(added)
    ensures Consecutive(Managed(Merge(existing, added, p)), p)
    ensures |Managed(Merge(existing, added, p))| == |Managed(existing)| + |added|
    decreases |existing| + |added|
  {
    if existing == [] {
      if added != [] {
        MergeNumbers([], added[1..], p + 1);
        var rest := Merge([], added[1..], p + 1);
        ManagedCons(Numbered(added[0], p), rest);
        ConsecutiveCons(Numbered(added[0], p), Managed(rest), p);
      }
    } else if existing[0].desc.None? {
      MergeNumbers(existing[1..], added, p);
      ManagedCons(existing[0], Merge(existing[1..], added, p));
    } else if added != [] && GoesBefore(added[0], existing[0]) {
      MergeNumbers(existing, added[1..], p + 1);
      var rest := Merge(existing, added[1..], p + 1);
      ManagedCons(Numbered(added[0], p), rest);
      ConsecutiveCons(Numbered(added[0], p), Managed(rest), p);
    } else {
      MergeNumbers(existing[1..], added, p + 1);
      var rest := Merge(existing[1..], added, p + 1);
      ManagedCons(Numbered(existing[0], p), rest);
      ConsecutiveCons(Numbered(existing[0], p), Managed(rest), p);
    }
  }

  lemma ManagedCons(r: AzureRule, rs: seq<AzureRule>)
    ensures Managed([r] + rs) == if r.desc.Some? then [r] + Managed(rs) else Managed(rs)
    ensures Users([r] + rs) == if r.desc.None? then [r] + Users(rs) else Users(rs)
  {
    assert ([r] + rs)[1..] == rs;
  }

  lemma CountCons(r: AzureRule, rs: seq<AzureRule>, k: AzureRule)
    ensures Count([r] + rs, k) == (if Key(r) == k then 1 else 0) + Count(rs, k)
  {
    assert ([r] + rs)[1..] == rs;
  }

  /** Nothing is lost, added or altered but priorities: every rule is there as often as before. */
  lemma {:induction false} MergeKeepsContents(existing: seq<AzureRule>, added: seq<AzureRule>, p: int, k: AzureRule)
    ensures Count(Merge(existing, added, p), k) == Count(existing, k) + Count(added, k)
    decreases |existing| + |added|
  {
    if existing == [] {
      if added != [] {
        MergeKeepsContents([], added[1..], p + 1, k);
        CountCons(Numbered(added[0], p), Merge([], added[1..], p + 1), k);
      }
    } else if existing[0].desc.None? {
      MergeKeepsContents(existing[1..], added, p, k);
      CountCons(existing[0], Merge(existing[1..], added, p), k);
    } else if added != [] && GoesBefore(added[0], existing[0]) {
      MergeKeepsContents(existing, added[1..], p + 1, k);
      CountCons(Numbered(added[0], p), Merge(existing, added[1..], p + 1), k);
    } else {
      MergeKeepsContents(existing[1..], added, p + 1, k);
      CountCons(Numbered(existing[0], p), Merge(existing[1..], added, p + 1), k);
    }
  }

  /** The user's rules stay as they are, priorities and order included. */
  lemma {:induction false} MergeSparesUsers(existing: seq<AzureRule>, added: seq<AzureRule>, p: int)
    requires AllManaged(added)
    ensures Users(Merge(existing, added, p)) == Users(existing)
    decreases |existing| + |added|
  {
    if existing == [] {
      if added != [] {
        MergeSparesUsers([], added[1..], p + 1);
        ManagedCons(Numbered(added[0], p), Merge([], added[1..], p + 1));
      }
    } else if existing[0].desc.None? {
      MergeSparesUsers(existing[1..], added, p);
      ManagedCons(existing[0], Merge(existing[1..], added, p));
    } else if added != [] && GoesBefore(added[0], existing[0]) {
      MergeSparesUsers(existing, added[1..], p + 1);
      ManagedCons(Numbered(added[0], p), Merge(existing, added[1..], p + 1));
    } else {
      MergeSparesUsers(existing[1..], added, p + 1);
      ManagedCons(Numbered(existing[0], p), Merge(existing[1..], added, p + 1));
    }
  }

  /** Ranks do not decrease along the list, and none is smaller than `low`. */
  predicate Sorted(rs: seq<AzureRule>, low: real) {
    rs == [] || (Ranked(rs[0]) && low <= Rank(rs[0]) && Sorted(rs[1..], Rank(rs[0])))
  }

  lemma SortedCons(r: AzureRule, rs: seq<AzureRule>, low: real)
    requires Ranked(r) && low <= Rank(r) && Sorted(rs, Rank(r))
    ensures Sorted([r] + rs, low)
  {
    assert ([r] + rs)[1..] == rs;
  }

  /** Sorted lists merge into a sorted list. */
  lemma {:induction false} MergeSorts(existing: seq<AzureRule>, added: seq<AzureRule>, p: int, low: real)
    requires Sorted(Managed(existing), low) && Sorted(added, low)
    ensures Sorted(Managed(Merge(existing, added, p)), low)
    decreases |existing| + |added|
  {
    if existing == [] {
      if added != [] {
        MergeSorts([], added[1..], p + 1, Rank(added[0]));
        var rest := Merge([], added[1..], p + 1);
        ManagedCons(Numbered(added[0], p), rest);
        SortedCons(Numbered(added[0], p), Managed(rest), low);
      }
    } else if existing[0].desc.None? {
      assert Managed(existing) == Managed(existing[1..]);
      MergeSorts(existing[1..], added, p, low);
      ManagedCons(existing[0], Merge(existing[1..], added, p));
    } else {
      assert Managed(existing)[0] == existing[0] && Managed(existing)[1..] == Managed(existing[1..]);
      if added != [] && GoesBefore(added[0], existing[0]) {
        MergeNewFirst(existing, added, low);
        MergeSorts(existing, added[1..], p + 1, Rank(added[0]));
        var rest := Merge(existing, added[1..], p + 1);
        ManagedCons(Numbered(added[0], p), rest);
        SortedCons(Numbered(added[0], p), Managed(rest), low);
      } else {
        assert added != [] ==> Rank(existing[0]) <= Rank(added[0]);
        MergeSorts(existing[1..], added, p + 1, Rank(existing[0]));
        var rest := Merge(existing[1..], added, p + 1);
        ManagedCons(Numbered(existing[0], p), rest);
        SortedCons(Numbered(existing[0], p), Managed(rest), low);
      }
    }
  }

  lemma MergeNewFirst(existing: seq<AzureRule>, added: seq<AzureRule>, low: real)
    requires existing != [] && existing[0].desc.Some? && Sorted(Managed(existing), low)
    requires added != [] && GoesBefore(added[0], existing[0])
    ensures Sorted(Managed(existing), Rank(added[0]))
  {
    assert Managed(existing)[0] == existing[0];
  }

  /** The rules of one rank, priorities aside, in order. */
  function AtRank(rs: seq<AzureRule>, x: real): seq<AzureRule> {
    if rs == [] then [] else (if Ranked(rs[0]) && Rank(rs[0]) == x then [Key(rs[0])] else []) + AtRank(rs[1..], x)
  }

  lemma AtRankCons(r: AzureRule, rs: seq<AzureRule>, x: real)
    ensures AtRank([r] + rs, x) == (if Ranked(r) && Rank(r) == x then [Key(r)] else []) + AtRank(rs, x)
  {
    assert ([r] + rs)[1..] == rs;
  }

  lemma {:induction false} NoneBelow(rs: seq<AzureRule>, low: real, x: real)
    requires Sorted(rs, low) && x < low
    ensures AtRank(rs, x) == []
  {
    if rs != [] { NoneBelow(rs[1..], Rank(rs[0]), x); }
  }

  /** One more new rule in front, on both sides of the equation. */
  lemma {:induction false} TiesAdded(r: AzureRule, p: int, rest: seq<AzureRule>, added: seq<AzureRule>,
                                     kept: seq<AzureRule>, x: real)
    requires AtRank(rest, x) == added + kept
    ensures AtRank([Numbered(r, p)] + rest, x) == AtRank([r], x) + added + kept
  {
    AtRankCons(Numbered(r, p), rest, x);
    AtRankOne(r, x);
  }

  lemma AtRankOne(r: AzureRule, x: real)
    ensures AtRank([r], x) == if Ranked(r) && Rank(r) == x then [Key(r)] else []
  {
    assert [r][1..] == [];
  }

  lemma AtRankFirst(rs: seq<AzureRule>, x: real)
    requires rs != []
    ensures AtRank(rs, x) == AtRank([rs[0]], x) + AtRank(rs[1..], x)
  {
    AtRankOne(rs[0], x);
  }

  /** Of equal rank, the new rules come first, and both the new and the existing ones keep their order. */
  lemma {:induction false} TiesPutNewFirst(existing: seq<AzureRule>, added: seq<AzureRule>, p: int, low: real, x: real)
    requires Sorted(Managed(existing), low) && Sorted(added, low)
    ensures AtRank(Merge(existing, added, p), x) == AtRank(added, x) + AtRank(Managed(existing), x)
    decreases |existing| + |added|, 1
  {
    if existing == [] {
      if added != [] {
        TiesPutNewFirst([], added[1..], p + 1, Rank(added[0]), x);
        TiesAdded(added[0], p, Merge([], added[1..], p + 1), AtRank(added[1..], x), [], x);
        AtRankFirst(added, x);
      }
    } else if existing[0].desc.None? {
      ManagedCons(existing[0], existing[1..]);
      assert [existing[0]] + existing[1..] == existing;
      TiesPutNewFirst(existing[1..], added, p, low, x);
      AtRankCons(existing[0], Merge(existing[1..], added, p), x);
    } else {
      ManagedCons(existing[0], existing[1..]);
      assert [existing[0]] + existing[1..] == existing;
      if added != [] && GoesBefore(added[0], existing[0]) {
        MergeNewFirst(existing, added, low);
        TiesPutNewFirst(existing, added[1..], p + 1, Rank(added[0]), x);
        TiesAdded(added[0], p, Merge(existing, added[1..], p + 1), AtRank(added[1..], x), AtRank(Managed(existing), x), x);
        AtRankFirst(added, x);
      } else {
        TiesOldNext(existing, added, p, low, x);
      }
    }
  }

  lemma {:induction false} TiesOldNext(existing: seq<AzureRule>, added: seq<AzureRule>, p: int, low: real, x: real)
    requires existing != [] && existing[0].desc.Some? && Sorted(Managed(existing), low) && Sorted(added, low)
    requires added != [] ==> !GoesBefore(added[0], existing[0])
    ensures AtRank(Merge(existing, added, p), x) == AtRank(added, x) + AtRank(Managed(existing), x)
    decreases |existing| + |added|, 0
  {
    var kept := Managed(existing[1..]);
    assert Managed(existing)[0] == existing[0] && Managed(existing)[1..] == kept;
    AtRankFirst(Managed(existing), x);
    AtRankOne(existing[0], x);
    TiesPutNewFirst(existing[1..], added, p + 1, Rank(existing[0]), x);
    if added != [] && Rank(existing[0]) == x { NoneBelow(added, Rank(added[0]), x); }
    TiesAdded(existing[0], p, Merge(existing[1..], added, p + 1), AtRank(added, x), AtRank(kept, x), x);
  }

  lemma {:induction false} SortedAt(rs: seq<AzureRule>, low: real, i: nat, j: nat)
    requires Sorted(rs, low) && i < j < |rs|
    ensures Ranked(rs[i]) && Ranked(rs[j]) && low <= Rank(rs[i]) <= Rank(rs[j])
  {
    if i > 0 {
      SortedAt(rs[1..], Rank(rs[0]), i - 1, j - 1);
    } else if j > 1 {
      SortedAt(rs[1..], Rank(rs[0]), 0, j - 1);
    }
  }

  lemma SortedRanked(rs: seq<AzureRule>, low: real, i: nat)
    requires Sorted(rs, low) && i < |rs|
    ensures Ranked(rs[i])
  {
    if i == 0 { return; }
    SortedAt(rs, low, 0, i);
  }

  /** In a sorted and consecutively numbered list a smaller rank means a smaller priority. */
  lemma SmallerRankSmallerPriority(rs: seq<AzureRule>, p: int, low: real, i: nat, j: nat)
    requires Sorted(rs, low) && Consecutive(rs, p) && i < |rs| && j < |rs|
    requires Ranked(rs[i]) && Ranked(rs[j]) && Rank(rs[i]) < Rank(rs[j])
    ensures rs[i].priority < rs[j].priority
  {
    ConsecutiveAt(rs, p, i);
    ConsecutiveAt(rs, p, j);
    if j < i { SortedAt(rs, low, j, i); }
  }

  /** What remains to be merged when the cursors stand at `j` and `i`. */
  function Remaining(existing: seq<AzureRule>, j: nat, added: seq<Option<AzureRule>>, i: nat, p: int): seq<AzureRule>
    requires j <= |existing| && i <= |added|
  {
    Merge(existing[j..], Compact(added[i..]), p)
  }

  lemma RemainingUser(existing: seq<AzureRule>, j: nat, added: seq<Option<AzureRule>>, i: nat, p: int)
    requires j < |existing| && i <= |added| && existing[j].desc.None?
    ensures Remaining(existing, j, added, i, p) == [existing[j]] + Remaining(existing, j + 1, added, i, p)
  {
    assert existing[j..][1..] == existing[j + 1..];
  }

  lemma RemainingCleared(existing: seq<AzureRule>, j: nat, added: seq<Option<AzureRule>>, i: nat, p: int)
    requires j <= |existing| && i < |added| && added[i].None?
    ensures Remaining(existing, j, added, i, p) == Remaining(existing, j, added, i + 1, p)
  {
    CompactDrop(added, i);
    assert Compact(added[i..]) == Compact(added[i + 1..]);
  }

  lemma RemainingAdded(existing: seq<AzureRule>, j: nat, added: seq<Option<AzureRule>>, i: nat, p: int)
    requires j <= |existing| && i < |added| && added[i].Some?
    requires j == |existing| || GoesBefore(added[i].value, existing[j])
    ensures Remaining(existing, j, added, i, p) ==
            [Numbered(added[i].value, p)] + Remaining(existing, j, added, i + 1, p + 1)
  {
    CompactDrop(added, i);
    assert Compact(added[i..])[1..] == Compact(added[i + 1..]);
    if j == |existing| { assert existing[j..] == []; }
  }

  lemma RemainingExisting(existing: seq<AzureRule>, j: nat, added: seq<Option<AzureRule>>, i: nat, p: int)
    requires j < |existing| && i <= |added| && existing[j].desc.Some?
    requires i == |added| || (added[i].Some? && !GoesBefore(added[i].value, existing[j]))
    ensures Remaining(existing, j, added, i, p) ==
            [Numbered(existing[j], p)] + Remaining(existing, j + 1, added, i, p + 1)
  {
    assert existing[j..][1..] == existing[j + 1..];
    if i < |added| { CompactDrop(added, i); } else { assert added[i..] == []; }
  }

  lemma Regroup(a: seq<AzureRule>, b: seq<AzureRule>, c: seq<AzureRule>, d: seq<AzureRule>)
    ensures a + (b + (c + d)) == (a + b + c) + d
  {
  }

  /** The new rules that go before an existing one, or all that are left once no existing one is. */
  method PlaceAdded(existing: seq<AzureRule>, j: nat, added: seq<Option<AzureRule>>, start: nat, p0: int)
    returns (placed: seq<AzureRule>, i: nat, p: int)
    requires j <= |existing| && start <= |added|
    ensures i <= |added| && Remaining(existing, j, added, start, p0) == placed + Remaining(existing, j, added, i, p)
    ensures i == |added| || (j < |existing| && added[i].Some? && !GoesBefore(added[i].value, existing[j]))
  {
    placed, i, p := [], start, p0;
    ghost var goal := Remaining(existing, j, added, start, p0);
    while i < |added|
      invariant i <= |added| && goal == placed + Remaining(existing, j, added, i, p)
    {
      if added[i].None? {
        RemainingCleared(existing, j, added, i, p);
        i := i + 1;
        continue;
      }
      if j < |existing| && !GoesBefore(added[i].value, existing[j]) { break; }
      RemainingAdded(existing, j, added, i, p);
      Regroup(placed, [], [Numbered(added[i].value, p)], Remaining(existing, j, added, i + 1, p + 1));
      placed := placed + [Numbered(added[i].value, p)];
      i, p := i + 1, p + 1;
    }
  }

  /** The merge as two cursors over the lists; cleared entries of `added` are passed over. */
  method UpdateNameAndPriority(existing: seq<AzureRule>, added: seq<Option<AzureRule>>) returns (rules: seq<AzureRule>)
    requires AllManaged(Compact(added))
    ensures rules == Merge(existing, Compact(added), START_PRIORITY)
  {
    rules := [];
    var p, i, placed := START_PRIORITY, 0, [];
    ghost var goal := Merge(existing, Compact(added), START_PRIORITY);
    assert added[0..] == added && existing[0..] == existing;
    for j := 0 to |existing|
      invariant 0 <= i <= |added| && goal == rules + Remaining(existing, j, added, i, p)
    {
      if existing[j].desc.None? {
        RemainingUser(existing, j, added, i, p);
        rules := rules + [existing[j]];
        continue;
      }
      placed, i, p := PlaceAdded(existing, j, added, i, p);
      RemainingExisting(existing, j, added, i, p);
      Regroup(rules, placed, [Numbered(existing[j], p)], Remaining(existing, j + 1, added, i, p + 1));
      rules := rules + placed + [Numbered(existing[j], p)];
      p := p + 1;
    }
    placed, i, p := PlaceAdded(existing, |existing|, added, i, p);
    rules := rules + placed;
    assert added[i..] == [] && existing[|existing|..] == [];
  }
}
