/** What every run of rule updates keeps in an Azure network security group. */
module AzureRuns {
  import opened Wrappers
  import opened Matching
  import opened CloudRules
  import opened AzureMerge
  import opened AzureEffective

  /** One rule update of one applied-to group. */
  datatype Change = Change(
    group: string, addIn: seq<AzureRule>, addOut: seq<AzureRule>, rmIn: seq<AzureRule>, rmOut: seq<AzureRule>)

  function Updated(rs: seq<AzureRule>, c: Change): seq<AzureRule> {
    Effective(rs, Ingress, c.group, c.addIn, c.rmIn) + Effective(rs, Egress, c.group, c.addOut, c.rmOut)
  }

  function Run(rs: seq<AzureRule>, cs: seq<Change>): seq<AzureRule>
    decreases cs
  {
    if cs == [] then rs else Run(Updated(rs, cs[0]), cs[1..])
  }

  /** The rules of one direction. */
  function Side(rs: seq<AzureRule>, d: Direction): seq<AzureRule> {
    if rs == [] then [] else (if rs[0].direction == d then [rs[0]] else []) + Side(rs[1..], d)
  }

  predicate OneWay(rs: seq<AzureRule>, d: Direction) {
    forall r <- rs :: r.direction == d
  }

  /** The controller's rules of each direction are ranked in order. */
  predicate Ordered(rs: seq<AzureRule>, low: real) {
    Sorted(Managed(Side(rs, Ingress)), low) && Sorted(Managed(Side(rs, Egress)), low)
  }

  /** The rules to add are ranked in order, each in its direction. */
  predicate Proper(c: Change, low: real) {
    Sorted(c.addIn, low) && Sorted(c.addOut, low) && OneWay(c.addIn, Ingress) && OneWay(c.addOut, Egress)
  }

  // ---------------------------------------------------------------------------------------------
  // Sorted lists and their sublists
  // ---------------------------------------------------------------------------------------------

  lemma {:induction false} SideAppend(a: seq<AzureRule>, b: seq<AzureRule>, d: Direction)
    ensures Side(a + b, d) == Side(a, d) + Side(b, d)
  {
    if a == [] {
      assert a + b == b;
    } else {
      assert (a + b)[1..] == a[1..] + b;
      SideAppend(a[1..], b, d);
      var first := if a[0].direction == d then [a[0]] else [];
      assert first + (Side(a[1..], d) + Side(b, d)) == (first + Side(a[1..], d)) + Side(b, d);
    }
  }

  lemma {:induction false} ManagedAppend(a: seq<AzureRule>, b: seq<AzureRule>)
    ensures Managed(a + b) == Managed(a) + Managed(b)
  {
    if a == [] {
      assert a + b == b;
    } else {
      assert (a + b)[1..] == a[1..] + b;
      ManagedAppend(a[1..], b);
      var first := if a[0].desc.Some? then [a[0]] else [];
      assert first + (Managed(a[1..]) + Managed(b)) == (first + Managed(a[1..])) + Managed(b);
    }
  }

  lemma {:induction false} SideOneWay(rs: seq<AzureRule>, d: Direction, e: Direction)
    requires OneWay(rs, d)
    ensures Side(rs, e) == if d == e then rs else []
  {
    if rs != [] {
      assert rs[0].direction == d;
      SideOneWay(rs[1..], d, e);
    }
  }

  /** A rule can follow a sorted list when none of the list ranks above it. */
  lemma {:induction false} SortedSnoc(rs: seq<AzureRule>, r: AzureRule, low: real)
    ensures Sorted(rs + [r], low) <==>
            Sorted(rs, low) && Ranked(r) && low <= Rank(r) && forall q <- rs :: Ranked(q) && Rank(q) <= Rank(r)
  {
    if rs == [] {
      assert (rs + [r])[1..] == [];
    } else {
      assert (rs + [r])[1..] == rs[1..] + [r];
      assert (rs + [r])[0] == rs[0] && rs == [rs[0]] + rs[1..];
      if Ranked(rs[0]) { SortedSnoc(rs[1..], r, Rank(rs[0])); }
    }
  }

  /** Leaving rules out of a sorted list leaves it sorted. */
  lemma {:induction false} SublistSorted(sub: seq<AzureRule>, rs: seq<AzureRule>, low: real)
    requires Subsequence(sub, rs) && Sorted(rs, low)
    ensures Sorted(sub, low)
    decreases |rs|
  {
    if sub != [] {
      var init, last := rs[..|rs| - 1], rs[|rs| - 1];
      assert rs == init + [last];
      SortedSnoc(init, last, low);
      var subInit, subLast := sub[..|sub| - 1], sub[|sub| - 1];
      if subLast == last && Subsequence(subInit, init) {
        SublistSorted(subInit, init, low);
        SublistMembers(subInit, init);
        assert sub == subInit + [subLast];
        SortedSnoc(subInit, subLast, low);
      } else {
        SublistSorted(sub, init, low);
      }
    }
  }

  lemma {:induction false} SublistMembers(sub: seq<AzureRule>, rs: seq<AzureRule>)
    requires Subsequence(sub, rs)
    ensures forall r <- sub :: r in rs
    decreases |rs|
  {
    if sub != [] {
      var init, last := rs[..|rs| - 1], rs[|rs| - 1];
      assert rs == init + [last] && sub == sub[..|sub| - 1] + [sub[|sub| - 1]];
      if sub[|sub| - 1] == last && Subsequence(sub[..|sub| - 1], init) {
        SublistMembers(sub[..|sub| - 1], init);
      } else {
        SublistMembers(sub, init);
      }
    }
  }

  lemma SublistSnoc(sub: seq<AzureRule>, rs: seq<AzureRule>, r: AzureRule)
    requires Subsequence(sub, rs)
    ensures Subsequence(sub, rs + [r]) && Subsequence(sub + [r], rs + [r])
  {
    assert (rs + [r])[..|rs|] == rs && (sub + [r])[..|sub|] == sub;
  }

  lemma ManagedSnoc(rs: seq<AzureRule>, r: AzureRule)
    ensures Managed(rs + [r]) == if r.desc.Some? then Managed(rs) + [r] else Managed(rs)
  {
    ManagedAppend(rs, [r]);
    ManagedCons(r, []);
    assert [r] + [] == [r] && [r] + Managed([]) == [r] && Managed(rs) + [] == Managed(rs);
  }

  lemma SideSnoc(init: seq<AzureRule>, last: AzureRule, d: Direction)
    ensures Side(init + [last], d) == if last.direction == d then Side(init, d) + [last] else Side(init, d)
  {
    SideAppend(init, [last], d);
    assert [last][1..] == [];
    assert Side(init, d) + [] == Side(init, d);
  }

  lemma KeptSnoc(init: seq<AzureRule>, last: AzureRule, d: Direction, group: string, rm: multiset<AzureRule>)
    ensures var (before, after) := (Kept(init, d, group, rm), Kept(init + [last], d, group, rm));
            after == before || (last.direction == d && after == before + [last])
  {
    assert (init + [last])[..|init|] == init;
  }

  lemma {:induction false} KeptIsSublist(rs: seq<AzureRule>, d: Direction, group: string, rm: multiset<AzureRule>)
    ensures Subsequence(Managed(Kept(rs, d, group, rm)), Managed(Side(rs, d)))
  {
    if rs != [] {
      var init, last := rs[..|rs| - 1], rs[|rs| - 1];
      assert rs == init + [last];
      KeptIsSublist(init, d, group, rm);
      SideSnoc(init, last, d);
      KeptSnoc(init, last, d, group, rm);
      ManagedSnoc(Side(init, d), last);
      ManagedSnoc(Kept(init, d, group, rm), last);
      SublistSnoc(Managed(Kept(init, d, group, rm)), Managed(Side(init, d)), last);
    }
  }

  // ---------------------------------------------------------------------------------------------
  // One update
  // ---------------------------------------------------------------------------------------------

  lemma {:induction false} MergeOneWay(existing: seq<AzureRule>, added: seq<AzureRule>, p: int, d: Direction)
    requires OneWay(existing, d) && OneWay(added, d)
    ensures OneWay(Merge(existing, added, p), d)
    decreases |existing| + |added|
  {
    if existing == [] {
      if added != [] { MergeOneWay([], added[1..], p + 1, d); }
    } else if existing[0].desc.None? {
      MergeOneWay(existing[1..], added, p, d);
    } else if added != [] && GoesBefore(added[0], existing[0]) {
      MergeOneWay(existing, added[1..], p + 1, d);
    } else {
      MergeOneWay(existing[1..], added, p + 1, d);
    }
  }

  lemma {:induction false} SortedManaged(rs: seq<AzureRule>, low: real)
    requires Sorted(rs, low)
    ensures AllManaged(rs)
  {
    if rs != [] { SortedManaged(rs[1..], Rank(rs[0])); }
  }

  /** One direction after an update: in order, numbered from the start, and nothing else. */
  lemma EffectiveInOrder(rs: seq<AzureRule>, d: Direction, group: string, add: seq<AzureRule>, rm: seq<AzureRule>, low: real)
    requires Sorted(Managed(Side(rs, d)), low) && Sorted(add, low) && OneWay(add, d)
    ensures var out := Effective(rs, d, group, add, rm);
            Sorted(Managed(out), low) && Consecutive(Managed(out), START_PRIORITY) && OneWay(out, d)
  {
    var kept := Kept(rs, d, group, multiset(rm));
    var missing := Missing(kept, d, group, add);
    KeptIsSublist(rs, d, group, multiset(rm));
    SublistSorted(Managed(kept), Managed(Side(rs, d)), low);
    UnmatchedInOrder(add, multiset(OwnKeys(kept, d, group)));
    SublistSorted(missing, add, low);
    SublistMembers(missing, add);
    KeptRelevant(rs, d, group, multiset(rm));
    SortedManaged(missing, low);
    MergeSorts(kept, missing, START_PRIORITY, low);
    MergeNumbers(kept, missing, START_PRIORITY);
    MergeOneWay(kept, missing, START_PRIORITY, d);
  }

  /** The controller's rules of both directions are in order and numbered from the start of the range. */
  predicate Numbered(rs: seq<AzureRule>) {
    Consecutive(Managed(Side(rs, Ingress)), START_PRIORITY) && Consecutive(Managed(Side(rs, Egress)), START_PRIORITY)
  }

  lemma UpdateInOrder(rs: seq<AzureRule>, c: Change, low: real)
    requires Ordered(rs, low) && Proper(c, low)
    ensures Ordered(Updated(rs, c), low) && Numbered(Updated(rs, c))
  {
    EffectiveInOrder(rs, Ingress, c.group, c.addIn, c.rmIn, low);
    EffectiveInOrder(rs, Egress, c.group, c.addOut, c.rmOut, low);
    SidesOf(Effective(rs, Ingress, c.group, c.addIn, c.rmIn), Effective(rs, Egress, c.group, c.addOut, c.rmOut));
  }

  lemma SidesOf(a: seq<AzureRule>, b: seq<AzureRule>)
    requires OneWay(a, Ingress) && OneWay(b, Egress)
    ensures Side(a + b, Ingress) == a && Side(a + b, Egress) == b
  {
    SideAppend(a, b, Ingress);
    SideAppend(a, b, Egress);
    SideOneWay(a, Ingress, Ingress);
    SideOneWay(a, Ingress, Egress);
    SideOneWay(b, Egress, Ingress);
    SideOneWay(b, Egress, Egress);
  }

  // ---------------------------------------------------------------------------------------------
  // Every run
  // ---------------------------------------------------------------------------------------------

  /** Over every run of updates of any groups the rules stay in order, and are numbered from the start. */
  lemma {:induction false} RunsStayInOrder(rs: seq<AzureRule>, cs: seq<Change>, low: real)
    requires Ordered(rs, low) && forall c <- cs :: Proper(c, low)
    ensures Ordered(Run(rs, cs), low) && (cs != [] || Numbered(rs) ==> Numbered(Run(rs, cs)))
    decreases cs
  {
    if cs != [] {
      UpdateInOrder(rs, cs[0], low);
      RunsStayInOrder(Updated(rs, cs[0]), cs[1..], low);
    }
  }

  /** So after any run a rule of smaller rank has the smaller Azure priority in its direction. */
  lemma SmallerRankFirst(rs: seq<AzureRule>, cs: seq<Change>, low: real, d: Direction, i: nat, j: nat)
    requires Ordered(rs, low) && cs != [] && forall c <- cs :: Proper(c, low)
    requires i < |Managed(Side(Run(rs, cs), d))| && j < |Managed(Side(Run(rs, cs), d))|
    ensures var ms := Managed(Side(Run(rs, cs), d));
            && Ranked(ms[i]) && Ranked(ms[j])
            && (Rank(ms[i]) < Rank(ms[j]) ==> ms[i].priority < ms[j].priority)
            && (i != j ==> ms[i].priority != ms[j].priority)
  {
    RunsStayInOrder(rs, cs, low);
    var ms := Managed(Side(Run(rs, cs), d));
    SortedRanked(ms, low, i);
    SortedRanked(ms, low, j);
    ConsecutiveAt(ms, START_PRIORITY, i);
    ConsecutiveAt(ms, START_PRIORITY, j);
    if Rank(ms[i]) < Rank(ms[j]) { SmallerRankSmallerPriority(ms, START_PRIORITY, low, i, j); }
  }

  /** The numbers stay below the rule between networks exactly while a direction has at most 2096 rules. */
  lemma CapacityIsExact(existing: seq<AzureRule>, added: seq<AzureRule>)
    requires AllManaged(added)
    ensures (forall r <- Managed(Merge(existing, added, START_PRIORITY)) :: r.priority < DENY_PRIORITY) <==>
            |Managed(existing)| + |added| <= 2096
  {
    MergeNumbers(existing, added, START_PRIORITY);
    var ms := Managed(Merge(existing, added, START_PRIORITY));
    forall i | 0 <= i < |ms| ensures ms[i].priority == START_PRIORITY + i { ConsecutiveAt(ms, START_PRIORITY, i); }
    if |ms| > 2096 { assert ms[2096] in ms; }
  }

  /** The user rules of one direction below the controller's range. */
  function LowUsers(rs: seq<AzureRule>, d: Direction): seq<AzureRule> {
    if rs == [] then []
    else
      var init, last := LowUsers(rs[..|rs| - 1], d), rs[|rs| - 1];
      if last.desc.None? && last.direction == d && last.priority < START_PRIORITY then init + [last] else init
  }

  lemma {:induction false} UsersSnoc(rs: seq<AzureRule>, r: AzureRule)
    ensures Users(rs + [r]) == if r.desc.None? then Users(rs) + [r] else Users(rs)
  {
    if rs == [] {
      ManagedCons(r, []);
      assert rs + [r] == [r] + [];
    } else {
      assert (rs + [r])[1..] == rs[1..] + [r];
      UsersSnoc(rs[1..], r);
      var first := if rs[0].desc.None? then [rs[0]] else [];
      assert first + (Users(rs[1..]) + [r]) == first + Users(rs[1..]) + [r];
    }
  }

  lemma {:induction false} KeptUsers(rs: seq<AzureRule>, d: Direction, group: string, rm: multiset<AzureRule>)
    ensures Users(Kept(rs, d, group, rm)) == LowUsers(rs, d)
  {
    if rs != [] {
      var init, last := rs[..|rs| - 1], rs[|rs| - 1];
      KeptUsers(init, d, group, rm);
      UsersSnoc(Kept(init, d, group, rm), last);
    }
  }

  /** The user rules after an update are exactly those below the controller's range, untouched and in order. */
  lemma UsersStayBelow(rs: seq<AzureRule>, d: Direction, group: string, add: seq<AzureRule>, rm: seq<AzureRule>)
    requires AllManaged(add)
    ensures Users(Effective(rs, d, group, add, rm)) == LowUsers(rs, d)
  {
    var kept := Kept(rs, d, group, multiset(rm));
    MissingManaged(kept, d, group, add);
    MergeSparesUsers(kept, Missing(kept, d, group, add), START_PRIORITY);
    KeptUsers(rs, d, group, multiset(rm));
  }

  // ---------------------------------------------------------------------------------------------
  // Rules of other groups
  // ---------------------------------------------------------------------------------------------

  lemma {:induction false} SideAre(rs: seq<AzureRule>, d: Direction, r: AzureRule)
    ensures r in Side(rs, d) <==> r in rs && r.direction == d
  {
    if rs != [] {
      SideAre(rs[1..], d, r);
      assert rs == [rs[0]] + rs[1..];
    }
  }

  lemma {:induction false} ManagedAre(rs: seq<AzureRule>, r: AzureRule)
    ensures r in Managed(rs) <==> r in rs && r.desc.Some?
  {
    if rs != [] {
      ManagedAre(rs[1..], r);
      assert rs == [rs[0]] + rs[1..];
    }
  }

  /** Some group a rule is not attached to. */
  lemma {:induction false} FreshGroup(groups: set<string>) returns (g: string)
    ensures forall x <- groups :: |x| < |g|
    decreases groups
  {
    g := "";
    if groups != {} {
      var x :| x in groups;
      g := FreshGroup(groups - {x});
      g := g + x + "x";
    }
  }

  lemma {:induction false} CountSnoc(rs: seq<AzureRule>, r: AzureRule, k: AzureRule)
    ensures Count(rs + [r], k) == Count(rs, k) + if Key(r) == k then 1 else 0
  {
    if rs == [] {
      CountCons(r, [], k);
      assert rs + [r] == [r] + [];
    } else {
      assert (rs + [r])[1..] == rs[1..] + [r];
      CountSnoc(rs[1..], r, k);
    }
  }

  lemma {:induction false} CountNone(rs: seq<AzureRule>, k: AzureRule)
    requires forall r <- rs :: Key(r) != k
    ensures Count(rs, k) == 0
  {
    if rs != [] { CountNone(rs[1..], k); }
  }

  /** No copy of the rule has the number of the rule between networks. */
  predicate NotAtDeny(rs: seq<AzureRule>, k: AzureRule) {
    forall r <- rs :: Key(r) == k ==> r.priority != DENY_PRIORITY
  }

  /** Of a rule of another group exactly the copies with that number are dropped. */
  lemma {:induction false} KeptCount(rs: seq<AzureRule>, d: Direction, group: string, rm: multiset<AzureRule>, k: AzureRule)
    requires Foreign(k, d, group)
    ensures Count(Kept(rs, d, group, rm), k) <= Count(rs, k)
    ensures Count(Kept(rs, d, group, rm), k) == Count(rs, k) <==> NotAtDeny(rs, k)
  {
    if rs != [] {
      var init, last := rs[..|rs| - 1], rs[|rs| - 1];
      assert rs == init + [last];
      KeptCount(init, d, group, rm, k);
      CountSnoc(init, last, k);
      CountSnoc(Kept(init, d, group, rm), last, k);
      assert NotAtDeny(rs, k) <==> NotAtDeny(init, k) && (Key(last) == k ==> last.priority != DENY_PRIORITY);
    }
  }

  /** The rules to add are attached to the group they are added for. */
  predicate Attached(add: seq<AzureRule>, group: string) {
    forall r <- add :: group in r.appliedTo
  }

  /** The rule is in the new list as often as in the old one, priorities aside. */
  predicate SameCount(rs: seq<AzureRule>, d: Direction, group: string, add: seq<AzureRule>, rm: seq<AzureRule>, k: AzureRule) {
    Count(Effective(rs, d, group, add, rm), k) == Count(rs, k)
  }

  lemma EffectiveCount(rs: seq<AzureRule>, d: Direction, group: string, add: seq<AzureRule>, rm: seq<AzureRule>, k: AzureRule)
    requires Attached(add, group) && Foreign(k, d, group)
    ensures SameCount(rs, d, group, add, rm, k) <==> NotAtDeny(rs, k)
  {
    var kept := Kept(rs, d, group, multiset(rm));
    var missing := Missing(kept, d, group, add);
    UnmatchedInOrder(add, multiset(OwnKeys(kept, d, group)));
    SublistMembers(missing, add);
    CountNone(missing, k);
    MergeKeepsContents(kept, missing, START_PRIORITY, k);
    KeptCount(rs, d, group, multiset(rm), k);
  }

  /** Whichever group changes its rules next, and how: every rule of the others is still there, as often as before. */
  ghost predicate LosesNothing(rs: seq<AzureRule>, d: Direction) {
    forall group, add, rm, k | Attached(add, group) && Foreign(k, d, group) :: SameCount(rs, d, group, add, rm, k)
  }

  lemma LosesNothingBelowDeny(rs: seq<AzureRule>, d: Direction)
    ensures LosesNothing(rs, d) <==> NoneAtDeny(Managed(Side(rs, d)))
  {
    var ms := Managed(Side(rs, d));
    if NoneAtDeny(ms) {
      forall group, add, rm, k | Attached(add, group) && Foreign(k, d, group) ensures SameCount(rs, d, group, add, rm, k) {
        forall r <- rs | Key(r) == k ensures r.priority != DENY_PRIORITY {
          SideAre(rs, d, r);
          ManagedAre(Side(rs, d), r);
        }
        EffectiveCount(rs, d, group, add, rm, k);
      }
    } else {
      var r :| r in ms && r.priority == DENY_PRIORITY;
      var group := FreshGroup(r.appliedTo);
      SideAre(rs, d, r);
      ManagedAre(Side(rs, d), r);
      assert Attached([], group) && Foreign(Key(r), d, group) && !NotAtDeny(rs, Key(r));
      EffectiveCount(rs, d, group, [], [], Key(r));
      assert !SameCount(rs, d, group, [], [], Key(r));
    }
  }

  /** Numbered from the start, a rule reaches the number of the rule between networks exactly beyond 2096. */
  lemma DenyIsReached(ms: seq<AzureRule>)
    requires Consecutive(ms, START_PRIORITY)
    ensures NoneAtDeny(ms) <==> |ms| <= 2096
  {
    forall i | 0 <= i < |ms| ensures ms[i].priority == START_PRIORITY + i { ConsecutiveAt(ms, START_PRIORITY, i); }
    if |ms| > 2096 { assert ms[2096] in ms; }
  }

  /** After any run, an update loses a rule of another group exactly when its direction has more than 2096 rules. */
  lemma CapacityProtectsOthers(rs: seq<AzureRule>, cs: seq<Change>, low: real, d: Direction)
    requires Ordered(rs, low) && cs != [] && forall c <- cs :: Proper(c, low)
    ensures LosesNothing(Run(rs, cs), d) <==> |Managed(Side(Run(rs, cs), d))| <= 2096
  {
    RunsStayInOrder(rs, cs, low);
    LosesNothingBelowDeny(Run(rs, cs), d);
    DenyIsReached(Managed(Side(Run(rs, cs), d)));
  }

  // ---------------------------------------------------------------------------------------------
  // Rules of the group itself
  // ---------------------------------------------------------------------------------------------

  /** A rule of the group in one direction, priority aside. */
  predicate OfGroup(k: AzureRule, d: Direction, group: string) {
    k.direction == d && k.desc.Some? && group in k.appliedTo
  }

  /** How many copies of a rule are numbered in the controller's range, the rule between networks apart. */
  function InRange(rs: seq<AzureRule>, k: AzureRule): nat {
    if rs == [] then 0
    else
      var last := rs[|rs| - 1];
      InRange(rs[..|rs| - 1], k) + if Key(last) == k && last.priority >= 2000 && last.priority != 4096 then 1 else 0
  }

  /** How many copies of a rule are numbered below it. */
  function BelowRange(rs: seq<AzureRule>, k: AzureRule): nat {
    if rs == [] then 0
    else
      var last := rs[|rs| - 1];
      BelowRange(rs[..|rs| - 1], k) + if Key(last) == k && last.priority < 2000 then 1 else 0
  }

  function Max(a: int, b: int): int {
    if a < b then b else a
  }

  /** Copies that were there and are not removed, or that are wanted, whichever is more. */
  function LeftOf(there: int, removed: int, wanted: int): int {
    Max(Max(there - removed, 0), wanted)
  }

  lemma {:induction false} OwnKeysCount(rs: seq<AzureRule>, d: Direction, group: string, k: AzureRule)
    requires OfGroup(k, d, group)
    ensures multiset(OwnKeys(rs, d, group))[k] == InRange(rs, k)
  {
    if rs != [] { OwnKeysCount(rs[..|rs| - 1], d, group, k); }
  }

  lemma {:induction false} InRangeSnoc(rs: seq<AzureRule>, r: AzureRule, k: AzureRule)
    ensures InRange(rs + [r], k) ==
            InRange(rs, k) + if Key(r) == k && r.priority >= 2000 && r.priority != 4096 then 1 else 0
  {
    assert (rs + [r])[..|rs|] == rs;
  }

  /** What the loop does with one more current rule that is a copy of the rule. */
  lemma {:induction false} KeptCopy(init: seq<AzureRule>, last: AzureRule, d: Direction, group: string,
                                    rm: multiset<AzureRule>, k: AzureRule)
    requires OfGroup(k, d, group) && Key(last) == k
    ensures Kept(init + [last], d, group, rm) ==
            if last.priority == 4096 || (last.priority >= 2000 && InRange(init, k) < rm[k]) then Kept(init, d, group, rm)
            else Kept(init, d, group, rm) + [last]
  {
    assert (init + [last])[..|init|] == init;
    OwnKeysCount(init, d, group, k);
  }

  /** Of the copies in the range as many stay as the remove list does not name; those below all stay. */
  lemma {:induction false} KeptOwn(rs: seq<AzureRule>, d: Direction, group: string, rm: multiset<AzureRule>, k: AzureRule)
    requires OfGroup(k, d, group)
    ensures KeptExactly(rs, Kept(rs, d, group, rm), rm[k], k)
  {
    if rs != [] {
      var init, last := rs[..|rs| - 1], rs[|rs| - 1];
      assert rs == init + [last];
      KeptOwn(init, d, group, rm, k);
      KeptOwnNext(init, last, d, group, rm, k);
    }
  }

  predicate KeptExactly(rs: seq<AzureRule>, kept: seq<AzureRule>, removed: nat, k: AzureRule) {
    && InRange(kept, k) == Max(InRange(rs, k) - removed, 0)
    && Count(kept, k) == BelowRange(rs, k) + Max(InRange(rs, k) - removed, 0)
  }

  lemma {:induction false} KeptOwnNext(init: seq<AzureRule>, last: AzureRule, d: Direction, group: string,
                                       rm: multiset<AzureRule>, k: AzureRule)
    requires OfGroup(k, d, group) && KeptExactly(init, Kept(init, d, group, rm), rm[k], k)
    ensures KeptExactly(init + [last], Kept(init + [last], d, group, rm), rm[k], k)
  {
    var kept := Kept(init, d, group, rm);
    if Key(last) == k {
      KeptCopy(init, last, d, group, rm, k);
      Tally(init, kept, last, !(last.priority == 4096 || (last.priority >= 2000 && InRange(init, k) < rm[k])), rm[k], k);
    } else {
      KeptSnoc(init, last, d, group, rm);
      Tally(init, kept, last, Kept(init + [last], d, group, rm) != kept, rm[k], k);
    }
  }

  /** One more rule, kept or not: a copy in the range is dropped while fewer were there than are to be removed. */
  lemma {:induction false} Tally(rs: seq<AzureRule>, kept: seq<AzureRule>, last: AzureRule, keeps: bool, removed: nat,
                                 k: AzureRule)
    requires KeptExactly(rs, kept, removed, k)
    requires Key(last) == k ==>
               (keeps <==> !(last.priority == 4096 || (last.priority >= 2000 && InRange(rs, k) < removed)))
    ensures KeptExactly(rs + [last], if keeps then kept + [last] else kept, removed, k)
  {
    CountSnoc(kept, last, k);
    InRangeSnoc(kept, last, k);
    InRangeSnoc(rs, last, k);
    BelowSnoc(rs, last, k);
  }

  lemma {:induction false} BelowSnoc(rs: seq<AzureRule>, r: AzureRule, k: AzureRule)
    ensures BelowRange(rs + [r], k) == BelowRange(rs, k) + if Key(r) == k && r.priority < 2000 then 1 else 0
  {
    assert (rs + [r])[..|rs|] == rs;
  }

  /** The rules to add were not given a number yet. */
  predicate Unnumbered(add: seq<AzureRule>) {
    forall r <- add :: Key(r) == r
  }

  lemma {:induction false} CountUnnumbered(add: seq<AzureRule>, k: AzureRule)
    requires Unnumbered(add)
    ensures Count(add, k) == multiset(add)[k]
  {
    if add != [] {
      CountUnnumbered(add[1..], k);
      assert add == [add[0]] + add[1..] && Key(add[0]) == add[0];
    }
  }

  /** As many copies are added as are wanted beyond those in the range. */
  lemma {:induction false} MissingCount(kept: seq<AzureRule>, d: Direction, group: string, add: seq<AzureRule>, k: AzureRule)
    requires OfGroup(k, d, group) && Unnumbered(add)
    ensures Count(Missing(kept, d, group, add), k) == Max(multiset(add)[k] - InRange(kept, k), 0)
  {
    var missing := Missing(kept, d, group, add);
    assert Unnumbered(missing) by {
      UnmatchedInOrder(add, multiset(OwnKeys(kept, d, group)));
      SublistMembers(missing, add);
    }
    CountUnnumbered(missing, k);
    assert multiset(missing)[k] == (multiset(add) - multiset(OwnKeys(kept, d, group)))[k] by {
      MissingIsExact(kept, d, group, add);
    }
    OwnKeysCount(kept, d, group, k);
  }

  /** The kept copies, those of them in the range, and the added ones. */
  lemma {:induction false} EffectiveHolds(rs: seq<AzureRule>, d: Direction, group: string, add: seq<AzureRule>,
                                          rm: seq<AzureRule>, k: AzureRule)
    returns (kept: nat, missing: nat, inRange: nat)
    requires OfGroup(k, d, group) && Unnumbered(add)
    ensures Count(Effective(rs, d, group, add, rm), k) == kept + missing
    ensures inRange == Max(InRange(rs, k) - multiset(rm)[k], 0) && kept == BelowRange(rs, k) + inRange
    ensures missing == Max(multiset(add)[k] - inRange, 0)
  {
    var ks := Kept(rs, d, group, multiset(rm));
    KeptOwn(rs, d, group, multiset(rm), k);
    MissingCount(ks, d, group, add, k);
    kept, missing, inRange := Count(ks, k), Count(Missing(ks, d, group, add), k), InRange(ks, k);
    EffectiveSum(rs, d, group, add, rm, k, ks);
  }

  lemma {:induction false} EffectiveSum(rs: seq<AzureRule>, d: Direction, group: string, add: seq<AzureRule>,
                                        rm: seq<AzureRule>, k: AzureRule,
                     kept: seq<AzureRule>)
    requires kept == Kept(rs, d, group, multiset(rm))
    ensures Count(Effective(rs, d, group, add, rm), k) == Count(kept, k) + Count(Missing(kept, d, group, add), k)
  {
    MergeKeepsContents(kept, Missing(kept, d, group, add), START_PRIORITY, k);
  }

  /**
   * A rule of the group after an update: the copies below the range, and of those in the range as many as were
   * there and not removed, or as many as are wanted, whichever is more.
   */
  lemma {:induction false} OwnRulesAreExact(rs: seq<AzureRule>, d: Direction, group: string, add: seq<AzureRule>,
                                            rm: seq<AzureRule>, k: AzureRule)
    requires OfGroup(k, d, group) && Unnumbered(add)
    ensures Count(Effective(rs, d, group, add, rm), k) ==
            BelowRange(rs, k) + LeftOf(InRange(rs, k), multiset(rm)[k], multiset(add)[k])
  {
    var kept, missing, inRange := EffectiveHolds(rs, d, group, add, rm, k);
  }

  /** In a direction that is numbered from the start and not full every copy is in the range. */
  lemma {:induction false} AllInRange(rs: seq<AzureRule>, k: AzureRule)
    requires forall r <- rs :: Key(r) == k ==> 2000 <= r.priority < 4096
    ensures InRange(rs, k) == Count(rs, k) && BelowRange(rs, k) == 0
  {
    if rs != [] {
      var init, last := rs[..|rs| - 1], rs[|rs| - 1];
      assert rs == init + [last];
      AllInRange(init, k);
      CountSnoc(init, last, k);
    }
  }

  lemma {:induction false} NumberedInRange(rs: seq<AzureRule>, d: Direction, k: AzureRule)
    requires Consecutive(Managed(Side(rs, d)), START_PRIORITY) && |Managed(Side(rs, d))| <= 2096
    requires k.direction == d && k.desc.Some?
    ensures InRange(rs, k) == Count(rs, k) && BelowRange(rs, k) == 0
  {
    var ms := Managed(Side(rs, d));
    forall r <- rs | Key(r) == k ensures 2000 <= r.priority < 4096 {
      SideAre(rs, d, r);
      ManagedAre(Side(rs, d), r);
      var i :| 0 <= i < |ms| && ms[i] == r;
      ConsecutiveAt(ms, START_PRIORITY, i);
    }
    AllInRange(rs, k);
  }

  lemma {:induction false} CountAppend(a: seq<AzureRule>, b: seq<AzureRule>, k: AzureRule)
    ensures Count(a + b, k) == Count(a, k) + Count(b, k)
  {
    if a == [] {
      assert a + b == b;
    } else {
      assert (a + b)[1..] == a[1..] + b;
      CountAppend(a[1..], b, k);
    }
  }

  lemma {:induction false} EffectiveOneWay(rs: seq<AzureRule>, d: Direction, group: string, add: seq<AzureRule>,
                                           rm: seq<AzureRule>)
    requires OneWay(add, d)
    ensures OneWay(Effective(rs, d, group, add, rm), d)
  {
    var kept := Kept(rs, d, group, multiset(rm));
    UnmatchedInOrder(add, multiset(OwnKeys(kept, d, group)));
    SublistMembers(Missing(kept, d, group, add), add);
    KeptRelevant(rs, d, group, multiset(rm));
    MergeOneWay(kept, Missing(kept, d, group, add), START_PRIORITY, d);
  }

  /** The lists of a change for one direction. */
  function AddsOf(c: Change, d: Direction): seq<AzureRule> {
    if d == Ingress then c.addIn else c.addOut
  }

  function RemovesOf(c: Change, d: Direction): seq<AzureRule> {
    if d == Ingress then c.rmIn else c.rmOut
  }

  lemma {:induction false} UpdatedCount(rs: seq<AzureRule>, c: Change, k: AzureRule)
    requires OneWay(c.addIn, Ingress) && OneWay(c.addOut, Egress)
    ensures Count(Updated(rs, c), k) ==
            Count(Effective(rs, k.direction, c.group, AddsOf(c, k.direction), RemovesOf(c, k.direction)), k)
  {
    var a := Effective(rs, Ingress, c.group, c.addIn, c.rmIn);
    var b := Effective(rs, Egress, c.group, c.addOut, c.rmOut);
    EffectiveOneWay(rs, Ingress, c.group, c.addIn, c.rmIn);
    EffectiveOneWay(rs, Egress, c.group, c.addOut, c.rmOut);
    CountAppend(a, b, k);
    if k.direction == Ingress { CountNone(b, k); } else { CountNone(a, k); }
  }

  lemma {:induction false} NumberedUpdate(rs: seq<AzureRule>, c: Change, k: AzureRule)
    requires Consecutive(Managed(Side(rs, k.direction)), START_PRIORITY) && |Managed(Side(rs, k.direction))| <= 2096
    requires OneWay(c.addIn, Ingress) && OneWay(c.addOut, Egress) && Unnumbered(c.addIn) && Unnumbered(c.addOut)
    requires OfGroup(k, k.direction, c.group)
    ensures Count(Updated(rs, c), k) ==
            LeftOf(Count(rs, k), multiset(RemovesOf(c, k.direction))[k], multiset(AddsOf(c, k.direction))[k])
  {
    NumberedInRange(rs, k.direction, k);
    UpdatedCount(rs, c, k);
    OwnRulesAreExact(rs, k.direction, c.group, AddsOf(c, k.direction), RemovesOf(c, k.direction), k);
  }

  /**
   * After any run that leaves the direction room, an update leaves every rule of its group as often as it was
   * there and is not removed, or as often as it is wanted, whichever is more: a removed rule is gone, an added
   * one is there, and adding one that is there adds nothing.
   */
  lemma {:induction false} UpdateRealizesOwnRules(rs: seq<AzureRule>, cs: seq<Change>, c: Change, low: real, k: AzureRule)
    requires Ordered(rs, low) && cs != [] && (forall x <- cs :: Proper(x, low)) && Proper(c, low)
    requires Unnumbered(c.addIn) && Unnumbered(c.addOut) && OfGroup(k, k.direction, c.group)
    requires |Managed(Side(Run(rs, cs), k.direction))| <= 2096
    ensures Count(Updated(Run(rs, cs), c), k) ==
            LeftOf(Count(Run(rs, cs), k), multiset(RemovesOf(c, k.direction))[k], multiset(AddsOf(c, k.direction))[k])
  {
    RunsStayInOrder(rs, cs, low);
    NumberedUpdate(Run(rs, cs), c, k);
  }

  /** A rule of the group is there as often as it should be after the change, whatever the numbers were before. */
  ghost predicate LeavesOwn(rs: seq<AzureRule>, c: Change, after: seq<AzureRule>, k: AzureRule) {
    Count(after, k) ==
    BelowRange(rs, k) + LeftOf(InRange(rs, k), multiset(RemovesOf(c, k.direction))[k], multiset(AddsOf(c, k.direction))[k])
  }

  /**
   * The loop over the current rules, for both directions of the security group, each from its own lists whose
   * matched entries it clears.
   */
  method BuildEffectiveRules(current: seq<AzureRule>, c: Change) returns (rules: seq<AzureRule>)
    requires AllManaged(c.addIn) && AllManaged(c.addOut)
    ensures rules == Updated(current, c)
    ensures OneWay(c.addIn, Ingress) && OneWay(c.addOut, Egress) && Unnumbered(c.addIn) && Unnumbered(c.addOut) ==>
              forall k: AzureRule :: OfGroup(k, k.direction, c.group) ==> LeavesOwn(current, c, rules, k)
  {
    var inbound := new Sieve(Ingress, c.group, c.rmIn, c.addIn);
    var outbound := new Sieve(Egress, c.group, c.rmOut, c.addOut);
    inbound.ConsiderAll(current);
    outbound.ConsiderAll(current);
    var allIn := inbound.Finish();
    var allOut := outbound.Finish();
    rules := allIn + allOut;
    if OneWay(c.addIn, Ingress) && OneWay(c.addOut, Egress) && Unnumbered(c.addIn) && Unnumbered(c.addOut) {
      forall k: AzureRule | OfGroup(k, k.direction, c.group) ensures LeavesOwn(current, c, rules, k) {
        UpdatedCount(current, c, k);
        OwnRulesAreExact(current, k.direction, c.group, AddsOf(c, k.direction), RemovesOf(c, k.direction), k);
      }
    }
  }
}
