/** The full rule list of an Azure network security group after one applied-to group changed its rules. */
module AzureEffective {
  import opened Wrappers
  import opened Matching
  import opened CloudRules
  import opened AzureMerge

  /** The rule between networks, and user rules in the controller's priority range, are not carried over. */
  predicate Ignored(r: AzureRule) {
    r.priority == DENY_PRIORITY || (r.priority >= START_PRIORITY && r.desc.None?)
  }

  predicate Relevant(r: AzureRule, d: Direction) {
    r.direction == d && !Ignored(r)
  }

  /** A rule of the applied-to group that is being processed. */
  predicate Own(r: AzureRule, group: string) {
    r.priority >= START_PRIORITY && r.desc.Some? && group in r.appliedTo
  }

  /** The group's own rules of one direction, priorities aside, in order. */
  function OwnKeys(rs: seq<AzureRule>, d: Direction, group: string): seq<AzureRule> {
    if rs == [] then []
    else
      var init, last := OwnKeys(rs[..|rs| - 1], d, group), rs[|rs| - 1];
      if Relevant(last, d) && Own(last, group) then init + [Key(last)] else init
  }

  /** The rules of one direction that are not the group's own: user rules and other groups' rules. */
  function Rest(rs: seq<AzureRule>, d: Direction, group: string): seq<AzureRule> {
    if rs == [] then []
    else
      var init, last := Rest(rs[..|rs| - 1], d, group), rs[|rs| - 1];
      if Relevant(last, d) && !Own(last, group) then init + [last] else init
  }

  /** The current rules that stay: all but the own rules that an entry of the remove list cancels. */
  function Kept(rs: seq<AzureRule>, d: Direction, group: string, rm: multiset<AzureRule>): seq<AzureRule> {
    if rs == [] then []
    else
      var init, last := rs[..|rs| - 1], rs[|rs| - 1];
      if !Relevant(last, d) then Kept(init, d, group, rm)
      else if Own(last, group) && multiset(OwnKeys(init, d, group))[Key(last)] < rm[Key(last)] then Kept(init, d, group, rm)
      else Kept(init, d, group, rm) + [last]
  }

  /** The rules to add that are not there already. */
  function Missing(kept: seq<AzureRule>, d: Direction, group: string, add: seq<AzureRule>): seq<AzureRule> {
    Unmatched(add, multiset(OwnKeys(kept, d, group)))
  }

  /** The rules of one direction after the change. */
  function Effective(rs: seq<AzureRule>, d: Direction, group: string, add: seq<AzureRule>, rm: seq<AzureRule>): seq<AzureRule> {
    var kept := Kept(rs, d, group, multiset(rm));
    Merge(kept, Missing(kept, d, group, add), START_PRIORITY)
  }

  lemma SnocParts(rs: seq<AzureRule>, r: AzureRule, d: Direction, group: string)
    ensures OwnKeys(rs + [r], d, group) ==
            if Relevant(r, d) && Own(r, group) then OwnKeys(rs, d, group) + [Key(r)] else OwnKeys(rs, d, group)
    ensures Rest(rs + [r], d, group) ==
            if Relevant(r, d) && !Own(r, group) then Rest(rs, d, group) + [r] else Rest(rs, d, group)
  {
    assert (rs + [r])[..|rs|] == rs;
  }

  /** Each entry of the remove list cancels at most one own rule. */
  lemma {:induction false} RemovalsCancelOnce(rs: seq<AzureRule>, d: Direction, group: string, rm: multiset<AzureRule>)
    ensures OwnKeys(Kept(rs, d, group, rm), d, group) == Unmatched(OwnKeys(rs, d, group), rm)
  {
    if rs != [] {
      var init, last := rs[..|rs| - 1], rs[|rs| - 1];
      RemovalsCancelOnce(init, d, group, rm);
      SnocParts(Kept(init, d, group, rm), last, d, group);
      var own := OwnKeys(init, d, group);
      assert (own + [Key(last)])[..|own|] == own;
    }
  }

  /** Every relevant rule that is not the group's own stays, in order. */
  lemma {:induction false} OthersStay(rs: seq<AzureRule>, d: Direction, group: string, rm: multiset<AzureRule>)
    ensures Rest(Kept(rs, d, group, rm), d, group) == Rest(rs, d, group)
  {
    if rs != [] {
      var init, last := rs[..|rs| - 1], rs[|rs| - 1];
      OthersStay(init, d, group, rm);
      SnocParts(Kept(init, d, group, rm), last, d, group);
    }
  }

  /** A rule the controller made for other groups only. */
  predicate Foreign(r: AzureRule, d: Direction, group: string) {
    r.direction == d && r.desc.Some? && group !in r.appliedTo
  }

  /** All rules of other groups in one direction, whatever their priority. */
  function Foreigners(rs: seq<AzureRule>, d: Direction, group: string): seq<AzureRule> {
    if rs == [] then []
    else
      var init, last := Foreigners(rs[..|rs| - 1], d, group), rs[|rs| - 1];
      if Foreign(last, d, group) then init + [last] else init
  }

  predicate NoneAtDeny(rs: seq<AzureRule>) {
    forall r <- rs :: r.priority != DENY_PRIORITY
  }

  lemma ForeignersSnoc(rs: seq<AzureRule>, r: AzureRule, d: Direction, group: string)
    ensures Foreigners(rs + [r], d, group) ==
            if Foreign(r, d, group) then Foreigners(rs, d, group) + [r] else Foreigners(rs, d, group)
  {
    assert (rs + [r])[..|rs|] == rs;
  }

  lemma {:induction false} ForeignersCounted(rs: seq<AzureRule>, d: Direction, group: string, rm: multiset<AzureRule>)
    ensures |Foreigners(Kept(rs, d, group, rm), d, group)| <= |Foreigners(rs, d, group)|
    ensures |Foreigners(Kept(rs, d, group, rm), d, group)| == |Foreigners(rs, d, group)| <==>
            NoneAtDeny(Foreigners(rs, d, group))
    ensures NoneAtDeny(Foreigners(rs, d, group)) ==>
            Foreigners(Kept(rs, d, group, rm), d, group) == Foreigners(rs, d, group)
  {
    if rs != [] {
      var init, last := rs[..|rs| - 1], rs[|rs| - 1];
      ForeignersCounted(init, d, group, rm);
      ForeignersSnoc(Kept(init, d, group, rm), last, d, group);
      var (fs, gs) := (Foreigners(init, d, group), Foreigners(rs, d, group));
      if Foreign(last, d, group) {
        assert gs == fs + [last];
        assert NoneAtDeny(gs) <==> NoneAtDeny(fs) && last.priority != DENY_PRIORITY;
      }
    }
  }

  /** No rule of another group is lost exactly when none of them has the number of the rule between networks. */
  lemma OthersStayBelowDeny(rs: seq<AzureRule>, d: Direction, group: string, rm: multiset<AzureRule>)
    ensures Foreigners(Kept(rs, d, group, rm), d, group) == Foreigners(rs, d, group) <==>
            NoneAtDeny(Foreigners(rs, d, group))
  {
    ForeignersCounted(rs, d, group, rm);
  }

  lemma {:induction false} KeptRelevant(rs: seq<AzureRule>, d: Direction, group: string, rm: multiset<AzureRule>)
    ensures forall r <- Kept(rs, d, group, rm) :: Relevant(r, d) && r in rs
  {
    if rs != [] {
      KeptRelevant(rs[..|rs| - 1], d, group, rm);
      assert rs == rs[..|rs| - 1] + [rs[|rs| - 1]];
    }
  }

  /** A rule is added exactly when it is wanted more often than it is there. */
  lemma MissingIsExact(kept: seq<AzureRule>, d: Direction, group: string, add: seq<AzureRule>)
    ensures multiset(Missing(kept, d, group, add)) == multiset(add) - multiset(OwnKeys(kept, d, group))
  {
    UnmatchedIsDifference(add, multiset(OwnKeys(kept, d, group)));
  }

  // ---------------------------------------------------------------------------------------------
  // Sifting the current rules in place
  // ---------------------------------------------------------------------------------------------

  /** Where the loop stands for one direction after the rules `done`. */
  ghost predicate Sifted(done: seq<AzureRule>, d: Direction, group: string, rm0: seq<AzureRule>, add0: seq<AzureRule>,
                         rm: seq<Option<AzureRule>>, add: seq<Option<AzureRule>>, kept: seq<AzureRule>) {
    && kept == Kept(done, d, group, multiset(rm0))
    && Left(rm, multiset(rm0), multiset(OwnKeys(done, d, group)))
    && Compact(add) == Missing(kept, d, group, add0)
  }

  lemma SiftedStart(d: Direction, group: string, rm0: seq<AzureRule>, add0: seq<AzureRule>)
    ensures Sifted([], d, group, rm0, add0, Somes(rm0), Somes(add0), [])
  {
    CompactSomes(rm0);
    CompactSomes(add0);
    UnmatchedNone(add0);
  }

  lemma SiftedSkips(done: seq<AzureRule>, r: AzureRule, d: Direction, group: string, rm0: seq<AzureRule>, add0: seq<AzureRule>,
                    rm: seq<Option<AzureRule>>, add: seq<Option<AzureRule>>, kept: seq<AzureRule>)
    requires Sifted(done, d, group, rm0, add0, rm, add, kept) && !Own(r, group)
    ensures Sifted(done + [r], d, group, rm0, add0, rm, add, if Relevant(r, d) then kept + [r] else kept)
  {
    SnocParts(done, r, d, group);
    SnocParts(kept, r, d, group);
    assert (done + [r])[..|done|] == done;
  }

  lemma SiftedElsewhere(done: seq<AzureRule>, r: AzureRule, d: Direction, group: string, rm0: seq<AzureRule>,
                        add0: seq<AzureRule>,
                        rm: seq<Option<AzureRule>>, add: seq<Option<AzureRule>>, kept: seq<AzureRule>)
    requires Sifted(done, d, group, rm0, add0, rm, add, kept) && !Relevant(r, d)
    ensures Sifted(done + [r], d, group, rm0, add0, rm, add, kept)
  {
    SnocParts(done, r, d, group);
    assert (done + [r])[..|done|] == done;
  }

  /** An own rule: cancelled by an entry of the remove list, or kept and crossed off the add list. */
  method SiftOwn(ghost done: seq<AzureRule>, r: AzureRule, d: Direction, group: string,
                 ghost rm0: seq<AzureRule>, ghost add0: seq<AzureRule>,
                 rm: array<Option<AzureRule>>, add: array<Option<AzureRule>>, kept: seq<AzureRule>) returns (out: seq<AzureRule>)
    requires rm != add && Relevant(r, d) && Own(r, group)
    requires Sifted(done, d, group, rm0, add0, rm[..], add[..], kept)
    modifies rm, add
    ensures Sifted(done + [r], d, group, rm0, add0, rm[..], add[..], out)
  {
    SnocParts(done, r, d, group);
    assert (done + [r])[..|done|] == done;
    ghost var adds := add[..];
    var found := Use(Key(r), rm, multiset(rm0), multiset(OwnKeys(done, d, group)));
    assert add[..] == adds;
    if found { return kept; }
    SnocParts(kept, r, d, group);
    UnmatchedPlus(add0, multiset(OwnKeys(kept, d, group)), Key(r));
    ghost var rms := rm[..];
    var _ := Match(Key(r), add);
    assert rm[..] == rms;
    return kept + [r];
  }

  /** What one direction of the loop keeps track of. */
  class Sieve {
    const d: Direction
    const group: string
    const rm: array<Option<AzureRule>>
    const add: array<Option<AzureRule>>
    ghost const rm0: seq<AzureRule>
    ghost const add0: seq<AzureRule>
    var kept: seq<AzureRule>
    ghost var done: seq<AzureRule>

    ghost predicate Valid()
      reads this, rm, add
    {
      rm != add && Sifted(done, d, group, rm0, add0, rm[..], add[..], kept)
    }

    constructor (d: Direction, group: string, rm0: seq<AzureRule>, add0: seq<AzureRule>)
      ensures Valid() && fresh(rm) && fresh(add) && done == []
      ensures this.d == d && this.group == group && this.rm0 == rm0 && this.add0 == add0
    {
      this.d, this.group, this.rm0, this.add0, kept, done := d, group, rm0, add0, [], [];
      var a := new Option<AzureRule>[|rm0|](i requires 0 <= i < |rm0| => Some(rm0[i]));
      var b := new Option<AzureRule>[|add0|](i requires 0 <= i < |add0| => Some(add0[i]));
      rm, add := a, b;
      assert a[..] == Somes(rm0) && b[..] == Somes(add0);
      SiftedStart(d, group, rm0, add0);
    }

    /** One current rule, of this direction or not. */
    method Consider(r: AzureRule)
      requires Valid()
      modifies this, rm, add
      ensures Valid() && done == old(done) + [r]
    {
      if !Relevant(r, d) {
        SiftedElsewhere(done, r, d, group, rm0, add0, rm[..], add[..], kept);
      } else if Own(r, group) {
        kept := SiftOwn(done, r, d, group, rm0, add0, rm, add, kept);
      } else {
        SiftedSkips(done, r, d, group, rm0, add0, rm[..], add[..], kept);
        kept := kept + [r];
      }
      done := done + [r];
    }

    method ConsiderAll(current: seq<AzureRule>)
      requires Valid() && done == []
      modifies this, rm, add
      ensures Valid() && done == current
    {
      for i := 0 to |current|
        invariant Valid() && done == current[..i]
      {
        assert current[..i + 1] == current[..i] + [current[i]];
        Consider(current[i]);
      }
      assert current[..|current|] == current;
    }

    /** The kept rules and what is left to add, merged and numbered. */
    method Finish() returns (rules: seq<AzureRule>)
      requires Valid() && AllManaged(add0)
      ensures rules == Effective(done, d, group, add0, rm0)
    {
      MissingManaged(kept, d, group, add0);
      rules := UpdateNameAndPriority(kept, add[..]);
    }
  }

  lemma MissingManaged(kept: seq<AzureRule>, d: Direction, group: string, add: seq<AzureRule>)
    requires AllManaged(add)
    ensures AllManaged(Missing(kept, d, group, add))
  {
    MissingIsExact(kept, d, group, add);
    forall r <- Missing(kept, d, group, add) ensures r.desc.Some? {
      assert r in multiset(Missing(kept, d, group, add));
      assert r in multiset(add);
    }
  }
}
