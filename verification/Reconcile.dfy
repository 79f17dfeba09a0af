/**
 * Reconciling the rules one policy wants in a group with the rules realized there. The realized-rule
 * index of one group maps each rule to the policy that owns it.
 */
module Reconcile {
  import opened Wrappers
  import opened CloudRules

  type Index = map<Rule, Owner>

  datatype Delta = Delta(add: set<Rule>, remove: set<Rule>)

  function Owned(index: Index, o: Owner): set<Rule> {
    set r <- index.Keys | index[r] == o
  }

  /** A desired rule is already realized for somebody else. */
  predicate Conflict(index: Index, np: Owner, desired: set<Rule>) {
    exists r <- desired :: r in index && index[r] != np
  }

  /** What is to change: the missing rules, and the owned rules that are no longer wanted. */
  function DeltaOf(index: Index, np: Owner, desired: set<Rule>): Delta {
    Delta(desired - index.Keys, Owned(index, np) - desired)
  }

  /** The index after a successful update: additions are stored, then removals deleted. */
  function Apply(index: Index, np: Owner, d: Delta): Index {
    (index + (map r | r in d.add :: np)) - d.remove
  }

  function PriorityOf(r: Rule): real {
    r.priority.UnwrapOr(0.0)
  }

  predicate Sorted(rs: seq<Rule>) {
    forall i, j :: 0 <= i < j < |rs| ==> PriorityOf(rs[i]) <= PriorityOf(rs[j])
  }

  predicate Distinct(rs: seq<Rule>) {
    forall i, j :: 0 <= i < j < |rs| ==> rs[i] != rs[j]
  }

  function Elements(rs: seq<Rule>): set<Rule> {
    set r <- rs
  }

  lemma ElementsSnoc(rs: seq<Rule>, r: Rule)
    ensures Elements(rs + [r]) == Elements(rs) + {r}
    ensures Distinct(rs) && r !in rs ==> Distinct(rs + [r])
  {
  }

  // ---------------------------------------------------------------------------------------------
  // The computation
  // ---------------------------------------------------------------------------------------------

  function InsertAt(rs: seq<Rule>, k: nat, r: Rule): seq<Rule>
    requires k <= |rs|
  {
    rs[..k] + [r] + rs[k..]
  }

  lemma InsertAtElements(rs: seq<Rule>, k: nat, r: Rule)
    requires k <= |rs|
    ensures Elements(InsertAt(rs, k, r)) == Elements(rs) + {r}
  {
    assert rs == rs[..k] + rs[k..];
  }

  lemma InsertAtSorted(rs: seq<Rule>, k: nat, r: Rule)
    requires Sorted(rs) && k <= |rs|
    requires forall i :: 0 <= i < k ==> PriorityOf(rs[i]) <= PriorityOf(r)
    requires k < |rs| ==> PriorityOf(r) < PriorityOf(rs[k])
    ensures Sorted(InsertAt(rs, k, r))
  {
    var out := InsertAt(rs, k, r);
    forall i, j | 0 <= i < j < |out| ensures PriorityOf(out[i]) <= PriorityOf(out[j]) {
      assert out[i] == if i < k then rs[i] else if i == k then r else rs[i - 1];
      assert out[j] == if j < k then rs[j] else if j == k then r else rs[j - 1];
      assert k < |rs| ==> PriorityOf(r) <= PriorityOf(rs[k]);
    }
  }

  lemma InsertAtDistinct(rs: seq<Rule>, k: nat, r: Rule)
    requires Distinct(rs) && k <= |rs| && r !in rs
    ensures Distinct(InsertAt(rs, k, r))
  {
    var out := InsertAt(rs, k, r);
    forall i, j | 0 <= i < j < |out| ensures out[i] != out[j] {
      assert out[i] == if i < k then rs[i] else if i == k then r else rs[i - 1];
      assert out[j] == if j < k then rs[j] else if j == k then r else rs[j - 1];
    }
  }

  /** Places a rule among rules sorted by priority. */
  method InsertByPriority(rs: seq<Rule>, r: Rule) returns (out: seq<Rule>)
    requires Sorted(rs) && Distinct(rs) && r !in rs
    ensures Sorted(out) && Distinct(out) && Elements(out) == Elements(rs) + {r}
  {
    var k := 0;
    while k < |rs| && PriorityOf(rs[k]) <= PriorityOf(r)
      invariant 0 <= k <= |rs|
      invariant forall i :: 0 <= i < k ==> PriorityOf(rs[i]) <= PriorityOf(r)
    {
      k := k + 1;
    }
    out := InsertAt(rs, k, r);
    InsertAtSorted(rs, k, r);
    InsertAtDistinct(rs, k, r);
    InsertAtElements(rs, k, r);
  }

  method SortByPriority(rules: set<Rule>) returns (out: seq<Rule>)
    ensures Sorted(out) && Distinct(out) && Elements(out) == rules
  {
    out := [];
    var todo := rules;
    while todo != {}
      invariant todo <= rules
      invariant Sorted(out) && Distinct(out) && Elements(out) == rules - todo
      decreases todo
    {
      var r :| r in todo;
      assert r !in out by { assert r !in Elements(out); }
      out := InsertByPriority(out, r);
      todo := todo - {r};
    }
  }

  /**
   * The realized rules are visited in any order. The computation fails exactly on a conflict, and
   * otherwise lists the delta without repetition, additions by ascending priority.
   */
  method ComputeDelta(index: Index, realized: seq<Rule>, np: Owner, desired: seq<Rule>)
    returns (r: Result<(seq<Rule>, seq<Rule>)>)
    requires Distinct(realized) && Elements(realized) == index.Keys
    ensures r.Err? <==> Conflict(index, np, Elements(desired))
    ensures r.Ok? ==>
      var (add, remove) := r.value;
      && Delta(Elements(add), Elements(remove)) == DeltaOf(index, np, Elements(desired))
      && Sorted(add) && Distinct(add) && Distinct(remove)
  {
    var wanted := Elements(desired);
    var current := wanted;
    var remove: seq<Rule> := [];
    for i := 0 to |realized|
      invariant current == wanted - Elements(realized[..i])
      invariant forall j :: 0 <= j < i ==> realized[j] in wanted ==> index[realized[j]] == np
      invariant Elements(remove) == (Owned(index, np) - wanted) * Elements(realized[..i])
      invariant Distinct(remove)
    {
      var rule := realized[i];
      assert rule in Elements(realized);
      assert realized[..i + 1] == realized[..i] + [rule];
      ElementsSnoc(realized[..i], rule);
      var sameNp, sameRule := index[rule] == np, rule in current;
      assert sameRule <==> rule in wanted by { assert rule !in realized[..i]; }
      if sameRule && !sameNp { return Err; }
      if !sameRule && sameNp {
        assert rule !in remove by { assert rule !in Elements(remove); }
        ElementsSnoc(remove, rule);
        remove := remove + [rule];
      } else if sameRule && sameNp {
        current := current - {rule};
      }
    }
    assert realized[..|realized|] == realized;
    assert forall r <- wanted :: r in index ==> r in Elements(realized);
    var add := SortByPriority(current);
    return Ok((add, remove));
  }

  // ---------------------------------------------------------------------------------------------
  // What an update achieves
  // ---------------------------------------------------------------------------------------------

  /** The rules of every other owner are untouched, whether or not there is a conflict. */
  ghost predicate Spares(before: Index, after: Index, np: Owner) {
    forall r :: (r in before && before[r] != np) || (r in after && after[r] != np) ==>
      r in before && r in after && before[r] == after[r]
  }

  /** Without a conflict the owned rules become the desired ones, nothing else changes, and nothing is left to do. */
  lemma DeltaIsExact(index: Index, np: Owner, desired: set<Rule>)
    requires !Conflict(index, np, desired)
    ensures var after := Apply(index, np, DeltaOf(index, np, desired));
            && Owned(after, np) == desired
            && Spares(index, after, np)
            && !Conflict(after, np, desired) && DeltaOf(after, np, desired) == Delta({}, {})
  {
    var after := Apply(index, np, DeltaOf(index, np, desired));
    assert forall r <- desired :: r in after && after[r] == np;
    assert Owned(after, np) == desired;
  }

  // ---------------------------------------------------------------------------------------------
  // Order does not matter
  // ---------------------------------------------------------------------------------------------

  /** One policy after the other; a policy in conflict changes nothing. */
  function Process(index: Index, policies: map<Owner, set<Rule>>, order: seq<Owner>): Index
    requires forall o <- order :: o in policies
  {
    if order == [] then index
    else
      var before := Process(index, policies, order[..|order| - 1]);
      var o := order[|order| - 1];
      if Conflict(before, o, policies[o]) then before
      else Apply(before, o, DeltaOf(before, o, policies[o]))
  }

  /** No policy wants a rule that another policy wants or that is realized for another owner. */
  ghost predicate Apart(index: Index, policies: map<Owner, set<Rule>>) {
    && (forall o, r :: o in policies && r in policies[o] && r in index ==> index[r] == o)
    && (forall o, q, r :: o in policies && q in policies && r in policies[o] && r in policies[q] ==> o == q)
  }

  /** Whom a rule belongs to once the policies in `done` were processed, if it is realized at all. */
  ghost function OwnerAfter(index: Index, policies: map<Owner, set<Rule>>, done: set<Owner>, r: Rule): Option<Owner> {
    if exists o :: o in done && o in policies && r in policies[o]
    then Some(var o :| o in done && o in policies && r in policies[o]; o)
    else if r in index && index[r] !in done then Some(index[r])
    else None
  }

  /** `index` is what processing the policies in `done` makes of `start`. */
  ghost predicate Realizes(index: Index, start: Index, policies: map<Owner, set<Rule>>, done: set<Owner>) {
    forall r :: OwnerAfter(start, policies, done, r) == if r in index then Some(index[r]) else None
  }

  lemma RealizesNext(index: Index, start: Index, policies: map<Owner, set<Rule>>, done: set<Owner>, o: Owner)
    requires Apart(start, policies) && o in policies && done <= policies.Keys
    requires Realizes(index, start, policies, done)
    ensures !Conflict(index, o, policies[o])
    ensures Realizes(Apply(index, o, DeltaOf(index, o, policies[o])), start, policies, done + {o})
  {
    forall r <- policies[o] | r in index ensures index[r] == o {
      assert OwnerAfter(start, policies, done, r) == Some(index[r]);
    }
    var after := Apply(index, o, DeltaOf(index, o, policies[o]));
    forall r ensures OwnerAfter(start, policies, done + {o}, r) == if r in after then Some(after[r]) else None {
      assert OwnerAfter(start, policies, done, r) == if r in index then Some(index[r]) else None;
    }
  }

  lemma {:induction false} ProcessRealizes(index: Index, policies: map<Owner, set<Rule>>, order: seq<Owner>)
    requires Apart(index, policies) && forall o <- order :: o in policies
    ensures Realizes(Process(index, policies, order), index, policies, set o <- order)
  {
    if order != [] {
      var init, o := order[..|order| - 1], order[|order| - 1];
      ProcessRealizes(index, policies, init);
      RealizesNext(Process(index, policies, init), index, policies, (set p <- init), o);
      assert (set p <- order) == (set p <- init) + {o};
    }
  }

  /** Policies that are apart give the same index in every order, repetitions included. */
  lemma ProcessingIsConfluent(index: Index, policies: map<Owner, set<Rule>>, order: seq<Owner>, other: seq<Owner>)
    requires Apart(index, policies)
    requires (forall o <- order :: o in policies) && (forall o <- other :: o in policies)
    requires (set o <- order) == (set o <- other)
    ensures Process(index, policies, order) == Process(index, policies, other)
  {
    ProcessRealizes(index, policies, order);
    ProcessRealizes(index, policies, other);
    var a, b := Process(index, policies, order), Process(index, policies, other);
    forall r ensures (r in a <==> r in b) && (r in a ==> a[r] == b[r]) {
      assert OwnerAfter(index, policies, (set o <- order), r) == if r in a then Some(a[r]) else None;
    }
  }
}
