/**
 * Matching two lists entry by entry: every entry of one list uses up at most one equal entry of the
 * other, which is cleared where it stands.
 */
module Matching {
  import opened Wrappers

  /** The entries whose equals in `other` are used up by the entries before them, in order. */
  function Unmatched<P(==)>(local: seq<P>, other: multiset<P>): seq<P> {
    if local == [] then []
    else
      var init, last := local[..|local| - 1], local[|local| - 1];
      if multiset(init)[last] < other[last] then Unmatched(init, other) else Unmatched(init, other) + [last]
  }

  /** Against an empty list nothing is matched. */
  lemma {:induction false} UnmatchedNone<P>(local: seq<P>)
    ensures Unmatched(local, multiset{}) == local
  {
    if local != [] {
      UnmatchedNone(local[..|local| - 1]);
      assert local == local[..|local| - 1] + [local[|local| - 1]];
    }
  }

  /** What is left is the multiset difference of the two lists. */
  lemma {:induction false} UnmatchedIsDifference<P>(local: seq<P>, other: multiset<P>)
    ensures multiset(Unmatched(local, other)) == multiset(local) - other
  {
    if local != [] {
      var init, last := local[..|local| - 1], local[|local| - 1];
      assert local == init + [last];
      UnmatchedIsDifference(init, other);
    }
  }

  /** `sub` is obtained from `s` by leaving elements out. */
  predicate Subsequence<P(==)>(sub: seq<P>, s: seq<P>) {
    if sub == [] then true
    else if s == [] then false
    else if sub[|sub| - 1] == s[|s| - 1] && Subsequence(sub[..|sub| - 1], s[..|s| - 1]) then true
    else Subsequence(sub, s[..|s| - 1])
  }

  /** What is left keeps its order. */
  lemma {:induction false} UnmatchedInOrder<P>(local: seq<P>, other: multiset<P>)
    ensures Subsequence(Unmatched(local, other), local)
  {
    if local != [] {
      var init, last := local[..|local| - 1], local[|local| - 1];
      UnmatchedInOrder(init, other);
      var u := Unmatched(init, other);
      assert (u + [last])[..|u|] == u;
    }
  }

  lemma UnmatchedNext<P>(all: seq<P>, i: nat, other: multiset<P>)
    requires i < |all|
    ensures Unmatched(all[..i + 1], other) ==
            Unmatched(all[..i], other) + if multiset(all[..i])[all[i]] < other[all[i]] then [] else [all[i]]
    ensures multiset(all[..i + 1]) == multiset(all[..i]) + multiset{all[i]}
  {
    assert all[..i + 1] == all[..i] + [all[i]];
    assert all[..i + 1][..i] == all[..i];
  }

  function RemoveFirst<P(==)>(s: seq<P>, p: P): seq<P> {
    if s == [] then [] else if s[0] == p then s[1..] else [s[0]] + RemoveFirst(s[1..], p)
  }

  lemma {:induction false} RemoveFirstSplit<P>(a: seq<P>, b: seq<P>, p: P)
    ensures RemoveFirst(a + b, p) == if p in a then RemoveFirst(a, p) + b else a + RemoveFirst(b, p)
  {
    if a == [] {
      assert a + b == b && [] + RemoveFirst(b, p) == RemoveFirst(b, p);
    } else {
      var rest := a[1..];
      assert (a + b)[1..] == rest + b && (a + b)[0] == a[0];
      assert p in a <==> a[0] == p || p in rest by { assert a == [a[0]] + rest; }
      if a[0] != p {
        RemoveFirstSplit(rest, b, p);
        assert [a[0]] + (RemoveFirst(rest, p) + b) == [a[0]] + RemoveFirst(rest, p) + b;
        assert [a[0]] + (rest + RemoveFirst(b, p)) == a + RemoveFirst(b, p);
      }
    }
  }

  lemma {:induction false} RemoveFirstMultiset<P>(s: seq<P>, p: P)
    ensures multiset(RemoveFirst(s, p)) == multiset(s) - multiset{p}
  {
    if s != [] {
      assert s == [s[0]] + s[1..];
      RemoveFirstMultiset(s[1..], p);
      if s[0] != p { TakeElsewhere(s[0], multiset(s[1..]), p); }
    }
  }

  lemma TakeElsewhere<P>(q: P, m: multiset<P>, p: P)
    requires q != p
    ensures multiset{q} + (m - multiset{p}) == (multiset{q} + m) - multiset{p}
  {
  }

  lemma UnmatchedCount<P>(local: seq<P>, other: multiset<P>, p: P)
    ensures p in Unmatched(local, other) <==> multiset(local)[p] > other[p]
  {
    UnmatchedIsDifference(local, other);
    assert p in Unmatched(local, other) <==> p in multiset(Unmatched(local, other));
  }

  lemma RemoveFirstAbsent<P>(s: seq<P>, p: P)
    requires p !in s
    ensures RemoveFirst(s, p) == s
  {
    RemoveFirstSplit(s, [], p);
    assert s + [] == s;
  }

  /** One more entry to match takes away the first one that was left. */
  lemma {:induction false} UnmatchedPlus<P>(local: seq<P>, other: multiset<P>, p: P)
    ensures Unmatched(local, other + multiset{p}) == RemoveFirst(Unmatched(local, other), p)
  {
    if local != [] {
      var init, last := local[..|local| - 1], local[|local| - 1];
      var u := Unmatched(init, other);
      UnmatchedPlus(init, other, p);
      UnmatchedCount(init, other, p);
      RemoveFirstSplit(u, [last], p);
      if p !in u { RemoveFirstAbsent(u, p); }
    }
  }

  // ---------------------------------------------------------------------------------------------
  // In place
  // ---------------------------------------------------------------------------------------------

  /** The entries of a list that are not cleared. */
  function Compact<P>(s: seq<Option<P>>): seq<P> {
    if s == [] then []
    else Compact(s[..|s| - 1]) + if s[|s| - 1].Some? then [s[|s| - 1].value] else []
  }

  lemma {:induction false} CompactAppend<P>(a: seq<Option<P>>, b: seq<Option<P>>)
    ensures Compact(a + b) == Compact(a) + Compact(b)
  {
    if b == [] {
      assert a + b == a;
    } else {
      assert (a + b)[..|a + b| - 1] == a + b[..|b| - 1];
      CompactAppend(a, b[..|b| - 1]);
    }
  }

  lemma CompactDrop<P>(s: seq<Option<P>>, i: nat)
    requires i < |s|
    ensures Compact(s[i..]) == (if s[i].Some? then [s[i].value] else []) + Compact(s[i + 1..])
  {
    assert s[i..] == [s[i]] + s[i + 1..];
    CompactAppend([s[i]], s[i + 1..]);
    assert [s[i]][..0] == [];
  }

  lemma {:induction false} CompactMember<P>(s: seq<Option<P>>, p: P)
    ensures p in Compact(s) <==> Some(p) in s
  {
    if s != [] {
      CompactMember(s[..|s| - 1], p);
      assert s == s[..|s| - 1] + [s[|s| - 1]];
    }
  }

  lemma CompactAround<P>(a: seq<Option<P>>, x: Option<P>, b: seq<Option<P>>)
    ensures Compact(a + ([x] + b)) == Compact(a) + ((if x.Some? then [x.value] else []) + Compact(b))
  {
    CompactAppend(a, [x] + b);
    CompactAppend([x], b);
    assert [x][..0] == [];
    assert Compact([x]) == if x.Some? then [x.value] else [];
  }

  /** Clearing the first copy of an entry. */
  lemma CompactCleared<P>(s: seq<Option<P>>, k: nat, p: P)
    requires k < |s| && s[k] == Some(p) && Some(p) !in s[..k]
    ensures Compact(s[k := None]) == RemoveFirst(Compact(s), p)
  {
    var a, b := s[..k], s[k + 1..];
    CompactMember(a, p);
    assert s == a + ([Some(p)] + b) && s[k := None] == a + ([None] + b);
    CompactAround(a, Some(p), b);
    CompactAround(a, None, b);
    assert [] + Compact(b) == Compact(b);
    RemoveFirstSplit(Compact(a), [p] + Compact(b), p);
    assert ([p] + Compact(b))[1..] == Compact(b);
  }

  function Somes<P>(s: seq<P>): seq<Option<P>> {
    seq(|s|, i requires 0 <= i < |s| => Some(s[i]))
  }

  lemma {:induction false} CompactSomes<P>(s: seq<P>)
    ensures Compact(Somes(s)) == s
  {
    if s != [] {
      CompactSomes(s[..|s| - 1]);
      assert Somes(s)[..|s| - 1] == Somes(s[..|s| - 1]);
    }
  }

  /** Looks for an entry equal to `p` and uses it up. */
  method Match<P(==)>(p: P, entries: array<Option<P>>) returns (found: bool)
    modifies entries
    ensures found <==> p in Compact(old(entries[..]))
    ensures Compact(entries[..]) == RemoveFirst(Compact(old(entries[..])), p)
  {
    CompactMember(entries[..], p);
    for k := 0 to entries.Length
      invariant entries[..] == old(entries[..])
      invariant forall j :: 0 <= j < k ==> entries[j] != Some(p)
    {
      if entries[k] == Some(p) {
        CompactCleared(entries[..], k, p);
        ghost var before := entries[..];
        entries[k] := None;
        assert entries[..] == before[k := None];
        return true;
      }
    }
    assert Some(p) !in entries[..];
    RemoveFirstAbsent(Compact(entries[..]), p);
    return false;
  }

  /** The entries that `used` has not used up. */
  ghost predicate Left<P(!new)>(entries: seq<Option<P>>, have: multiset<P>, used: multiset<P>) {
    forall p :: multiset(Compact(entries))[p] == (have - used)[p]
  }

  /** `Match`, seen from the entries used up so far. */
  method Use<P(==,!new)>(p: P, entries: array<Option<P>>, ghost have: multiset<P>, ghost used: multiset<P>) returns (found: bool)
    requires Left(entries[..], have, used)
    modifies entries
    ensures found <==> used[p] < have[p]
    ensures Left(entries[..], have, used + multiset{p})
  {
    RemoveFirstMultiset(Compact(entries[..]), p);
    assert p in Compact(entries[..]) <==> p in multiset(Compact(entries[..]));
    found := Match(p, entries);
  }
}
