/**
 * Validation of selector lists, and the look-up of the selector a machine falls under: validation is
 * there to make the look-up independent of the order in which the index lists its hits.
 */
module SelectorIndex {
  import opened Wrappers
  import opened Text

  datatype Match = Match(name: string, id: string)

  datatype Selector = Selector(vpc: Option<Match>, vms: seq<Match>, agented: bool)

  predicate Blank(s: string) {
    TrimSpace(s) == ""
  }

  // ---------------------------------------------------------------------------------------------
  // Sections
  // ---------------------------------------------------------------------------------------------

  predicate NotBoth(m: Match) {
    Blank(m.id) || Blank(m.name)
  }

  predicate HasVpcName(s: Selector) {
    s.vpc.Some? && !Blank(s.vpc.value.name)
  }

  /** The combinations within one selector that the provider supports. */
  predicate Supported(azure: bool, s: Selector) {
    && (s.vpc.Some? || s.vms != [])
    && (s.vpc.Some? ==> NotBoth(s.vpc.value)) && (forall m <- s.vms :: NotBoth(m))
    && (HasVpcName(s) ==> !azure && !s.agented && forall m <- s.vms :: Blank(m.id) && Blank(m.name))
  }

  // ---------------------------------------------------------------------------------------------
  // Combinations
  // ---------------------------------------------------------------------------------------------

  datatype Class = VpcIdOnly | VmId | VmName | VmIdInVpc | VmNameInVpc

  /** What must be unique over the whole list; in a VPC the two ids are joined by a slash. */
  datatype Key = Key(c: Class, text: string)

  function MachineKeys(vpc: Option<Match>, m: Match): seq<Key> {
    if vpc.None? then [if m.id != "" then Key(VmId, m.id) else Key(VmName, m.name)]
    else if vpc.value.id == "" then []
    else if m.id != "" then [Key(VmIdInVpc, m.id + "/" + vpc.value.id), Key(VmId, m.id)]
    else [Key(VmNameInVpc, m.name + "/" + vpc.value.id)]
  }

  function MachinesKeys(vpc: Option<Match>, ms: seq<Match>): seq<Key> {
    if ms == [] then [] else MachinesKeys(vpc, ms[..|ms| - 1]) + MachineKeys(vpc, ms[|ms| - 1])
  }

  function KeysOf(s: Selector): seq<Key> {
    if s.vms == [] then
      if s.vpc.Some? && s.vpc.value.id != "" then [Key(VpcIdOnly, s.vpc.value.id)] else []
    else MachinesKeys(s.vpc, s.vms)
  }

  function AllKeys(sel: seq<Selector>): seq<Key> {
    if sel == [] then [] else AllKeys(sel[..|sel| - 1]) + KeysOf(sel[|sel| - 1])
  }

  predicate Distinct(ks: seq<Key>) {
    forall i, j :: 0 <= i < j < |ks| ==> ks[i] != ks[j]
  }

  /** The keys seen so far, and whether one of them came twice. */
  datatype Seen = Seen(keys: seq<Key>, clash: bool)

  predicate Tracks(s: Seen, ks: seq<Key>) {
    (!s.clash ==> s.keys == ks && Distinct(ks)) && (s.clash ==> !Distinct(ks))
  }

  lemma DistinctAppend(a: seq<Key>, b: seq<Key>)
    ensures Distinct(a + b) ==> Distinct(a) && Distinct(b)
  {
    if Distinct(a + b) {
      forall i, j | 0 <= i < j < |a| ensures a[i] != a[j] { assert (a + b)[i] != (a + b)[j]; }
      forall i, j | 0 <= i < j < |b| ensures b[i] != b[j] { assert (a + b)[|a| + i] != (a + b)[|a| + j]; }
    }
  }

  lemma DistinctSnoc(a: seq<Key>, k: Key)
    ensures Distinct(a + [k]) <==> Distinct(a) && k !in a
  {
    DistinctAppend(a, [k]);
    if k in a {
      var i :| 0 <= i < |a| && a[i] == k;
      assert (a + [k])[i] == (a + [k])[|a|];
    }
  }

  /** One map look-up: a key that is there is a clash, any other is inserted. */
  method Insert(seen: Seen, k: Key, ghost ks: seq<Key>) returns (r: Seen)
    requires Tracks(seen, ks)
    ensures Tracks(r, ks + [k])
  {
    DistinctSnoc(ks, k);
    if seen.clash { return seen; }
    if k in seen.keys { return seen.(clash := true); }
    r := Seen(seen.keys + [k], false);
  }

  method InsertMachine(seen: Seen, vpc: Option<Match>, m: Match, ghost ks: seq<Key>) returns (r: Seen)
    requires Tracks(seen, ks)
    ensures Tracks(r, ks + MachineKeys(vpc, m))
  {
    r := seen;
    if vpc.None? {
      if m.id != "" { r := Insert(r, Key(VmId, m.id), ks); } else { r := Insert(r, Key(VmName, m.name), ks); }
    } else if vpc.value.id == "" {
      assert ks + [] == ks;
    } else if m.id != "" {
      var inVpc := Key(VmIdInVpc, m.id + "/" + vpc.value.id);
      r := Insert(r, inVpc, ks);
      r := Insert(r, Key(VmId, m.id), ks + [inVpc]);
      assert ks + [inVpc] + [Key(VmId, m.id)] == ks + MachineKeys(vpc, m);
    } else {
      r := Insert(r, Key(VmNameInVpc, m.name + "/" + vpc.value.id), ks);
    }
  }

  lemma MachinesNext(vpc: Option<Match>, ms: seq<Match>, j: nat, ks: seq<Key>)
    requires j < |ms|
    ensures ks + MachinesKeys(vpc, ms[..j + 1]) == ks + MachinesKeys(vpc, ms[..j]) + MachineKeys(vpc, ms[j])
  {
    assert ms[..j + 1][..j] == ms[..j];
    var a, b := MachinesKeys(vpc, ms[..j]), MachineKeys(vpc, ms[j]);
    assert ks + (a + b) == ks + a + b;
  }

  method InsertMachines(seen: Seen, vpc: Option<Match>, ms: seq<Match>, ghost ks: seq<Key>) returns (r: Seen)
    requires Tracks(seen, ks)
    ensures Tracks(r, ks + MachinesKeys(vpc, ms))
  {
    r := seen;
    assert ks + [] == ks;
    for j := 0 to |ms|
      invariant Tracks(r, ks + MachinesKeys(vpc, ms[..j]))
    {
      MachinesNext(vpc, ms, j, ks);
      r := InsertMachine(r, vpc, ms[j], ks + MachinesKeys(vpc, ms[..j]));
    }
    assert ms[..|ms|] == ms;
  }

  method InsertSelector(seen: Seen, s: Selector, ghost ks: seq<Key>) returns (r: Seen)
    requires Tracks(seen, ks)
    ensures Tracks(r, ks + KeysOf(s))
  {
    r := seen;
    if s.vms == [] {
      if s.vpc.Some? && s.vpc.value.id != "" {
        r := Insert(r, Key(VpcIdOnly, s.vpc.value.id), ks);
      } else {
        assert ks + [] == ks;
      }
      return;
    }
    r := InsertMachines(r, s.vpc, s.vms, ks);
  }

  // ---------------------------------------------------------------------------------------------
  // Conflicts between entries
  // ---------------------------------------------------------------------------------------------

  /** A machine a selector names, or all of its VPC when it names none. */
  datatype Entry = Entry(vpc: Option<Match>, machine: Option<Match>)

  function MachineEntries(vpc: Option<Match>, ms: seq<Match>): seq<Entry> {
    seq(|ms|, j requires 0 <= j < |ms| => Entry(vpc, Some(ms[j])))
  }

  function EntriesOf(s: Selector): seq<Entry> {
    if s.vms == [] then [Entry(s.vpc, None)] else MachineEntries(s.vpc, s.vms)
  }

  function Entries(sel: seq<Selector>): seq<Entry> {
    if sel == [] then [] else Entries(sel[..|sel| - 1]) + EntriesOf(sel[|sel| - 1])
  }

  /** A machine in a VPC given by its name only is not compared with any other. */
  predicate Compared(e: Entry) {
    e.vpc.Some? ==> e.vpc.value.id != ""
  }

  /** Two texts joined with the ids of their VPCs come out the same. */
  predicate SamePath(a: string, v: Option<Match>, b: string, w: Option<Match>) {
    v.Some? && w.Some? && a + "/" + v.value.id == b + "/" + w.value.id
  }

  /**
   * Two entries that may not stand in one list: the same VPC twice, a machine id twice in whatever VPCs, a machine
   * name twice without VPCs, or two machines whose paths come out the same.
   */
  predicate Conflict(e: Entry, f: Entry) {
    && Compared(e) && Compared(f)
    && match (e.machine, f.machine)
       case (None, None) => e.vpc.Some? && e.vpc.value.id == f.vpc.UnwrapOr(Match("", "")).id
       case (Some(m), Some(n)) =>
         if m.id != "" && n.id != "" then m.id == n.id || SamePath(m.id, e.vpc, n.id, f.vpc)
         else m.id == n.id && ((e.vpc.None? && f.vpc.None? && m.name == n.name) || SamePath(m.name, e.vpc, n.name, f.vpc))
       case _ => false
  }

  predicate NoConflict(es: seq<Entry>) {
    forall i, j :: 0 <= i < j < |es| ==> !Conflict(es[i], es[j])
  }

  function EntryKeys(e: Entry): seq<Key> {
    if e.machine.Some? then MachineKeys(e.vpc, e.machine.value)
    else if e.vpc.Some? && e.vpc.value.id != "" then [Key(VpcIdOnly, e.vpc.value.id)] else []
  }

  function EntriesKeys(es: seq<Entry>): seq<Key> {
    if es == [] then [] else EntriesKeys(es[..|es| - 1]) + EntryKeys(es[|es| - 1])
  }

  lemma EntriesKeysSnoc(es: seq<Entry>, e: Entry)
    ensures EntriesKeys(es + [e]) == EntriesKeys(es) + EntryKeys(e)
  {
    assert (es + [e])[..|es|] == es;
  }

  lemma Reassociate(a: seq<Key>, b: seq<Key>, c: seq<Key>)
    ensures a + b + c == a + (b + c)
  {
  }

  lemma {:induction false} EntriesKeysAppend(a: seq<Entry>, b: seq<Entry>)
    ensures EntriesKeys(a + b) == EntriesKeys(a) + EntriesKeys(b)
  {
    if b == [] {
      assert a + b == a;
    } else {
      var init, last := b[..|b| - 1], b[|b| - 1];
      assert b == init + [last] && a + b == (a + init) + [last];
      EntriesKeysAppend(a, init);
      EntriesKeysSnoc(a + init, last);
      EntriesKeysSnoc(init, last);
      Reassociate(EntriesKeys(a), EntriesKeys(init), EntryKeys(last));
    }
  }

  lemma {:induction false} MachinesAreEntries(vpc: Option<Match>, ms: seq<Match>)
    ensures MachinesKeys(vpc, ms) == EntriesKeys(MachineEntries(vpc, ms))
  {
    if ms != [] {
      var init := ms[..|ms| - 1];
      MachinesAreEntries(vpc, init);
      assert MachineEntries(vpc, ms)[..|init|] == MachineEntries(vpc, init);
    }
  }

  lemma OneEntry(e: Entry)
    ensures EntriesKeys([e]) == EntryKeys(e)
  {
    EntriesKeysSnoc([], e);
    assert [] + [e] == [e];
  }

  lemma {:induction false} KeysOfAreEntries(s: Selector)
    ensures KeysOf(s) == EntriesKeys(EntriesOf(s))
  {
    if s.vms == [] {
      OneEntry(Entry(s.vpc, None));
    } else {
      MachinesAreEntries(s.vpc, s.vms);
    }
  }

  lemma {:induction false} KeysAreEntries(sel: seq<Selector>)
    ensures AllKeys(sel) == EntriesKeys(Entries(sel))
  {
    if sel != [] {
      KeysAreEntries(sel[..|sel| - 1]);
      EntriesKeysAppend(Entries(sel[..|sel| - 1]), EntriesOf(sel[|sel| - 1]));
      KeysOfAreEntries(sel[|sel| - 1]);
    }
  }

  predicate Share(a: seq<Key>, b: seq<Key>) {
    exists k <- a :: k in b
  }

  lemma EntryKeysShare(e: Entry, f: Entry)
    ensures Share(EntryKeys(e), EntryKeys(f)) <==> Conflict(e, f)
  {
    var a, b := EntryKeys(e), EntryKeys(f);
    assert forall k :: k in a <==> (|a| > 0 && k == a[0]) || (|a| > 1 && k == a[1]);
    assert forall k :: k in b <==> (|b| > 0 && k == b[0]) || (|b| > 1 && k == b[1]);
    if Conflict(e, f) { assert a[0] in b || a[|a| - 1] in b; }
  }

  lemma DistinctBoth(a: seq<Key>, b: seq<Key>)
    ensures Distinct(a + b) <==> Distinct(a) && Distinct(b) && !Share(a, b)
  {
    DistinctAppend(a, b);
    if Share(a, b) {
      var k :| k in a && k in b;
      var i :| 0 <= i < |a| && a[i] == k;
      var j :| 0 <= j < |b| && b[j] == k;
      assert (a + b)[i] == (a + b)[|a| + j];
    } else {
      forall i, j | 0 <= i < |a| && 0 <= j < |b| ensures a[i] != b[j] { assert a[i] in a && b[j] in b; }
    }
  }

  lemma {:induction false} ShareSome(es: seq<Entry>, f: Entry)
    ensures Share(EntriesKeys(es), EntryKeys(f)) <==> exists e <- es :: Conflict(e, f)
  {
    if es != [] {
      var init, last := es[..|es| - 1], es[|es| - 1];
      assert forall e :: e in es <==> e in init || e == last by { assert es == init + [last]; }
      ShareSome(init, f);
      EntryKeysShare(last, f);
      assert forall k :: k in EntriesKeys(es) <==> k in EntriesKeys(init) || k in EntryKeys(last);
    }
  }

  lemma {:induction false} NoConflictSnoc(es: seq<Entry>, f: Entry)
    ensures NoConflict(es + [f]) <==> NoConflict(es) && !exists e <- es :: Conflict(e, f)
  {
    var all := es + [f];
    assert all[|es|] == f && forall i :: 0 <= i < |es| ==> all[i] == es[i];
    if NoConflict(all) {
      forall i, j | 0 <= i < j < |es| ensures !Conflict(es[i], es[j]) { assert !Conflict(all[i], all[j]); }
      forall e <- es ensures !Conflict(e, f) {
        var i :| 0 <= i < |es| && es[i] == e;
        assert !Conflict(all[i], all[|es|]);
      }
    }
  }

  lemma {:induction false} DistinctEntries(es: seq<Entry>)
    ensures Distinct(EntriesKeys(es)) <==> NoConflict(es)
  {
    if es != [] {
      var init, last := es[..|es| - 1], es[|es| - 1];
      assert es == init + [last];
      DistinctEntries(init);
      DistinctBoth(EntriesKeys(init), EntryKeys(last));
      ShareSome(init, last);
      NoConflictSnoc(init, last);
    }
  }

  /** The keys are distinct exactly when no two entries of the list conflict, by what the entries say. */
  lemma DistinctMeansNoConflict(sel: seq<Selector>)
    ensures Distinct(AllKeys(sel)) <==> NoConflict(Entries(sel))
  {
    KeysAreEntries(sel);
    DistinctEntries(Entries(sel));
  }

  /** A list is accepted exactly when no two of its entries conflict. */
  method ValidateMatchCombinations(sel: seq<Selector>) returns (ok: bool)
    ensures ok <==> Distinct(AllKeys(sel))
    ensures ok <==> NoConflict(Entries(sel))
  {
    DistinctMeansNoConflict(sel);
    var seen := Seen([], false);
    for i := 0 to |sel|
      invariant Tracks(seen, AllKeys(sel[..i]))
    {
      assert sel[..i + 1][..i] == sel[..i];
      seen := InsertSelector(seen, sel[i], AllKeys(sel[..i]));
    }
    assert sel[..|sel|] == sel;
    ok := !seen.clash;
  }

  /** The sections are checked one selector after the other, the combinations over the whole list. */
  method ValidateMatchSections(azure: bool, sel: seq<Selector>) returns (ok: bool)
    ensures ok <==> (forall s <- sel :: Supported(azure, s)) && Distinct(AllKeys(sel))
    ensures ok <==> (forall s <- sel :: Supported(azure, s)) && NoConflict(Entries(sel))
  {
    for i := 0 to |sel|
      invariant forall j :: 0 <= j < i ==> Supported(azure, sel[j])
    {
      if !Supported(azure, sel[i]) { return false; }
    }
    ok := ValidateMatchCombinations(sel);
  }

  // ---------------------------------------------------------------------------------------------
  // Look-up
  // ---------------------------------------------------------------------------------------------

  /** The selectors that the index lists under a machine id in lower case, by their positions. */
  predicate IdHit(sel: seq<Selector>, id: string, i: nat) {
    i < |sel| && exists m <- sel[i].vms :: m.id != "" && Lower(m.id) == id
  }

  predicate NameHit(sel: seq<Selector>, name: string, i: nat) {
    i < |sel| && exists m <- sel[i].vms :: m.name != "" && Lower(m.name) == name
  }

  /** Some listing of exactly the hits. */
  ghost predicate ListsIdHits(order: seq<nat>, sel: seq<Selector>, id: string) {
    forall i: nat :: i in order <==> IdHit(sel, id, i)
  }

  ghost predicate ListsNameHits(order: seq<nat>, sel: seq<Selector>, name: string) {
    forall i: nat :: i in order <==> NameHit(sel, name, i)
  }

  function FirstOf(order: seq<nat>): Option<nat> {
    if order == [] then None else Some(order[0])
  }

  predicate ExactVpc(sel: seq<Selector>, vpc: string, i: nat) {
    i < |sel| && sel[i].vpc.Some? && sel[i].vpc.value.id == vpc
  }

  predicate NoVpc(sel: seq<Selector>, i: nat) {
    i < |sel| && sel[i].vpc.None?
  }

  /** The first hit of the machine's own VPC, else the last hit without VPC. */
  function BestOf(sel: seq<Selector>, vpc: string, order: seq<nat>): Option<nat> {
    if order == [] then None
    else if ExactVpc(sel, vpc, order[0]) then Some(order[0])
    else
      var rest := BestOf(sel, vpc, order[1..]);
      if rest.Some? then rest else if NoVpc(sel, order[0]) then Some(order[0]) else None
  }

  method FindByName(sel: seq<Selector>, vpc: string, order: seq<nat>) returns (r: Option<nat>)
    ensures r == BestOf(sel, vpc, order)
  {
    var partial: Option<nat> := None;
    ghost var goal := BestOf(sel, vpc, order);
    assert order[0..] == order;
    for k := 0 to |order|
      invariant partial.Some? ==> NoVpc(sel, partial.value)
      invariant goal == if BestOf(sel, vpc, order[k..]).Some? then BestOf(sel, vpc, order[k..]) else partial
    {
      assert order[k..][1..] == order[k + 1..];
      if ExactVpc(sel, vpc, order[k]) { return Some(order[k]); }
      if NoVpc(sel, order[k]) { partial := Some(order[k]); }
    }
    assert order[|order|..] == [];
    return partial;
  }

  predicate LowerCased(m: Match) {
    Lower(m.id) == m.id && Lower(m.name) == m.name
  }

  /** Every machine match has one of the two fields, in lower case, and every VPC match an id. */
  predicate Plain(s: Selector) {
    (s.vpc.Some? ==> s.vpc.value.id != "") && forall m <- s.vms :: (m.id == "" || m.name == "") && LowerCased(m)
  }

  lemma {:induction false} MachineKeyListed(vpc: Option<Match>, ms: seq<Match>, m: Match, k: Key)
    requires m in ms && k in MachineKeys(vpc, m)
    ensures k in MachinesKeys(vpc, ms)
  {
    var init, last := ms[..|ms| - 1], ms[|ms| - 1];
    assert ms == init + [last];
    if m in init { MachineKeyListed(vpc, init, m, k); }
  }

  lemma {:induction false} SelectorKeyListed(sel: seq<Selector>, i: nat, k: Key)
    requires i < |sel| && k in KeysOf(sel[i])
    ensures k in AllKeys(sel)
  {
    if i < |sel| - 1 { SelectorKeyListed(sel[..|sel| - 1], i, k); }
  }

  lemma NotInBoth(a: seq<Key>, b: seq<Key>, k: Key)
    requires Distinct(a + b)
    ensures !(k in a && k in b)
  {
    forall x, y | 0 <= x < |a| && 0 <= y < |b| ensures a[x] != b[y] {
      assert (a + b)[x] != (a + b)[|a| + y];
    }
  }

  lemma {:induction false} DistinctPrefix(sel: seq<Selector>, j: nat)
    requires Distinct(AllKeys(sel)) && j <= |sel|
    ensures Distinct(AllKeys(sel[..j]))
  {
    if j == |sel| {
      assert sel[..j] == sel;
    } else {
      var init := sel[..|sel| - 1];
      DistinctAppend(AllKeys(init), KeysOf(sel[|sel| - 1]));
      DistinctPrefix(init, j);
      assert init[..j] == sel[..j];
    }
  }

  /** No key of a distinct list belongs to two selectors. */
  lemma KeysApart(sel: seq<Selector>, i: nat, j: nat, k: Key)
    requires Distinct(AllKeys(sel)) && i < j < |sel|
    ensures !(k in KeysOf(sel[i]) && k in KeysOf(sel[j]))
  {
    var before := sel[..j];
    DistinctPrefix(sel, j + 1);
    assert sel[..j + 1][..j] == before && before[i] == sel[i];
    NotInBoth(AllKeys(before), KeysOf(sel[j]), k);
    if k in KeysOf(sel[i]) { SelectorKeyListed(before, i, k); }
  }

  lemma KeyHasOneSelector(sel: seq<Selector>, i: nat, j: nat, k: Key)
    requires Distinct(AllKeys(sel)) && i < |sel| && j < |sel| && k in KeysOf(sel[i]) && k in KeysOf(sel[j])
    ensures i == j
  {
    if i < j { KeysApart(sel, i, j, k); }
    if j < i { KeysApart(sel, j, i, k); }
  }

  lemma IdHitIsUnique(sel: seq<Selector>, id: string, i: nat, j: nat)
    requires Distinct(AllKeys(sel)) && (forall s <- sel :: Plain(s)) && IdHit(sel, id, i) && IdHit(sel, id, j)
    ensures i == j
  {
    IdKey(sel, id, i);
    IdKey(sel, id, j);
    KeyHasOneSelector(sel, i, j, Key(VmId, id));
  }

  lemma IdKey(sel: seq<Selector>, id: string, i: nat)
    requires (forall s <- sel :: Plain(s)) && IdHit(sel, id, i)
    ensures Key(VmId, id) in KeysOf(sel[i])
  {
    var m :| m in sel[i].vms && m.id != "" && Lower(m.id) == id;
    assert Plain(sel[i]) && LowerCased(m);
    MachineKeyListed(sel[i].vpc, sel[i].vms, m, Key(VmId, id));
  }

  lemma NameKey(sel: seq<Selector>, name: string, i: nat)
    requires (forall s <- sel :: Plain(s)) && NameHit(sel, name, i)
    ensures sel[i].vpc.None? ==> Key(VmName, name) in KeysOf(sel[i])
    ensures sel[i].vpc.Some? ==> Key(VmNameInVpc, name + "/" + sel[i].vpc.value.id) in KeysOf(sel[i])
  {
    var m :| m in sel[i].vms && m.name != "" && Lower(m.name) == name;
    assert Plain(sel[i]) && m.id == "" && LowerCased(m);
    MachineKeyListed(sel[i].vpc, sel[i].vms, m, MachineKeys(sel[i].vpc, m)[0]);
  }

  /** The selector chosen by machine id does not depend on the order of the hits. */
  lemma IdLookupIsUnambiguous(sel: seq<Selector>, id: string, order: seq<nat>, other: seq<nat>)
    requires Distinct(AllKeys(sel)) && forall s <- sel :: Plain(s)
    requires ListsIdHits(order, sel, id) && ListsIdHits(other, sel, id)
    ensures FirstOf(order) == FirstOf(other)
  {
    assert order != [] ==> order[0] in other;
    assert other != [] ==> other[0] in order;
    if order != [] && other != [] { IdHitIsUnique(sel, id, order[0], other[0]); }
  }

  lemma {:induction false} BestIsListed(sel: seq<Selector>, vpc: string, order: seq<nat>)
    ensures BestOf(sel, vpc, order).Some? ==>
            BestOf(sel, vpc, order).value in order &&
            (ExactVpc(sel, vpc, BestOf(sel, vpc, order).value) || NoVpc(sel, BestOf(sel, vpc, order).value))
    ensures (exists i <- order :: ExactVpc(sel, vpc, i)) ==>
            BestOf(sel, vpc, order).Some? && ExactVpc(sel, vpc, BestOf(sel, vpc, order).value)
    ensures (exists i <- order :: NoVpc(sel, i)) ==> BestOf(sel, vpc, order).Some?
  {
    if order != [] {
      BestIsListed(sel, vpc, order[1..]);
      assert order == [order[0]] + order[1..];
    }
  }

  /** The selector chosen by machine name, its own VPC before none, does not depend on it either. */
  lemma NameLookupIsUnambiguous(sel: seq<Selector>, name: string, vpc: string, order: seq<nat>, other: seq<nat>)
    requires Distinct(AllKeys(sel)) && forall s <- sel :: Plain(s)
    requires ListsNameHits(order, sel, name) && ListsNameHits(other, sel, name)
    ensures BestOf(sel, vpc, order) == BestOf(sel, vpc, other)
  {
    var a, b := BestOf(sel, vpc, order), BestOf(sel, vpc, other);
    BestIsListed(sel, vpc, order);
    BestIsListed(sel, vpc, other);
    assert forall i: nat :: i in order <==> i in other;
    if a.Some? && b.Some? {
      NameKey(sel, name, a.value);
      NameKey(sel, name, b.value);
      if ExactVpc(sel, vpc, a.value) {
        KeyHasOneSelector(sel, a.value, b.value, Key(VmNameInVpc, name + "/" + vpc));
      } else {
        KeyHasOneSelector(sel, a.value, b.value, Key(VmName, name));
      }
    }
  }

  // ---------------------------------------------------------------------------------------------
  // When look-up depends on the order
  // ---------------------------------------------------------------------------------------------

  predicate NoRepeats(order: seq<nat>) {
    forall a, b :: 0 <= a < b < |order| ==> order[a] != order[b]
  }

  /** Any set can be listed without repetition, from one of its elements to another. */
  lemma {:induction false} ListBetween(s: set<nat>, i: nat, j: nat) returns (order: seq<nat>)
    requires i in s && j in s && i != j
    ensures |order| >= 2 && order[0] == i && order[|order| - 1] == j && NoRepeats(order)
    ensures forall k: nat :: k in order <==> k in s
    decreases s
  {
    if s == {i, j} {
      order := [i, j];
    } else {
      var k :| k in s && k != i && k != j;
      var rest := ListBetween(s - {k}, i, j);
      order := [i, k] + rest[1..];
      Inserted(rest, k);
      forall n: nat ensures n in order <==> n in s {
        assert n in rest <==> n in s - {k};
      }
    }
  }

  lemma Inserted(rest: seq<nat>, k: nat)
    requires rest != [] && k !in rest && NoRepeats(rest)
    ensures NoRepeats([rest[0], k] + rest[1..])
    ensures forall n: nat :: n in [rest[0], k] + rest[1..] <==> n == k || n in rest
  {
    var order := [rest[0], k] + rest[1..];
    forall a, b | 0 <= a < b < |order| ensures order[a] != order[b] {
      assert order[b] == if b == 1 then k else rest[b - 1];
      assert order[a] == if a == 0 then rest[0] else if a == 1 then k else rest[a - 1];
    }
    assert rest == [rest[0]] + rest[1..];
  }

  /** No two selectors hold machine ids that are equal in lower case. */
  predicate IdsApart(sel: seq<Selector>) {
    forall i, j :: 0 <= i < j < |sel| ==> forall m <- sel[i].vms, n <- sel[j].vms ::
      m.id != "" && n.id != "" ==> Lower(m.id) != Lower(n.id)
  }

  /** Every listing of the hits of every id starts alike. */
  ghost predicate IdsClear(sel: seq<Selector>) {
    forall id, order, other | ListsIdHits(order, sel, id) && ListsIdHits(other, sel, id) :: FirstOf(order) == FirstOf(other)
  }

  /** Two hits: two listings start differently. */
  lemma IdClash(sel: seq<Selector>, id: string, i: nat, j: nat)
    requires i != j && IdHit(sel, id, i) && IdHit(sel, id, j)
    ensures !IdsClear(sel)
  {
    var s := set k: nat | k < |sel| && IdHit(sel, id, k);
    var order := ListBetween(s, i, j);
    var other := ListBetween(s, j, i);
    assert ListsIdHits(order, sel, id) && ListsIdHits(other, sel, id);
    assert FirstOf(order) != FirstOf(other);
  }

  lemma IdApart(sel: seq<Selector>, id: string, i: nat, j: nat)
    requires IdsApart(sel) && IdHit(sel, id, i) && IdHit(sel, id, j)
    ensures i == j
  {
    var m :| m in sel[i].vms && m.id != "" && Lower(m.id) == id;
    var n :| n in sel[j].vms && n.id != "" && Lower(n.id) == id;
  }

  /** Look-up by id is independent of the order of the hits exactly when no ids coincide in lower case. */
  lemma IdLookupIsClear(sel: seq<Selector>)
    ensures IdsClear(sel) <==> IdsApart(sel)
  {
    if IdsApart(sel) {
      forall id, order, other | ListsIdHits(order, sel, id) && ListsIdHits(other, sel, id)
        ensures FirstOf(order) == FirstOf(other)
      {
        assert order != [] ==> order[0] in other;
        assert other != [] ==> other[0] in order;
        if order != [] && other != [] { IdApart(sel, id, order[0], other[0]); }
      }
    }
    if IdsClear(sel) {
      forall i, j | 0 <= i < j < |sel|
        ensures forall m <- sel[i].vms, n <- sel[j].vms :: m.id != "" && n.id != "" ==> Lower(m.id) != Lower(n.id)
      {
        forall m <- sel[i].vms, n <- sel[j].vms | m.id != "" && n.id != "" ensures Lower(m.id) != Lower(n.id) {
          if Lower(m.id) == Lower(n.id) { IdClash(sel, Lower(m.id), i, j); }
        }
      }
    }
  }

  /** Both selectors are about no VPC, or both about the VPC with the same id. */
  predicate SameVpc(s: Selector, t: Selector) {
    if s.vpc.None? then t.vpc.None? else t.vpc.Some? && s.vpc.value.id == t.vpc.value.id
  }

  /** No two selectors of the same VPC hold machine names that are equal in lower case. */
  predicate NamesApart(sel: seq<Selector>) {
    forall i, j :: 0 <= i < j < |sel| && SameVpc(sel[i], sel[j]) ==> forall m <- sel[i].vms, n <- sel[j].vms ::
      m.name != "" && n.name != "" ==> Lower(m.name) != Lower(n.name)
  }

  /** Whatever the name and the VPC of the machine, every listing of the hits has the same best one. */
  ghost predicate NamesClear(sel: seq<Selector>) {
    forall name, vpc, order, other | ListsNameHits(order, sel, name) && ListsNameHits(other, sel, name) ::
      BestOf(sel, vpc, order) == BestOf(sel, vpc, other)
  }

  lemma NameApart(sel: seq<Selector>, name: string, i: nat, j: nat)
    requires NamesApart(sel) && NameHit(sel, name, i) && NameHit(sel, name, j) && SameVpc(sel[i], sel[j])
    ensures i == j
  {
    var m :| m in sel[i].vms && m.name != "" && Lower(m.name) == name;
    var n :| n in sel[j].vms && n.name != "" && Lower(n.name) == name;
  }

  lemma BestIsUnique(sel: seq<Selector>, name: string, vpc: string, order: seq<nat>, other: seq<nat>)
    requires NamesApart(sel) && ListsNameHits(order, sel, name) && ListsNameHits(other, sel, name)
    ensures BestOf(sel, vpc, order) == BestOf(sel, vpc, other)
  {
    var a, b := BestOf(sel, vpc, order), BestOf(sel, vpc, other);
    BestIsListed(sel, vpc, order);
    BestIsListed(sel, vpc, other);
    assert forall i: nat :: i in order <==> i in other;
    if a.Some? && b.Some? { NameApart(sel, name, a.value, b.value); }
  }

  /** Without a hit of the machine's VPC the last hit without VPC is taken. */
  lemma {:induction false} BestIsLast(sel: seq<Selector>, vpc: string, order: seq<nat>)
    requires order != [] && NoVpc(sel, order[|order| - 1]) && forall i <- order :: !ExactVpc(sel, vpc, i)
    ensures BestOf(sel, vpc, order) == Some(order[|order| - 1])
  {
    if |order| > 1 { BestIsLast(sel, vpc, order[1..]); }
  }

  /** A VPC id no selector mentions. */
  lemma {:induction false} FreshVpc(sel: seq<Selector>) returns (vpc: string)
    ensures forall s <- sel :: s.vpc.Some? ==> |s.vpc.value.id| < |vpc|
  {
    if sel == [] {
      vpc := "";
    } else {
      vpc := FreshVpc(sel[1..]);
      if sel[0].vpc.Some? { vpc := vpc + sel[0].vpc.value.id + "x"; }
      assert sel == [sel[0]] + sel[1..];
    }
  }

  /** Two hits of one VPC, or without VPC: two listings have different best ones. */
  lemma NameClash(sel: seq<Selector>, name: string, i: nat, j: nat)
    requires i != j && NameHit(sel, name, i) && NameHit(sel, name, j) && SameVpc(sel[i], sel[j])
    ensures !NamesClear(sel)
  {
    var s := set k: nat | k < |sel| && NameHit(sel, name, k);
    var order := ListBetween(s, i, j);
    var other := ListBetween(s, j, i);
    assert ListsNameHits(order, sel, name) && ListsNameHits(other, sel, name);
    var vpc: string;
    if sel[i].vpc.Some? {
      vpc := sel[i].vpc.value.id;
    } else {
      vpc := FreshVpc(sel);
      assert forall k: nat :: !ExactVpc(sel, vpc, k);
      BestIsLast(sel, vpc, order);
      BestIsLast(sel, vpc, other);
    }
    assert BestOf(sel, vpc, order) != BestOf(sel, vpc, other);
  }

  /** Look-up by name is independent of the order exactly when no names coincide in one VPC, or in none. */
  lemma NameLookupIsClear(sel: seq<Selector>)
    ensures NamesClear(sel) <==> NamesApart(sel)
  {
    if NamesApart(sel) {
      forall name, vpc, order, other | ListsNameHits(order, sel, name) && ListsNameHits(other, sel, name)
        ensures BestOf(sel, vpc, order) == BestOf(sel, vpc, other)
      {
        BestIsUnique(sel, name, vpc, order, other);
      }
    }
    if NamesClear(sel) {
      forall i, j | 0 <= i < j < |sel| && SameVpc(sel[i], sel[j])
        ensures forall m <- sel[i].vms, n <- sel[j].vms :: m.name != "" && n.name != "" ==> Lower(m.name) != Lower(n.name)
      {
        forall m <- sel[i].vms, n <- sel[j].vms | m.name != "" && n.name != "" ensures Lower(m.name) != Lower(n.name) {
          if Lower(m.name) == Lower(n.name) { NameClash(sel, Lower(m.name), i, j); }
        }
      }
    }
  }

  /** Two selectors by machine id, which differ in case and in what they select the machine for. */
  function CaseTwins(): seq<Selector> {
    [Selector(None, [Match("", "A")], true), Selector(None, [Match("", "a")], false)]
  }

  lemma TwinKeys()
    ensures Distinct(AllKeys(CaseTwins()))
  {
    var sel := CaseTwins();
    OneKey(sel[0], Match("", "A"));
    OneKey(sel[1], Match("", "a"));
    assert sel[..1] == [sel[0]] && [sel[0]][..0] == [];
    assert AllKeys([sel[0]]) == [] + KeysOf(sel[0]);
    assert AllKeys(sel) == [Key(VmId, "A"), Key(VmId, "a")];
    assert "A"[0] != "a"[0];
  }

  lemma TwinsHit()
    ensures IdHit(CaseTwins(), "a", 0) && IdHit(CaseTwins(), "a", 1)
  {
    assert Lower("A") == "a" && Lower("a") == "a";
    assert Match("", "A") in CaseTwins()[0].vms && Match("", "a") in CaseTwins()[1].vms;
  }

  /** Ids that differ only in case pass validation and still share an index entry. */
  lemma MixedCaseIsAmbiguous()
    ensures var sel := CaseTwins();
            && Distinct(AllKeys(sel)) && Supported(false, sel[0]) && Supported(false, sel[1])
            && IdHit(sel, "a", 0) && IdHit(sel, "a", 1) && sel[0].agented != sel[1].agented
            && !IdsClear(sel)
  {
    TwinKeys();
    TwinsHit();
    assert TrimSpace("") == "";
    IdClash(CaseTwins(), "a", 0, 1);
  }

  lemma OneKey(s: Selector, m: Match)
    requires s.vpc.None? && s.vms == [m] && m.id != ""
    ensures KeysOf(s) == [Key(VmId, m.id)]
  {
    assert s.vms[..0] == [] && MachinesKeys(s.vpc, s.vms[..0]) == [];
    assert [] + [Key(VmId, m.id)] == [Key(VmId, m.id)];
  }
}
