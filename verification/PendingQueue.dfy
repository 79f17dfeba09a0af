/**
 * The queue of pending items and its retry counters. What a queued item answers when the queue asks it
 * (may it run, is it to be dropped, is it done after running) is a parameter of each call.
 */
module PendingQueue {
  import opened Wrappers

  type Key = string

  /** `RunOrDeletePendingItem` answers `run` and `del`; `RunPendingItem`, when called, answers `done`. */
  datatype Reply = Reply(run: bool, del: bool, done: bool)

  /** A queued item: the retries it has left, if they are counted, and how often it ran since it was added. */
  datatype Item = Item(count: Option<int>, runs: nat)

  datatype Outcome = Outcome(item: Item, kept: bool)

  datatype Call = Update(reply: Reply) | Sweep(reply: Reply)

  // ---------------------------------------------------------------------------------------------
  // One item
  // ---------------------------------------------------------------------------------------------

  /** Fewer than `least` retries are left. */
  predicate Spent(count: Option<int>, least: int) {
    count.Some? && count.value < least
  }

  /** `ran`: whether the item really ran; `least`: how many retries must be left for it to stay. */
  function Answered(i: Item, reply: Reply, ran: bool, least: int): Outcome {
    var count := if reply.run && i.count.Some? then Some(i.count.value - 1) else i.count;
    Outcome(Item(count, if ran then i.runs + 1 else i.runs),
            !reply.del && !(ran && reply.done) && !Spent(count, least))
  }

  /** An update runs an item even when no retry is left, a sweep does not. */
  function Asked(i: Item, c: Call): Outcome {
    match c
    case Update(reply) => Answered(i, reply, reply.run, 1)
    case Sweep(reply) => Answered(i, reply, reply.run && !Spent(i.count, 1), 0)
  }

  /** The item after the calls made while it is queued; calls after its removal do not reach it. */
  function Life(o: Outcome, cs: seq<Call>): Outcome
    decreases cs
  {
    if cs == [] || !o.kept then o else Life(Asked(o.item, cs[0]), cs[1..])
  }

  /** Queued with `n` retries, an item has used one for each run so far. */
  predicate Balanced(n: int, i: Item) {
    i.count.Some? && 0 <= i.count.value <= n && i.count.value + i.runs == n
  }

  predicate OnlySweeps(cs: seq<Call>) {
    forall c <- cs :: c.Sweep?
  }

  /** A call keeps the balance of a queued item, and the one that removes it runs it at most once more. */
  lemma AskedBalanced(n: int, i: Item, c: Call)
    requires Balanced(n, i)
    ensures Asked(i, c).kept ==> Balanced(n, Asked(i, c).item)
    ensures Asked(i, c).item.runs <= if c.Sweep? then n else n + 1
  {
  }

  lemma {:induction false} LifeBalanced(n: int, o: Outcome, cs: seq<Call>)
    requires o.kept && Balanced(n, o.item)
    ensures Life(o, cs).kept ==> Balanced(n, Life(o, cs).item)
    ensures Life(o, cs).item.runs <= n + 1
    ensures OnlySweeps(cs) ==> Life(o, cs).item.runs <= n
    decreases cs
  {
    if cs != [] {
      AskedBalanced(n, o.item, cs[0]);
      if Asked(o.item, cs[0]).kept {
        LifeBalanced(n, Asked(o.item, cs[0]), cs[1..]);
      }
    }
  }

  /**
   * Retry is bounded under any mix of sweeps and updates: while queued the counter stays within
   * 0..n, and from insertion to removal the item runs at most n + 1 times, n times if only sweeps run it.
   */
  lemma RetryIsBounded(n: nat, cs: seq<Call>)
    ensures var o := Life(Outcome(Item(Some(n), 0), true), cs);
            && (o.kept ==> 0 <= o.item.count.UnwrapOr(-1) <= n)
            && o.item.runs <= n + 1
            && (OnlySweeps(cs) ==> o.item.runs <= n)
  {
    LifeBalanced(n, Outcome(Item(Some(n), 0), true), cs);
  }

  /** The bound is met: sweeps that find the item ready use up the retries, and an update runs it once more. */
  lemma {:induction false} RetryBoundIsMet(n: nat, r: nat, i: Item)
    requires i == Item(Some(n), r)
    ensures var sweeps := seq(n, _ => Sweep(Reply(true, false, false)));
            && Life(Outcome(i, true), sweeps) == Outcome(Item(Some(0), r + n), true)
            && Asked(Item(Some(0), r + n), Update(Reply(true, false, false))) == Outcome(Item(Some(-1), r + n + 1), false)
  {
    if n > 0 {
      var sweeps := seq(n, _ => Sweep(Reply(true, false, false)));
      assert sweeps[1..] == seq(n - 1, _ => Sweep(Reply(true, false, false)));
      RetryBoundIsMet(n - 1, r + 1, Item(Some(n - 1), r + 1));
    }
  }

  function RepliesToRun(cs: seq<Call>): nat {
    if cs == [] then 0 else RepliesToRun(cs[..|cs| - 1]) + if cs[|cs| - 1].reply.run then 1 else 0
  }

  /**
   * The call keeps an item of `n` retries, told from the replies alone: it is not to be dropped, it did not run and
   * finish, and the retries suffice; a sweep does not run an item without retries, an update wants one left.
   */
  predicate Keeps(n: int, cs: seq<Call>, k: nat)
    requires k < |cs|
  {
    var (reply, before, after) := (cs[k].reply, n - RepliesToRun(cs[..k]), n - RepliesToRun(cs[..k + 1]));
    && !reply.del
    && !(reply.run && reply.done && (cs[k].Update? || before >= 1))
    && after >= (if cs[k].Update? then 1 else 0)
  }

  predicate KeepsAll(n: int, cs: seq<Call>) {
    forall k :: 0 <= k < |cs| ==> Keeps(n, cs, k)
  }

  lemma {:induction false} LifeSnoc(o: Outcome, cs: seq<Call>, c: Call)
    ensures Life(o, cs + [c]) == if Life(o, cs).kept then Asked(Life(o, cs).item, c) else Life(o, cs)
    decreases cs
  {
    if cs == [] {
      assert cs + [c] == [c] && [c][1..] == [];
    } else if o.kept {
      assert (cs + [c])[1..] == cs[1..] + [c];
      LifeSnoc(Asked(o.item, cs[0]), cs[1..], c);
    }
  }

  lemma KeepsAllSnoc(n: int, cs: seq<Call>, c: Call)
    ensures KeepsAll(n, cs + [c]) <==> KeepsAll(n, cs) && Keeps(n, cs + [c], |cs|)
  {
    var all := cs + [c];
    forall k | 0 <= k < |cs| ensures Keeps(n, all, k) <==> Keeps(n, cs, k) {
      assert all[..k] == cs[..k] && all[..k + 1] == cs[..k + 1];
    }
  }

  /** An item is still queued exactly if every call so far kept it, and then has used one retry for each reply to run. */
  lemma {:induction false} ItemStaysExactly(n: nat, cs: seq<Call>)
    ensures var o := Life(Outcome(Item(Some(n), 0), true), cs);
            && (o.kept <==> KeepsAll(n, cs))
            && (o.kept ==> o.item == Item(Some(n - RepliesToRun(cs)), RepliesToRun(cs)))
  {
    if cs != [] {
      var init, last := cs[..|cs| - 1], cs[|cs| - 1];
      assert cs == init + [last];
      ItemStaysExactly(n, init);
      LifeSnoc(Outcome(Item(Some(n), 0), true), init, last);
      KeepsAllSnoc(n, init, last);
      assert cs[..|init| + 1] == cs;
    }
  }

  // ---------------------------------------------------------------------------------------------
  // The queue
  // ---------------------------------------------------------------------------------------------

  /** What becomes of the items when one of them is asked. */
  function Settle(items: map<Key, Item>, id: Key, o: Outcome): map<Key, Item> {
    if o.kept then items[id := o.item] else items - {id}
  }

  class PendingItemQueue {
    var items: map<Key, Item>
    const retryCount: Option<nat>

    /** Every queued item is balanced, or uncounted like the queue itself. */
    ghost predicate Valid()
      reads this
    {
      forall k <- items :: match retryCount case None => items[k].count.None? case Some(n) => Balanced(n, items[k])
    }

    constructor (retryCount: Option<nat>)
      ensures Valid() && this.retryCount == retryCount && items == map[]
    {
      items := map[];
      this.retryCount := retryCount;
    }

    /** A key that is already queued keeps its item. */
    method Add(id: Key)
      requires Valid()
      modifies this
      ensures Valid()
      ensures items == if id in old(items) then old(items) else old(items)[id := Item(retryCount, 0)]
    {
      if id !in items { items := items[id := Item(retryCount, 0)]; }
    }

    method Remove(id: Key)
      requires Valid()
      modifies this
      ensures Valid()
      ensures items == old(items) - {id}
    {
      items := items - {id};
    }

    method Update(id: Key, checkRun: bool, reply: Reply) returns (found: bool)
      requires Valid()
      modifies this
      ensures Valid()
      ensures found == (id in old(items))
      ensures items == if found && checkRun then Settle(old(items), id, Asked(old(items)[id], Call.Update(reply))) else old(items)
    {
      if id !in items { return false; }
      found := true;
      if !checkRun { return; }
      var i := items[id];
      var del := reply.del;
      if del { Remove(id); }
      if reply.run {
        del := reply.done;
        i := i.(runs := i.runs + 1);
        if i.count.Some? { i := i.(count := Some(i.count.value - 1)); }
        if id in items { items := items[id := i]; }
      }
      if del || (i.count.Some? && i.count.value <= 0) { items := items - {id}; }
    }

    /** One item of a sweep. */
    method SweepItem(k: Key, reply: Reply)
      requires k in items
      modifies this
      ensures items == Settle(old(items), k, Asked(old(items)[k], Sweep(reply)))
    {
      var i, del := items[k], reply.del;
      if del { items := items - {k}; }
      if reply.run {
        if !i.count.Some? || i.count.value > 0 {
          del := reply.done;
          i := i.(runs := i.runs + 1);
        }
        if i.count.Some? { i := i.(count := Some(i.count.value - 1)); }
        if k in items { items := items[k := i]; }
      }
      if del || (i.count.Some? && i.count.value < 0) { items := items - {k}; }
    }

    /** `due`: the retry interval is over, or the sweep is forced. Items are visited in no given order. */
    method CheckToRun(due: bool, replies: Key -> Reply)
      requires Valid()
      modifies this
      ensures Valid()
      ensures items == if due then Swept(old(items), replies, {}) else old(items)
    {
      if !due { return; }
      var todo := items.Keys;
      while todo != {}
        invariant todo <= old(items).Keys
        invariant items == Swept(old(items), replies, todo)
        decreases todo
      {
        var k :| k in todo;
        SweptNext(old(items), replies, todo, k);
        SweepItem(k, replies(k));
        todo := todo - {k};
      }
    }
  }

  /** The items once all but `todo` were asked by a sweep. */
  function Swept(items: map<Key, Item>, replies: Key -> Reply, todo: set<Key>): map<Key, Item> {
    map k | k in items && (k in todo || Asked(items[k], Sweep(replies(k))).kept) ::
      if k in todo then items[k] else Asked(items[k], Sweep(replies(k))).item
  }

  lemma SweptNext(items: map<Key, Item>, replies: Key -> Reply, todo: set<Key>, k: Key)
    requires k in todo && todo <= items.Keys
    ensures k in Swept(items, replies, todo) && Swept(items, replies, todo)[k] == items[k]
    ensures Swept(items, replies, todo - {k}) ==
            Settle(Swept(items, replies, todo), k, Asked(items[k], Sweep(replies(k))))
  {
  }
}
