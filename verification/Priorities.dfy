/** The priority of a rule, folded from the priorities of its tier, its policy and the rule itself. */
module Priorities {
  import opened Wrappers
  import opened Decimals

  const TIER_STEP := 50
  const MAX_PRIORITY := 10000

  /** Division that truncates towards zero. */
  function TruncDiv(a: int, b: int): int
    requires b > 0
  {
    if a >= 0 then a / b else -(-a / b)
  }

  /** 32-bit two's complement. */
  function Wrap32(x: int): int {
    (x + 0x8000_0000) % 0x1_0000_0000 - 0x8000_0000
  }

  /** A missing tier counts as zero; without a policy priority there is no rule priority. */
  function RulePriority(tier: Option<int>, policy: Option<real>, rule: int): Option<real> {
    if policy.None? then None
    else
      var band := Wrap32(TruncDiv(tier.UnwrapOr(0), TIER_STEP) * MAX_PRIORITY);
      Some(band as real + policy.value + rule as real / 10000.0)
  }

  /** Tiers whose band fits a 32-bit number. */
  predicate SmallTier(tier: int) {
    0 <= tier && (tier / TIER_STEP) * MAX_PRIORITY < 0x8000_0000
  }

  predicate RuleInRange(rule: int) {
    0 <= rule < MAX_PRIORITY
  }

  function Value(tier: int, policy: real, rule: int): real
    requires SmallTier(tier)
  {
    RulePriority(Some(tier), Some(policy), rule).value
  }

  predicate Lexicographic(t: int, p: int, r: int, t': int, p': int, r': int) {
    t < t' || (t == t' && (p < p' || (p == p' && r < r')))
  }

  lemma ValueIs(tier: int, policy: real, rule: int)
    requires SmallTier(tier)
    ensures Value(tier, policy, rule) == ((tier / 50) * 10000) as real + policy + rule as real / 10000.0
    ensures RulePriority(None, Some(policy), rule) == Some(policy + rule as real / 10000.0)
  {
    assert Wrap32(TruncDiv(0, TIER_STEP) * MAX_PRIORITY) == 0;
    var x := (tier / TIER_STEP) * MAX_PRIORITY;
    assert (x + 0x8000_0000) % 0x1_0000_0000 == x + 0x8000_0000;
  }

  /** The quotient leaves a remainder smaller than the divisor and on the same side of zero as the dividend. */
  lemma TruncatesTowardsZero(a: int, b: int)
    requires b > 0
    ensures var rest := a - TruncDiv(a, b) * b; if a >= 0 then 0 <= rest < b else -b < rest <= 0
  {
  }

  /** The number of 32 bits that differs from the given one by a multiple of 2^32. */
  lemma WrapsTo32Bits(x: int, k: int)
    ensures -0x8000_0000 <= Wrap32(x) < 0x8000_0000 && Wrap32(x + k * 0x1_0000_0000) == Wrap32(x)
    ensures -0x8000_0000 <= x < 0x8000_0000 ==> Wrap32(x) == x
  {
    var y := x + 0x8000_0000;
    assert (y + k * 0x1_0000_0000) % 0x1_0000_0000 == y % 0x1_0000_0000 by { ModPlus(y, k); }
  }

  lemma ModPlus(y: int, k: int)
    ensures (y + k * 0x1_0000_0000) % 0x1_0000_0000 == y % 0x1_0000_0000
  {
    var m := 0x1_0000_0000;
    assert (y + k * m) == (y / m + k) * m + y % m;
  }

  /** In ten-thousandths: whole policies make whole numbers. */
  lemma ValueScaled(tier: int, policy: int, rule: int)
    requires SmallTier(tier)
    ensures Value(tier, policy as real, rule) * 10000.0 ==
            (((tier / TIER_STEP) * MAX_PRIORITY + policy) * 10000 + rule) as real
  {
    ValueIs(tier, policy as real, rule);
    assert rule as real / 10000.0 * 10000.0 == rule as real;
  }

  /**
   * For whole policy priorities 1..10000 and rule priorities 0..9999 the folded priority is ordered by
   * the tier's band, then the policy, then the rule.
   */
  lemma PriorityIsLexicographic(t: int, p: int, r: int, t': int, p': int, r': int)
    requires SmallTier(t) && SmallTier(t') && 1 <= p <= MAX_PRIORITY && 1 <= p' <= MAX_PRIORITY
    requires RuleInRange(r) && RuleInRange(r')
    ensures Value(t, p as real, r) < Value(t', p' as real, r') <==>
            Lexicographic(t / TIER_STEP, p, r, t' / TIER_STEP, p', r')
  {
    ValueScaled(t, p, r);
    ValueScaled(t', p', r');
    var (k, k') := (t / TIER_STEP, t' / TIER_STEP);
    var (a, b) := ((k * MAX_PRIORITY + p) * 10000 + r, (k' * MAX_PRIORITY + p') * 10000 + r');
    assert Value(t, p as real, r) < Value(t', p' as real, r') <==> a < b;
    assert a < b <==> Lexicographic(k, p, r, k', p', r');
  }

  /** Tiers in steps of fifty fall into bands of their own. */
  lemma TierOrder(t: int, t': int)
    requires t % TIER_STEP == 0 && t' % TIER_STEP == 0
    ensures t / TIER_STEP < t' / TIER_STEP <==> t < t'
  {
  }

  /**
   * Of two policies of any priorities, every rule of the first comes before every rule of the second
   * exactly when the second is ahead by more than 0.9999; fractional priorities can be closer than that.
   */
  lemma PoliciesApart(t: int, p: real, t': int, p': real)
    requires SmallTier(t) && SmallTier(t')
    ensures (forall r, r' | RuleInRange(r) && RuleInRange(r') :: Value(t, p, r) < Value(t', p', r')) <==>
            ((t' / TIER_STEP - t / TIER_STEP) * MAX_PRIORITY) as real + p' - p > 0.9999
  {
    var gap := ((t' / TIER_STEP - t / TIER_STEP) * MAX_PRIORITY) as real + p' - p;
    assert gap == ((t' / TIER_STEP) * MAX_PRIORITY) as real - ((t / TIER_STEP) * MAX_PRIORITY) as real + p' - p;
    forall r, r' | RuleInRange(r) && RuleInRange(r')
      ensures Value(t, p, r) < Value(t', p', r') <==> r as real / 10000.0 < gap + r' as real / 10000.0
    {
      ValueIs(t, p, r);
      ValueIs(t', p', r');
    }
    assert RuleInRange(9999) && RuleInRange(0);
    assert Value(t, p, 9999) < Value(t', p', 0) <==> gap > 0.9999;
  }

  /** Priority 5.5 with rule 9999 lands above priority 6.0 with rule 0. */
  lemma FractionalPoliciesCross()
    ensures Value(50, 5.5, 9999) > Value(50, 6.0, 0)
  {
    ValueIs(50, 5.5, 9999);
    ValueIs(50, 6.0, 0);
  }

  /** Printing with four digits loses nothing of a priority folded from whole policies. */
  lemma PriorityPrintsExactly(t: int, p: int, r: int)
    requires SmallTier(t)
    ensures Round4(Value(t, p as real, r)) as real / 10000.0 == Value(t, p as real, r)
  {
    ValueScaled(t, p, r);
    var n := ((t / TIER_STEP) * MAX_PRIORITY + p) * 10000 + r;
    assert Value(t, p as real, r) == n as real / 10000.0;
    RoundExact(n);
  }
}
