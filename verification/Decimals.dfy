/**
 18-digit fixed-point arithmetic, with every rounding explicit, and the
 reward formula built on it.
 */
module Decimals {

  /** A decimal is a count of atoms; this many make one. */
  const ONE: nat := 1_000_000_000_000_000_000

  const YEAR: nat := 60 * 60 * 24 * 365
  const NANOS: nat := 1_000_000_000

  /** Decimal times decimal, and integer times decimal rounded down. */
  function Mul(a: nat, b: nat): nat { a * b / ONE }

  function Div(a: nat, b: nat): nat
    requires b > 0
  {
    a * ONE / b
  }

  /** The whole part of a decimal. */
  function Floor(a: nat): nat { a / ONE }

  /** `current.minus_seconds(since.seconds()).seconds()`, on nanoseconds. */
  function SecondsBetween(since: nat, now: nat): nat
    requires since <= now
  {
    var whole := since / NANOS * NANOS;
    assert whole <= since;
    (now - whole) / NANOS
  }

  function GrossReward(seconds: nat, apr: nat, stake: nat): nat {
    Div(Mul(Mul(stake * ONE, apr), seconds * ONE), YEAR * ONE)
  }

  /** What is left of a reward after the validator's commission. */
  function Net(reward: nat, commission: nat): nat
    requires commission <= ONE
  {
    MulAtMost(reward, commission);
    reward - Mul(reward, commission)
  }

  function CalculateRewards(now: nat, since: nat, apr: nat, commission: nat, stake: nat): nat
    requires since <= now && commission <= ONE
  {
    Net(GrossReward(SecondsBetween(since, now), apr, stake), commission)
  }

  /** `Shares::share_of_rewards` */
  function ShareOfRewards(stake: nat, total: nat, rewards: nat): nat {
    if total == 0 then 0 else Mul(rewards, stake) / total
  }

  // ---- Division ----

  lemma DivIs(x: int, d: int, q: int)
    requires d > 0 && d * q <= x < d * q + d
    ensures x / d == q
  {
    var r := x / d;
    assert x == d * r + x % d;
    assert d * (r + 1) == d * r + d && d * (q + 1) == d * q + d;
    MulMonotone(d, r + 1, q);
    MulMonotone(d, q + 1, r);
  }

  lemma DivBounds(x: int, d: int)
    requires d > 0
    ensures d * (x / d) <= x < d * (x / d) + d
    ensures x >= 0 ==> x / d >= 0
  {
    assert x == d * (x / d) + x % d;
  }

  lemma DivMonotone(x: int, y: int, d: int)
    requires d > 0 && x <= y
    ensures x / d <= y / d
  {
    DivBounds(x, d); DivBounds(y, d);
    MulMonotone(d, y / d + 1, x / d);
  }

  /** Rounding down after adding gains at most one. */
  lemma DivAdd(x: int, y: int, d: int)
    requires d > 0
    ensures 0 <= (x + y) / d - x / d - y / d <= 1
  {
    var a, b := x / d, y / d;
    DivBounds(x, d); DivBounds(y, d);
    var p, q := d * a, d * b;
    assert d * (a + b) == p + q;
    assert d * (a + b + 1) == p + q + d;
    if x + y < p + q + d {
      DivIs(x + y, d, a + b);
    } else {
      DivIs(x + y, d, a + b + 1);
    }
  }

  lemma DivDiv(x: nat, d: nat, e: nat)
    requires d > 0 && e > 0
    ensures d * e > 0 && x / d / e == x / (d * e)
  {
    var q := x / d / e;
    DivBounds(x, d); DivBounds(x / d, e);
    assert d * (e * q) == d * e * q;
    MulMonotone(d, e * q, x / d);
    MulMonotone(d, x / d + 1, e * q + e);
    assert d * (x / d + 1) == d * (x / d) + d;
    assert d * (e * q + e) == d * e * q + d * e;
    DivIs(x, d * e, q);
  }

  lemma MulMonotone(d: nat, x: int, y: int)
    ensures x <= y ==> d * x <= d * y
  {
  }

  lemma DivExact(x: int, d: int)
    requires d > 0
    ensures x * d / d == x
  {
    DivIs(x * d, d, x);
  }

  lemma MulAtMost(a: nat, b: nat)
    requires b <= ONE
    ensures Mul(a, b) <= a
  {
    MulMonotone(a, b, ONE);
    DivMonotone(a * b, a * ONE, ONE);
    DivExact(a, ONE);
  }

  // ---- Closed forms ----

  /** Of the three roundings in a reward before commission only the last one,
      the division by a year, can lose anything. */
  lemma GrossRewardIs(seconds: nat, apr: nat, stake: nat)
    ensures GrossReward(seconds, apr, stake) == stake * apr * seconds / YEAR
  {
    var a := stake * apr;
    assert stake * ONE * apr == a * ONE;
    DivExact(a, ONE);
    var b := a * seconds;
    assert a * (seconds * ONE) == b * ONE;
    DivExact(b, ONE);
    var q := b / YEAR;
    DivBounds(b, YEAR);
    assert YEAR * ONE * q == YEAR * q * ONE;
    DivIs(b * ONE, YEAR * ONE, q);
  }

  lemma SecondsBetweenIs(since: nat, now: nat)
    requires since <= now
    ensures SecondsBetween(since, now) == now / NANOS - since / NANOS
  {
  }

  lemma ShareOfRewardsIs(stake: nat, total: nat, rewards: nat)
    requires total > 0
    ensures ShareOfRewards(stake, total, rewards) == rewards * stake / (ONE * total)
  {
    DivDiv(rewards * stake, ONE, total);
  }

  // ---- Accrual does not depend on when it is computed, up to rounding ----

  /** Splitting a reward costs at most an atom, and an atom of reward is worth
      at most an atom. */
  lemma NetSplit(r: nat, s: nat, commission: nat)
    requires commission <= ONE
    ensures 0 <= Net(r, commission) + Net(s, commission) - Net(r + s, commission) <= 1
    ensures 0 <= Net(r + 1, commission) - Net(r, commission) <= 1
  {
    assert (r + s) * commission == r * commission + s * commission;
    DivAdd(r * commission, s * commission, ONE);
    assert (r + 1) * commission == r * commission + commission;
    DivMonotone(r * commission, r * commission + commission, ONE);
    DivMonotone(r * commission + commission, r * commission + ONE, ONE);
    DivAdd(r * commission, ONE, ONE);
    DivBounds(r * commission, ONE);
    DivIs(r * commission + ONE, ONE, r * commission / ONE + 1);
  }

  lemma CalculateRewardsIs(now: nat, since: nat, apr: nat, commission: nat, stake: nat)
    requires since <= now && commission <= ONE
    ensures SecondsBetween(since, now) == now / NANOS - since / NANOS
    ensures CalculateRewards(now, since, apr, commission, stake)
         == Net(stake * apr * SecondsBetween(since, now) / YEAR, commission)
  {
    SecondsBetweenIs(since, now);
    GrossRewardIs(SecondsBetween(since, now), apr, stake);
  }

  /** The reward in plain numbers: stake times rate times whole seconds, divided by
      the seconds of a 365-day year, less the validator's commission on that. Each of
      the two divisions rounds down. */
  lemma RewardInNumbers(now: nat, since: nat, apr: nat, commission: nat, stake: nat)
    requires since <= now && commission <= 1_000_000_000_000_000_000
    ensures var gross := stake * apr * (now / 1_000_000_000 - since / 1_000_000_000) / 31_536_000;
      CalculateRewards(now, since, apr, commission, stake)
      == gross - gross * commission / 1_000_000_000_000_000_000
  {
    CalculateRewardsIs(now, since, apr, commission, stake);
  }

  /** A higher commission never leaves more, and one of everything leaves nothing. */
  lemma CommissionCosts(now: nat, since: nat, apr: nat, low: nat, high: nat, stake: nat)
    requires since <= now && low <= high <= ONE
    ensures CalculateRewards(now, since, apr, high, stake) <= CalculateRewards(now, since, apr, low, stake)
    ensures CalculateRewards(now, since, apr, ONE, stake) == 0
    ensures CalculateRewards(now, since, apr, 0, stake)
         == stake * apr * (now / NANOS - since / NANOS) / YEAR
  {
    CalculateRewardsIs(now, since, apr, high, stake);
    CalculateRewardsIs(now, since, apr, low, stake);
    CalculateRewardsIs(now, since, apr, ONE, stake);
    CalculateRewardsIs(now, since, apr, 0, stake);
    var gross := stake * apr * SecondsBetween(since, now) / YEAR;
    MulMonotone(gross, low, high);
    DivMonotone(gross * low, gross * high, ONE);
    DivExact(gross, ONE);
    assert gross * 0 == 0;
    DivIs(0, ONE, 0);
  }

  /** At a tenth a year a thousand tokens earn a hundred, of which a validator with a
      commission of a tenth leaves ninety. */
  lemma NinetyOfAThousand()
    ensures CalculateRewards(31_536_000 * NANOS, 0, ONE / 10, ONE / 10, 1000) == 90 * ONE
  {
    var gross := 100 * ONE;
    RewardInNumbers(31_536_000 * NANOS, 0, ONE / 10, ONE / 10, 1000);
    assert 1000 * (ONE / 10) == gross;
    DivIs(gross * 31_536_000, 31_536_000, gross);
    DivIs(gross * (ONE / 10), ONE, 10 * ONE);
  }

  lemma NetOfNearly(a: nat, b: nat, q: nat, commission: nat)
    requires commission <= ONE && 0 <= q - a - b <= 1
    ensures -1 <= Net(q, commission) - Net(a, commission) - Net(b, commission) <= 1
  {
    NetSplit(a, b, commission);
    if q == a + b + 1 { NetSplit(a + b, 0, commission); }
  }

  lemma NetOfSum(k: nat, a: nat, b: nat, commission: nat)
    requires commission <= ONE
    ensures var apart := Net(k * a / YEAR, commission) + Net(k * b / YEAR, commission);
      -1 <= Net(k * (a + b) / YEAR, commission) - apart <= 1
  {
    var x, y := k * a, k * b;
    assert k * (a + b) == x + y;
    DivAdd(x, y, YEAR);
    NetOfNearly(x / YEAR, y / YEAR, (x + y) / YEAR, commission);
  }

  /** Computing the rewards of a span in two parts changes them by an atom at most. */
  lemma AccrualSplit(t0: nat, t1: nat, t2: nat, apr: nat, commission: nat, stake: nat)
    requires t0 <= t1 <= t2 && commission <= ONE
    ensures -1 <= CalculateRewards(t2, t0, apr, commission, stake)
                  - CalculateRewards(t1, t0, apr, commission, stake)
                  - CalculateRewards(t2, t1, apr, commission, stake) <= 1
  {
    var a, b := SecondsBetween(t0, t1), SecondsBetween(t1, t2);
    NetOfSum(stake * apr, a, b, commission);
    CalculateRewardsIs(t1, t0, apr, commission, stake);
    CalculateRewardsIs(t2, t1, apr, commission, stake);
    CalculateRewardsIs(t2, t0, apr, commission, stake);
    assert SecondsBetween(t0, t2) == a + b;
  }

  ghost predicate InOrder(since: nat, times: seq<nat>)
    decreases times
  {
    times == [] || (since <= times[0] && InOrder(times[0], times[1..]))
  }

  /** Rewards computed at each of the given times, the last being the end. */
  ghost function AccruedInSteps(since: nat, times: seq<nat>, apr: nat, commission: nat, stake: nat): nat
    requires commission <= ONE && InOrder(since, times)
    decreases times
  {
    if times == [] then 0
    else
      CalculateRewards(times[0], since, apr, commission, stake)
      + AccruedInSteps(times[0], times[1..], apr, commission, stake)
  }

  /** Any number of splits: at most an atom each. */
  lemma {:induction false} AccrualInSteps(since: nat, times: seq<nat>, apr: nat, commission: nat, stake: nat)
    requires commission <= ONE && times != [] && InOrder(since, times)
    ensures since <= times[|times| - 1]
    ensures -(|times| - 1) <= CalculateRewards(times[|times| - 1], since, apr, commission, stake)
                              - AccruedInSteps(since, times, apr, commission, stake) <= |times| - 1
    decreases times
  {
    var first, rest := times[0], times[1..];
    if rest != [] {
      AccrualInSteps(first, rest, apr, commission, stake);
      assert rest[|rest| - 1] == times[|times| - 1];
      AccrualSplit(since, first, times[|times| - 1], apr, commission, stake);
    }
  }

  /** How many times over, rounded up, a delegator's shares are the validator's stake. */
  ghost function Cover(stake: nat, total: nat): nat {
    if total == 0 then 0 else (stake + ONE * total - 1) / (ONE * total)
  }

  lemma CoverIs(stake: nat, total: nat)
    requires total > 0
    ensures stake <= Cover(stake, total) * (ONE * total)
    ensures stake <= ONE * total ==> Cover(stake, total) <= 1
  {
    var d, q := ONE * total, Cover(stake, total);
    DivBounds(stake + d - 1, d);
    assert d * q == q * d;
    if stake <= d {
      DivMonotone(stake + d - 1, d + d - 1, d);
      DivIs(d + d - 1, d, 1);
    }
  }

  /** One split changes a delegator's part of them by an atom more than that at most. */
  lemma ShareSplit(t0: nat, t1: nat, t2: nat, apr: nat, commission: nat, total: nat, stake: nat)
    requires t0 <= t1 <= t2 && commission <= ONE
    ensures var gap := ShareOfRewards(stake, total, CalculateRewards(t2, t0, apr, commission, total))
                       - ShareOfRewards(stake, total, CalculateRewards(t1, t0, apr, commission, total))
                       - ShareOfRewards(stake, total, CalculateRewards(t2, t1, apr, commission, total));
      -1 - Cover(stake, total) <= gap <= 1 + Cover(stake, total)
  {
    if total > 0 {
      AccrualSplit(t0, t1, t2, apr, commission, total);
      var x := CalculateRewards(t1, t0, apr, commission, total);
      var y := CalculateRewards(t2, t1, apr, commission, total);
      var z := CalculateRewards(t2, t0, apr, commission, total);
      ShareOfRewardsIs(stake, total, x); ShareOfRewardsIs(stake, total, y); ShareOfRewardsIs(stake, total, z);
      CoverIs(stake, total);
      ShareOfSum(x, y, z, stake, ONE * total, Cover(stake, total));
    }
  }

  /** A delegator's parts of the rewards computed at each of the given times. */
  ghost function SharesInSteps(since: nat, times: seq<nat>, apr: nat, commission: nat, total: nat, stake: nat): nat
    requires commission <= ONE && InOrder(since, times)
    decreases times
  {
    if times == [] then 0
    else
      ShareOfRewards(stake, total, CalculateRewards(times[0], since, apr, commission, total))
      + SharesInSteps(times[0], times[1..], apr, commission, total, stake)
  }

  /** So far apart at most after `n` splits, at `each` for one. */
  ghost predicate Within(gap: int, each: int, n: int) { -(each * n) <= gap <= each * n }

  lemma WithinTwice(gap: int, each: int, n: int)
    requires Within(gap, each, n) && each <= 2 && n >= 0
    ensures Within(gap, 2, n)
  {
    assert each * n <= 2 * n;
  }

  /** What one split more does to the distance. */
  lemma OneMoreSplit(each: int, n: nat, once: int, first: int, later: int, steps: int)
    requires n > 0 && -each <= once - first - later <= each
    requires Within(later - steps, each, n - 1)
    ensures Within(once - (first + steps), each, n)
  {
    assert each * n == each * (n - 1) + each;
  }

  /** Any number of splits: at most so much for each. */
  lemma {:induction false} ShareInSteps(since: nat, times: seq<nat>, apr: nat, commission: nat, total: nat, stake: nat)
    requires commission <= ONE && times != [] && InOrder(since, times)
    ensures since <= times[|times| - 1]
    ensures var rewards := CalculateRewards(times[|times| - 1], since, apr, commission, total);
      var gap := ShareOfRewards(stake, total, rewards) - SharesInSteps(since, times, apr, commission, total, stake);
      Within(gap, 1 + Cover(stake, total), |times| - 1)
    decreases times
  {
    var first, rest, last := times[0], times[1..], times[|times| - 1];
    if rest != [] {
      ShareInSteps(first, rest, apr, commission, total, stake);
      assert rest[|rest| - 1] == last;
      ShareSplit(since, first, last, apr, commission, total, stake);
      OneMoreSplit(1 + Cover(stake, total), |rest|,
                   ShareOfRewards(stake, total, CalculateRewards(last, since, apr, commission, total)),
                   ShareOfRewards(stake, total, CalculateRewards(first, since, apr, commission, total)),
                   ShareOfRewards(stake, total, CalculateRewards(last, first, apr, commission, total)),
                   SharesInSteps(first, rest, apr, commission, total, stake));
    }
  }

  lemma OneStep(since: nat, last: nat, apr: nat, commission: nat, total: nat, stake: nat)
    requires commission <= ONE && since <= last
    ensures InOrder(since, [last])
    ensures SharesInSteps(since, [last], apr, commission, total, stake)
         == ShareOfRewards(stake, total, CalculateRewards(last, since, apr, commission, total))
  {
    assert [last][1..] == [];
  }

  lemma WithinTwo(gap: int, stake: nat, total: nat, n: nat)
    requires Within(gap, 1 + Cover(stake, total), n) && stake <= ONE * total
    ensures Within(gap, 2, n)
  {
    if total > 0 { CoverIs(stake, total); }
    WithinTwice(gap, 1 + Cover(stake, total), n);
  }

  /** How far rewards updated in `n` steps more may be from rewards updated at once:
      one atom a step, and one for each time over that the shares are the stake. Two,
      then, with no more shares than that. */
  ghost predicate Nearly(gap: int, stake: nat, total: nat, n: int) {
    Within(gap, 1 + Cover(stake, total), n) && (stake <= ONE * total ==> Within(gap, 2, n))
  }

  /** All at once or in any number of steps. */
  lemma OnceOrInSteps(since: nat, times: seq<nat>, apr: nat, commission: nat, total: nat, stake: nat)
    requires commission <= ONE && times != [] && InOrder(since, times)
    ensures InOrder(since, [times[|times| - 1]])
    ensures Nearly(SharesInSteps(since, [times[|times| - 1]], apr, commission, total, stake)
                   - SharesInSteps(since, times, apr, commission, total, stake), stake, total, |times| - 1)
  {
    var last := times[|times| - 1];
    ShareInSteps(since, times, apr, commission, total, stake);
    OneStep(since, last, apr, commission, total, stake);
    var gap := SharesInSteps(since, [last], apr, commission, total, stake)
               - SharesInSteps(since, times, apr, commission, total, stake);
    if stake <= ONE * total { WithinTwo(gap, stake, total, |times| - 1); }
  }

  /** What one token earns without commission in some seconds. */
  lemma EarnedBy(since: nat, seconds: nat, apr: nat, reward: nat)
    requires YEAR * reward <= apr * seconds < YEAR * reward + YEAR
    ensures CalculateRewards((since + seconds) * NANOS, since * NANOS, apr, 0, 1) == reward
  {
    CalculateRewardsIs((since + seconds) * NANOS, since * NANOS, apr, 0, 1);
    var k := apr * seconds;
    assert 1 * apr * seconds == k;
    DivIs(k, YEAR, reward);
    assert reward * 0 == 0;
    DivIs(0, ONE, 0);
  }

  lemma ShareIs(stake: nat, rewards: nat, share: nat)
    requires ONE * share <= rewards * stake < ONE * share + ONE
    ensures ShareOfRewards(stake, 1, rewards) == share
  {
    ShareOfRewardsIs(stake, 1, rewards);
    DivIs(rewards * stake, ONE, share);
  }

  /** Beyond the validator's stake two atoms are not enough: with 1.9 times as many
      shares, as a slash can leave them, one split costs three. */
  lemma TwoAtomsAreNotEnough()
    ensures var stake, apr := 19 * (ONE / 10), 47304000;
      ShareOfRewards(stake, 1, CalculateRewards(2 * NANOS, 0, apr, 0, 1))
      - ShareOfRewards(stake, 1, CalculateRewards(NANOS, 0, apr, 0, 1))
      - ShareOfRewards(stake, 1, CalculateRewards(2 * NANOS, NANOS, apr, 0, 1)) == 3
  {
    var stake, apr := 19 * (ONE / 10), 47304000;
    EarnedBy(0, 2, apr, 3);
    EarnedBy(0, 1, apr, 1);
    EarnedBy(1, 1, apr, 1);
    ShareIs(stake, 3, 5);
    ShareIs(stake, 1, 1);
  }

  lemma ShareOfSum(x: nat, y: nat, z: nat, stake: nat, d: nat, q: nat)
    requires d > 0 && stake <= q * d && -1 <= z - x - y <= 1
    ensures -1 - q <= z * stake / d - x * stake / d - y * stake / d <= 1 + q
  {
    var a, b, c := x * stake, y * stake, z * stake;
    assert (x + y) * stake == a + b;
    DivAdd(a, b, d);
    var more := if z > x + y then x + y else z;
    ShareOfOneMore(more, stake, d, q);
    assert z != x + y ==> (more + 1) * stake == if z > x + y then c else a + b;
  }

  lemma ShareOfOneMore(x: nat, stake: nat, d: nat, q: nat)
    requires d > 0 && stake <= q * d
    ensures 0 <= (x + 1) * stake / d - x * stake / d <= q
  {
    var y, z := x * stake, q * d;
    assert (x + 1) * stake == y + stake;
    DivMonotone(y, y + stake, d);
    DivMonotone(y + stake, y + z, d);
    DivBounds(y, d);
    assert d * (y / d + q) == d * (y / d) + z;
    DivIs(y + z, d, y / d + q);
  }
}
