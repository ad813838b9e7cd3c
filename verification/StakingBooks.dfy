/**
 What every staking operation does to the stake accounts, with rewards left
 out, and the bound slashing's two roundings obey.
 */
module StakingBooks {
  import opened Sums
  import opened Decimals
  import opened Results
  import opened Staking

  /** A validator's stake, its stakers, and what `STAKES` says each holds. */
  datatype Book = Book(stakers: set<Addr>, stake: nat, held: map<Addr, nat>)

  ghost function BookOf(c: Chain, v: Addr): Book {
    var held := map d | d in StakesOf(c, v) :: StakesOf(c, v)[d].stake;
    if v in c.validators then Book(c.validators[v].stakers, c.validators[v].stake, held) else Book({}, 0, held)
  }

  ghost function Held(b: Book, d: Addr): nat { if d in b.held then b.held[d] else 0 }

  /** How far the delegators' shares are from the validator's stake, in atoms. */
  ghost function Drift(b: Book): int { Sum(b.held) - ONE * b.stake }

  ghost function Store(b: Book, d: Addr, atoms: nat, stake: nat): Book {
    if atoms == 0 then Book(b.stakers - {d}, stake, b.held - {d})
    else Book(b.stakers + {d}, stake, b.held[d := atoms])
  }

  ghost function Scaled(b: Book, remaining: nat): Book {
    Book(b.stakers, Mul(b.stake, remaining),
         map d | d in b.held :: if d in b.stakers then Mul(b.held[d], remaining) else b.held[d])
  }

  ghost function Wiped(b: Book): Book { Book({}, 0, b.held - b.stakers) }

  ghost function Without(b: Book, d: Addr): Book { b.(held := b.held - {d}) }

  // ---- The bound ----

  /** A book after `slashes` slashes and `dropped` forgotten delegations since its
      stake was last wiped out, all delegators being in `all`. */
  ghost predicate Kept(all: set<Addr>, b: Book, slashes: int, dropped: int) {
    && b.held.Keys <= b.stakers <= all
    && slashes >= 0 && dropped >= 0
    && (dropped == 0 ==> b.held.Keys == b.stakers)
    && (slashes == 0 ==> dropped == 0 && Drift(b) == 0 && WholeTokens(b))
    && (slashes > 0 ==> -(slashes * |all|) - dropped * ONE < Drift(b) < slashes * ONE)
  }

  ghost predicate WholeTokens(b: Book) {
    forall d :: d in b.held ==> b.held[d] >= ONE && b.held[d] % ONE == 0
  }

  lemma StoreDrift(b: Book, d: Addr, atoms: nat, stake: nat)
    requires atoms - Held(b, d) == ONE * (stake - b.stake)
    ensures Drift(Store(b, d, atoms, stake)) == Drift(b)
  {
    SumPut(b.held, d, atoms); SumDrop(b.held, d);
    assert ONE * (stake - b.stake) == ONE * stake - ONE * b.stake;
  }

  lemma StoreWhole(b: Book, d: Addr, atoms: nat, stake: nat)
    requires atoms - Held(b, d) == ONE * (stake - b.stake) && WholeTokens(b)
    ensures WholeTokens(Store(b, d, atoms, stake))
  {
    MultipleMoves(Held(b, d), stake - b.stake);
  }

  lemma StoreKeeps(all: set<Addr>, b: Book, slashes: int, dropped: int, d: Addr, atoms: nat, stake: nat)
    requires Kept(all, b, slashes, dropped) && d in all
    requires atoms - Held(b, d) == ONE * (stake - b.stake)
    ensures Kept(all, Store(b, d, atoms, stake), slashes, dropped)
  {
    StoreDrift(b, d, atoms, stake);
    if slashes == 0 { StoreWhole(b, d, atoms, stake); }
  }

  lemma MultipleMoves(x: int, n: int)
    ensures (x + ONE * n) % ONE == x % ONE
  {
    DivBounds(x, ONE);
    var q := x / ONE;
    assert ONE * (q + n) == ONE * q + ONE * n;
    DivIs(x + ONE * n, ONE, q + n);
  }

  lemma FloorIs(x: nat, r: nat)
    ensures Floored(x, Mul(x, r), r, ONE, 1)
  {
    DivBounds(x * r, ONE);
  }

  lemma ScaleKeeps(all: set<Addr>, b: Book, slashes: int, dropped: int, remaining: nat)
    requires Kept(all, b, slashes, dropped) && all != {} && remaining <= ONE
    ensures Kept(all, Scaled(b, remaining), slashes + 1, dropped)
  {
    var b' := Scaled(b, remaining);
    forall d | d in b.held ensures Floored(b.held[d], b'.held[d], remaining, ONE, 1) { FloorIs(b.held[d], remaining); }
    SumOfFloors(b.held, b'.held, remaining, ONE);
    FloorIs(b.stake, remaining);
    SubsetSize(b.held.Keys, all);
    assert |b.held| == |b.held.Keys|;
    DriftScales(Sum(b.held), Sum(b'.held), b.stake, b'.stake, remaining, |b.held|, |all|, slashes, dropped);
  }

  lemma SubsetSize<T>(a: set<T>, b: set<T>)
    requires a <= b
    ensures |a| <= |b|
  {
    assert b == a + (b - a);
  }

  /** Scaling moves the drift by the factor, give or take the roundings. */
  lemma DriftBetween(held: int, held': int, stake: int, stake': int, r: int, m: int)
    requires Floored(held, held', r, ONE, m) && Floored(stake, stake', r, ONE, 1)
    ensures var drift, drift' := held - ONE * stake, held' - ONE * stake';
      r * drift - m * (ONE - 1) <= ONE * drift' <= r * drift + ONE * (ONE - 1)
  {
    var scaled, exact := ONE * stake', r * stake;
    assert r * (held - ONE * stake) == r * held - ONE * exact;
    assert ONE * (held' - scaled) == ONE * held' - ONE * scaled;
    assert ONE * scaled <= ONE * exact <= ONE * scaled + ONE * (ONE - 1);
  }

  lemma BelowOnes(x: int, bound: int)
    requires ONE * x < ONE * bound
    ensures x < bound
  {
    MulMonotone(ONE, bound, x);
  }

  lemma DriftBelow(drift: int, drift': int, r: nat, k: int)
    requires r <= ONE && k >= 0 && ONE * drift' <= r * drift + ONE * (ONE - 1)
    requires if k == 0 then drift == 0 else drift < k * ONE
    ensures drift' < (k + 1) * ONE
  {
    var top := if k == 0 then 0 else k * ONE - 1;
    ScaledAtMost(r, drift, top);
    assert ONE * top + ONE * (ONE - 1) == ONE * (top + ONE - 1);
    assert (k + 1) * ONE == k * ONE + ONE;
    BelowOnes(drift', (k + 1) * ONE);
  }

  lemma DriftAbove(drift: int, drift': int, r: nat, below: int, m: nat, n: nat)
    requires r <= ONE && below >= 0 && m <= n && n > 0 && -drift <= below
    requires r * drift - m * (ONE - 1) <= ONE * drift'
    ensures -(below + n) < drift'
  {
    ScaledAtMost(r, -drift, below);
    assert r * -drift == -(r * drift);
    MulMonotone(ONE - 1, m, n);
    assert m * (ONE - 1) == (ONE - 1) * m && n * (ONE - 1) == (ONE - 1) * n == ONE * n - n;
    assert ONE * (below + n) == ONE * below + ONE * n && ONE * -drift' == -(ONE * drift');
    BelowOnes(-drift', below + n);
  }

  lemma DriftScales(held: int, held': int, stake: nat, stake': nat, r: nat, m: nat, n: nat, k: int, e: int)
    requires r <= ONE && n > 0 && m <= n && k >= 0 && e >= 0
    requires Floored(held, held', r, ONE, m) && Floored(stake, stake', r, ONE, 1)
    requires k == 0 ==> e == 0 && held == ONE * stake
    requires k > 0 ==> -(k * n) - e * ONE < held - ONE * stake < k * ONE
    ensures -((k + 1) * n) - e * ONE < held' - ONE * stake' < (k + 1) * ONE
  {
    var drift, drift' := held - ONE * stake, held' - ONE * stake';
    DriftBetween(held, held', stake, stake', r, m);
    DriftBelow(drift, drift', r, k);
    MulMonotone(n, 0, k);
    assert (k + 1) * n == k * n + n;
    DriftAbove(drift, drift', r, k * n + e * ONE, m, n);
  }

  lemma ScaledAtMost(r: nat, x: int, bound: int)
    requires r <= ONE && 0 <= bound && x <= bound
    ensures r * x <= ONE * bound
  {
    MulMonotone(r, x, bound);
    MulMonotone(bound, r, ONE);
  }

  lemma WipeKeeps(all: set<Addr>, b: Book, slashes: int, dropped: int)
    requires Kept(all, b, slashes, dropped)
    ensures Kept(all, Wiped(b), 0, 0) && Wiped(b).held == map[]
  {
    assert Wiped(b).held == map[];
  }

  lemma WithoutKeeps(all: set<Addr>, b: Book, slashes: int, dropped: int, d: Addr)
    requires Kept(all, b, slashes, dropped) && d in b.held && Floor(b.held[d]) == 0
    ensures Kept(all, Without(b, d), slashes, dropped + 1)
    ensures |Without(b, d).held| == |b.held| - 1
  {
    DivBounds(b.held[d], ONE);
    assert b.held[d] < ONE;
    SumDrop(b.held, d);
    assert (dropped + 1) * ONE == dropped * ONE + ONE;
    assert Without(b, d).held.Keys == b.held.Keys - {d};
    assert |b.held.Keys| == |b.held| && |Without(b, d).held.Keys| == |Without(b, d).held|;
  }

  // ---- What each operation does to the books ----

  ghost function StakeMap(vs: map<Addr, Validator>): (m: map<Addr, int>)
    ensures m.Keys == vs.Keys
  {
    map v | v in vs :: vs[v].stake
  }

  ghost function TotalStake(vs: map<Addr, Validator>): int { Sum(StakeMap(vs)) }

  ghost function Bonded(c: Chain): int { TotalStake(c.validators) }

  /** Only validator `v`'s book is different. */
  ghost predicate OnlyBook(c: Chain, c1: Chain, v: Addr, b: Book) {
    && c1.validators.Keys == c.validators.Keys
    && c1.now == c.now && c1.ledger == c.ledger
    && c1.stakes.Keys <= c.stakes.Keys + {v}
    && forall w :: BookOf(c1, w) == if w == v then b else BookOf(c, w)
  }

  lemma BondedMoves(c: Chain, c1: Chain, v: Addr, b: Book)
    requires OnlyBook(c, c1, v, b) && v in c.validators
    ensures Bonded(c1) == Bonded(c) - BookOf(c, v).stake + b.stake
  {
    var m, m1 := StakeMap(c.validators), StakeMap(c1.validators);
    SumPut(m, v, b.stake);
    forall w | w in m1 ensures m1[w] == m[v := b.stake][w] {
      assert BookOf(c1, w).stake == m1[w] && (w != v ==> BookOf(c, w).stake == m[w]);
    }
    assert m1 == m[v := b.stake];
  }

  lemma UpdateRewardsBooks(p: Params, c: Chain, v: Addr)
    requires Sane(c) && UpdateRewards(p, c, v).Ok?
    ensures OnlyBook(c, UpdateRewards(p, c, v).value, v, BookOf(c, v))
    ensures UpdateRewards(p, c, v).value.queue == c.queue
  {
    var c1 := UpdateRewards(p, c, v).value;
    forall w ensures BookOf(c1, w) == BookOf(c, w) {
      if w == v {
        assert BookOf(c1, w).held == BookOf(c, w).held;
      } else {
        assert StakesOf(c1, w) == StakesOf(c, w);
      }
    }
  }

  lemma SaveSharesBooks(c: Chain, v: Addr, d: Addr, s: Shares, stake: nat)
    requires Sane(c) && v in c.validators
    ensures OnlyBook(c, SaveShares(c, v, d, s, stake), v, Store(BookOf(c, v), d, s.stake, stake))
    ensures SaveShares(c, v, d, s, stake).queue == c.queue
  {
    var c1 := SaveShares(c, v, d, s, stake);
    forall w ensures BookOf(c1, w) == if w == v then Store(BookOf(c, v), d, s.stake, stake) else BookOf(c, w) {
      if w == v {
        assert BookOf(c1, w).held == Store(BookOf(c, v), d, s.stake, stake).held;
      } else {
        assert StakesOf(c1, w) == StakesOf(c, w);
      }
    }
  }

  /** Updating the rewards and then saving shares. */
  lemma SavedBooks(p: Params, c: Chain, v: Addr, d: Addr, s: Shares, stake: nat)
    requires Sane(c) && UpdateRewards(p, c, v).Ok?
    ensures var c2 := SaveShares(UpdateRewards(p, c, v).value, v, d, s, stake);
      OnlyBook(c, c2, v, Store(BookOf(c, v), d, s.stake, stake)) && c2.queue == c.queue
  {
    UpdateRewardsBooks(p, c, v);
    var c1 := UpdateRewards(p, c, v).value;
    assert BookOf(c1, v) == BookOf(c, v);
    SaveSharesBooks(c1, v, d, s, stake);
    var c2 := SaveShares(c1, v, d, s, stake);
    var b := Store(BookOf(c, v), d, s.stake, stake);
    forall w ensures BookOf(c2, w) == if w == v then b else BookOf(c, w) {
      assert BookOf(c1, w) == BookOf(c, w);
    }
  }

  lemma SavedStake(p: Params, c: Chain, v: Addr, d: Addr, atoms: nat, stake: nat, c2: Chain)
    requires Sane(c) && UpdateRewards(p, c, v).Ok?
    requires var c1 := UpdateRewards(p, c, v).value;
      c2 == SaveShares(c1, v, d, SharesOf(c1, v, d).(stake := atoms), stake)
    ensures OnlyBook(c, c2, v, Store(BookOf(c, v), d, atoms, stake)) && c2.queue == c.queue
  {
    SavedBooks(p, c, v, d, SharesOf(UpdateRewards(p, c, v).value, v, d).(stake := atoms), stake);
  }

  lemma UpdatedShares(p: Params, c: Chain, v: Addr, d: Addr)
    requires Sane(c) && UpdateRewards(p, c, v).Ok?
    ensures v in c.validators
    ensures var c1 := UpdateRewards(p, c, v).value;
      && c1.validators[v].stake == BookOf(c, v).stake
      && SharesOf(c1, v, d).stake == Held(BookOf(c, v), d)
      && (d in StakesOf(c1, v) <==> d in BookOf(c, v).held)
  {
  }

  lemma AddStakeBooks(p: Params, c: Chain, v: Addr, d: Addr, amount: nat, c2: Chain)
    requires Sane(c) && AddStake(p, c, v, d, amount) == Ok(c2)
    ensures v in c.validators
    ensures var b := BookOf(c, v);
      OnlyBook(c, c2, v, Store(b, d, Held(b, d) + amount * ONE, b.stake + amount)) && c2.queue == c.queue
  {
    UpdatedShares(p, c, v, d);
    SavedStake(p, c, v, d, Held(BookOf(c, v), d) + amount * ONE, BookOf(c, v).stake + amount, c2);
  }

  lemma RemoveStakeBooks(p: Params, c: Chain, v: Addr, d: Addr, amount: nat, c2: Chain)
    requires Sane(c) && RemoveStake(p, c, v, d, amount) == Ok(c2)
    ensures v in c.validators
    ensures var b := BookOf(c, v);
      && d in b.held && amount * ONE <= b.held[d] && amount <= b.stake
      && OnlyBook(c, c2, v, Store(b, d, b.held[d] - amount * ONE, b.stake - amount)) && c2.queue == c.queue
  {
    UpdatedShares(p, c, v, d);
    var b := BookOf(c, v);
    SavedStake(p, c, v, d, b.held[d] - amount * ONE, b.stake - amount, c2);
  }

  lemma OnlyBookThen(c: Chain, c1: Chain, c2: Chain, v: Addr, b: Book)
    requires OnlyBook(c, c1, v, BookOf(c, v)) && OnlyBook(c1, c2, v, b)
    ensures OnlyBook(c, c2, v, b)
  {
    forall w ensures BookOf(c2, w) == if w == v then b else BookOf(c, w) {
      assert BookOf(c1, w) == BookOf(c, w);
    }
  }

  /** The slash itself, once rewards are updated. */
  ghost function SlashedBook(b: Book, remaining: nat): Book {
    if Mul(b.stake, remaining) == 0 then Wiped(b) else Scaled(b, remaining)
  }

  lemma SlashedBooks(c1: Chain, c2: Chain, v: Addr, remaining: nat)
    requires v in c1.validators && c2.now == c1.now && c2.ledger == c1.ledger
    requires var val, stake := c1.validators[v], Mul(c1.validators[v].stake, remaining);
      && c2.validators == c1.validators[v := val.(stakers := if stake == 0 then {} else val.stakers, stake := stake)]
      && c2.stakes == c1.stakes[v := if stake == 0 then StakesOf(c1, v) - val.stakers
                                     else ScaleAll(StakesOf(c1, v), val.stakers, remaining)]
    ensures OnlyBook(c1, c2, v, SlashedBook(BookOf(c1, v), remaining))
  {
    var b' := SlashedBook(BookOf(c1, v), remaining);
    forall w ensures BookOf(c2, w) == if w == v then b' else BookOf(c1, w) {
      if w == v {
        assert BookOf(c2, w).held == b'.held;
      } else {
        assert StakesOf(c2, w) == StakesOf(c1, w);
      }
    }
  }

  lemma SlashBooks(p: Params, c: Chain, v: Addr, percentage: nat)
    requires Sane(c) && Slash(p, c, v, percentage).Ok?
    ensures v in c.validators && percentage <= ONE
    ensures OnlyBook(c, Slash(p, c, v, percentage).value, v, SlashedBook(BookOf(c, v), ONE - percentage))
    ensures Slash(p, c, v, percentage).value.queue == SlashQueue(c.queue, v, ONE - percentage)
  {
    UpdateRewardsBooks(p, c, v);
    var c1, c2 := UpdateRewards(p, c, v).value, Slash(p, c, v, percentage).value;
    assert BookOf(c1, v) == BookOf(c, v);
    SlashedBooks(c1, c2, v, ONE - percentage);
    OnlyBookThen(c, c1, c2, v, SlashedBook(BookOf(c, v), ONE - percentage));
  }
}
