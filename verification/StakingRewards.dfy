/**
 Rewards as reported and as withdrawn, how much an update hands out, and the
 `expect` that a delegation forgotten by the unbonding queue can trip.
 */
module StakingRewards {
  import opened Bytes
  import opened Sums
  import opened Bank
  import opened Decimals
  import opened Results
  import opened Staking
  import opened StakingBooks
  import opened StakingLaws

  ghost predicate ShareholdersAreStakers(c: Chain, v: Addr) {
    v in c.validators ==> StakesOf(c, v).Keys <= c.validators[v].stakers
  }

  ghost predicate StakersAreShareholders(c: Chain, v: Addr) {
    v in c.validators ==> c.validators[v].stakers <= StakesOf(c, v).Keys
  }

  // ---- Lazy and eager rewards ----

  lemma NothingNewAtOnce(p: Params, val: Validator, now: nat)
    requires val.commission <= ONE && val.last == now
    ensures NewRewards(p, val, now) == 0
  {
    CalculateRewardsIs(now, now, p.apr, val.commission, val.stake);
    assert val.stake * p.apr * 0 == 0;
  }

  lemma NoShareOfNothing(stake: nat, total: nat)
    ensures ShareOfRewards(stake, total, 0) == 0
  {
    assert 0 * stake == 0;
    if total > 0 { DivIs(0, total, 0); }
  }

  /** What `d` will hold once the rewards are updated. */
  lemma UpdatedRewards(p: Params, c: Chain, d: Addr, v: Addr)
    requires Sane(c) && UpdateRewards(p, c, v).Ok? && d in StakesOf(c, v) && d in c.validators[v].stakers
    ensures var c1, val := UpdateRewards(p, c, v).value, c.validators[v];
      d in StakesOf(c1, v) && StakesOf(c1, v)[d] == Credited(StakesOf(c, v)[d], val.stake, NewRewards(p, val, c.now))
  {
    var val, s := c.validators[v], StakesOf(c, v)[d];
    NoShareOfNothing(s.stake, val.stake);
    if val.last >= c.now { NothingNewAtOnce(p, val, c.now); }
  }

  lemma UpdatedIsCurrent(p: Params, c: Chain, v: Addr)
    requires Sane(c) && UpdateRewards(p, c, v).Ok?
    ensures UpdateRewards(p, c, v).value.validators[v].last == c.now == UpdateRewards(p, c, v).value.now
    ensures StakesOf(UpdateRewards(p, c, v).value, v).Keys == StakesOf(c, v).Keys
  {
  }

  lemma NothingLeft(p: Params, c: Chain, d: Addr, v: Addr)
    requires Sane(c) && v in c.validators && d in StakesOf(c, v)
    requires c.validators[v].last == c.now && StakesOf(c, v)[d].rewards == 0
    ensures GetRewards(p, c, d, v) == Ok(Some(0))
  {
    NothingNewAtOnce(p, c.validators[v], c.now);
    NoShareOfNothing(StakesOf(c, v)[d].stake, c.validators[v].stake);
  }

  /** Withdrawing hands out exactly what the query just before would have shown,
      and the query right after shows none; and it works whenever there is
      something to show and no staker has gone missing. */
  lemma LazyEqualsEager(p: Params, c: Chain, d: Addr, v: Addr)
    requires Sane(c) && ShareholdersAreStakers(c, v)
    ensures RemoveRewards(p, c, d, v).Ok? ==>
      var (amount, c1) := RemoveRewards(p, c, d, v).value;
      GetRewards(p, c, d, v) == Ok(Some(amount)) && GetRewards(p, c1, d, v) == Ok(Some(0))
    ensures StakersAreShareholders(c, v) ==>
      (RemoveRewards(p, c, d, v).Ok? <==> GetRewards(p, c, d, v).Ok? && GetRewards(p, c, d, v).value.Some?)
  {
    var r := UpdateRewards(p, c, v);
    if r.Ok? {
      UpdatedIsCurrent(p, c, v);
      if d in StakesOf(c, v) {
        UpdatedRewards(p, c, d, v);
        NothingLeft(p, RemoveRewards(p, c, d, v).value.1, d, v);
      }
    }
  }

  lemma ReachableBook(p: Params, all: set<Addr>, c: Chain, v: Addr)
    requires all != {} && Reachable(p, all, c)
    ensures BookOf(c, v).held.Keys <= BookOf(c, v).stakers <= all
  {
    var ledger, now, steps :|
      AllAllowed(all, steps) && CanonicalLedger(ledger) && c == Reach(p, all, Genesis(ledger, now), steps);
    RunKeeps(p, all, ledger, now, steps, v);
  }

  /** In every reachable state, slashed or not. */
  lemma ReachableLazyEqualsEager(p: Params, all: set<Addr>, c: Chain, d: Addr, v: Addr)
    requires all != {} && Reachable(p, all, c) && Sane(c) && RemoveRewards(p, c, d, v).Ok?
    ensures var (amount, c1) := RemoveRewards(p, c, d, v).value;
      GetRewards(p, c, d, v) == Ok(Some(amount)) && GetRewards(p, c1, d, v) == Ok(Some(0))
  {
    ReachableBook(p, all, c, v);
    HeldSize(c, v);
    LazyEqualsEager(p, c, d, v);
  }

  // ---- Accrual on stored rewards ----

  /** The state after rewards were updated at each of the given times. */
  ghost function UpdatedAt(p: Params, c: Chain, v: Addr, times: seq<nat>): Result<Chain>
    requires Sane(c) && InOrder(c.now, times)
    decreases times
  {
    if times == [] then Ok(c)
    else
      var c1 :- UpdateRewards(p, c.(now := times[0]), v);
      UpdatedAt(p, c1, v, times[1..])
  }

  lemma UpdatedValidator(p: Params, c: Chain, v: Addr)
    requires Sane(c) && v in c.validators && StakersAreShareholders(c, v)
    ensures var r := UpdateRewards(p, c, v);
      && r.Ok? && r.value.validators[v] == c.validators[v].(last := c.now)
      && StakesOf(r.value, v).Keys == StakesOf(c, v).Keys
  {
  }

  lemma UpdatedStake(p: Params, c: Chain, d: Addr, v: Addr)
    requires Sane(c) && v in c.validators && StakersAreShareholders(c, v) && d in c.validators[v].stakers
    ensures var c1, s, val := UpdateRewards(p, c, v).value, StakesOf(c, v)[d], c.validators[v];
      && UpdateRewards(p, c, v).Ok? && d in StakesOf(c1, v) && StakesOf(c1, v)[d].stake == s.stake
      && StakesOf(c1, v)[d].rewards == s.rewards + ShareOfRewards(s.stake, val.stake, NewRewards(p, val, c.now))
  {
    UpdatedValidator(p, c, v);
    UpdatedRewards(p, c, d, v);
  }

  /** What is stored after each of several updates is what was, plus the shares. */
  lemma {:induction false} StoredInSteps(p: Params, c: Chain, d: Addr, v: Addr, times: seq<nat>)
    requires Sane(c) && InOrder(c.now, times) && v in c.validators && StakersAreShareholders(c, v)
    requires d in c.validators[v].stakers
    ensures InOrder(c.validators[v].last, times)
    ensures var r, s, val := UpdatedAt(p, c, v, times), StakesOf(c, v)[d], c.validators[v];
      && r.Ok? && d in StakesOf(r.value, v)
      && StakesOf(r.value, v)[d].rewards
           == s.rewards + SharesInSteps(val.last, times, p.apr, val.commission, val.stake, s.stake)
    decreases times
  {
    if times != [] {
      var c0 := c.(now := times[0]);
      UpdatedValidator(p, c0, v);
      UpdatedStake(p, c0, d, v);
      StoredInSteps(p, UpdateRewards(p, c0, v).value, d, v, times[1..]);
    }
  }

  /** No delegator of a validator without drift has more shares than it has stake. */
  lemma SharesFit(b: Book, d: Addr)
    requires Drift(b) == 0 && d in b.held
    ensures b.held[d] <= ONE * b.stake
  {
    SumNonNegative(b.held);
  }

  lemma StoredGap(p: Params, c: Chain, d: Addr, v: Addr, times: seq<nat>)
    requires Sane(c) && times != [] && InOrder(c.now, times) && v in c.validators && StakersAreShareholders(c, v)
    requires d in c.validators[v].stakers
    ensures InOrder(c.now, [times[|times| - 1]])
    ensures InOrder(c.validators[v].last, times) && InOrder(c.validators[v].last, [times[|times| - 1]])
    ensures var often, once := UpdatedAt(p, c, v, times), UpdatedAt(p, c, v, [times[|times| - 1]]);
      var val, s := c.validators[v], StakesOf(c, v)[d];
      && often.Ok? && once.Ok? && d in StakesOf(often.value, v) && d in StakesOf(once.value, v)
      && StakesOf(once.value, v)[d].rewards - StakesOf(often.value, v)[d].rewards
         == SharesInSteps(val.last, [times[|times| - 1]], p.apr, val.commission, val.stake, s.stake)
            - SharesInSteps(val.last, times, p.apr, val.commission, val.stake, s.stake)
  {
    InOrderEnds(c.now, times);
    StoredInSteps(p, c, d, v, times);
    StoredInSteps(p, c, d, v, [times[|times| - 1]]);
  }

  /** Rewards do not depend on when they are updated: however many updates are
      made on the way, every staker ends up within a few atoms for each of them of
      what a single update at the end stores. */
  lemma AccrualIsPathIndependent(p: Params, c: Chain, d: Addr, v: Addr, times: seq<nat>)
    requires Sane(c) && times != [] && InOrder(c.now, times) && v in c.validators && StakersAreShareholders(c, v)
    requires d in c.validators[v].stakers
    ensures InOrder(c.now, [times[|times| - 1]])
    ensures var often, once := UpdatedAt(p, c, v, times), UpdatedAt(p, c, v, [times[|times| - 1]]);
      && often.Ok? && once.Ok? && d in StakesOf(often.value, v) && d in StakesOf(once.value, v)
      && Nearly(StakesOf(once.value, v)[d].rewards - StakesOf(often.value, v)[d].rewards,
                StakesOf(c, v)[d].stake, c.validators[v].stake, |times| - 1)
  {
    var val, s := c.validators[v], StakesOf(c, v)[d];
    StoredGap(p, c, d, v, times);
    OnceOrInSteps(val.last, times, p.apr, val.commission, val.stake, s.stake);
  }

  /** In particular every staker of a validator not slashed since a wipe-out. */
  lemma UnslashedAccrual(p: Params, all: set<Addr>, ledger: Ledger<Addr>, now: nat, steps: seq<Step>, d: Addr,
                         v: Addr, times: seq<nat>)
    requires all != {} && AllAllowed(all, steps) && CanonicalLedger(ledger) && times != []
    requires Counted(p, all, Genesis(ledger, now), v, steps).slashes == 0
    requires var c := Reach(p, all, Genesis(ledger, now), steps);
      v in c.validators && d in c.validators[v].stakers && InOrder(c.now, times)
    ensures InOrder(Reach(p, all, Genesis(ledger, now), steps).now, [times[|times| - 1]])
    ensures var c := Reach(p, all, Genesis(ledger, now), steps);
      var often, once := UpdatedAt(p, c, v, times), UpdatedAt(p, c, v, [times[|times| - 1]]);
      && often.Ok? && once.Ok? && d in StakesOf(often.value, v) && d in StakesOf(once.value, v)
      && Within(StakesOf(once.value, v)[d].rewards - StakesOf(often.value, v)[d].rewards, 2, |times| - 1)
  {
    var c := Reach(p, all, Genesis(ledger, now), steps);
    RunKeeps(p, all, ledger, now, steps, v);
    HeldSize(c, v);
    SharesFit(BookOf(c, v), d);
    AccrualIsPathIndependent(p, c, d, v, times);
  }

  lemma {:induction false} InOrderEnds(since: nat, times: seq<nat>)
    requires times != [] && InOrder(since, times)
    ensures since <= times[|times| - 1] && InOrder(since, [times[|times| - 1]])
    decreases times
  {
    var last := times[|times| - 1];
    assert [last][1..] == [];
    if |times| > 1 {
      InOrderEnds(times[0], times[1..]);
      assert times[1..][|times| - 2] == last;
    }
  }

  // ---- Distribution ----

  ghost function RewardSum(m: map<Addr, Shares>): int { Sum(map d | d in m :: m[d].rewards) }

  lemma CreditedSum(m: map<Addr, Shares>, total: nat, earned: nat)
    requires total > 0 && Sum(map d | d in m :: m[d].stake) == ONE * total
    ensures var credited := RewardSum(CreditAll(m, m.Keys, total, earned)) - RewardSum(m);
      credited <= earned && earned - |m| < credited
  {
    var held := map d | d in m :: m[d].stake as int;
    assert held == map d | d in m :: m[d].stake;
    var shares := map d | d in m :: ShareOfRewards(m[d].stake, total, earned) as int;
    var unit := ONE * total;
    forall d | d in m ensures Floored(held[d], shares[d], earned, unit, 1) {
      ShareOfRewardsIs(m[d].stake, total, earned);
      DivBounds(earned * m[d].stake, unit);
    }
    SumOfFloors(held, shares, earned, unit);
    var before := map d | d in m :: m[d].rewards as int;
    var m' := CreditAll(m, m.Keys, total, earned);
    var after := map d | d in m' :: m'[d].rewards as int;
    SumPointwise(before, shares, after);
    assert before == map d | d in m :: m[d].rewards;
    assert after == map d | d in m' :: m'[d].rewards;
    assert held.Keys == m.Keys;
    NonEmptyWhenPositive(m, held, unit);
    BetweenFloors(Sum(shares), earned, unit, |held|);
    assert |held.Keys| == |held| && |m.Keys| == |m|;
  }

  lemma NonEmptyWhenPositive(m: map<Addr, Shares>, held: map<Addr, int>, unit: int)
    requires held.Keys == m.Keys && Sum(held) == unit > 0
    ensures |held| > 0
  {
    assert held.Keys == {} ==> held == map[];
    assert |held| == |held.Keys|;
  }

  lemma BetweenFloors(q: int, earned: int, unit: int, n: int)
    requires unit > 0 && n > 0 && Floored(unit, q, earned, unit, n)
    ensures q <= earned && earned - n < q
  {
    MulMonotone(unit, earned + 1, q);
    assert unit * (earned + 1) == unit * earned + unit;
    MulMonotone(unit, q, earned - n);
    assert unit * (earned - n) == unit * earned - unit * n;
    assert n * (unit - 1) == unit * n - n;
  }

  /** Without slashing, one update hands the stakers together at most what the
      validator earned, and less than an atom per staker short of it. */
  lemma DistributionConserves(p: Params, all: set<Addr>, ledger: Ledger<Addr>, now: nat, steps: seq<Step>, v: Addr)
    requires all != {} && AllAllowed(all, steps) && CanonicalLedger(ledger)
    requires Counted(p, all, Genesis(ledger, now), v, steps).slashes == 0
    requires v in Reach(p, all, Genesis(ledger, now), steps).validators
    ensures var c := Reach(p, all, Genesis(ledger, now), steps);
      var earned := NewRewards(p, c.validators[v], c.now);
      var r := UpdateRewards(p, c, v);
      && r.Ok?
      && var credited := RewardSum(StakesOf(r.value, v)) - RewardSum(StakesOf(c, v));
      && credited <= earned
      && (earned > 0 ==> credited > earned - |c.validators[v].stakers|)
  {
    RunKeeps(p, all, ledger, now, steps, v);
    UpdateConserves(p, Reach(p, all, Genesis(ledger, now), steps), v);
  }

  lemma UpdateConserves(p: Params, c: Chain, v: Addr)
    requires Sane(c) && v in c.validators
    requires Drift(BookOf(c, v)) == 0 && BookOf(c, v).held.Keys == BookOf(c, v).stakers
    ensures var earned := NewRewards(p, c.validators[v], c.now);
      var r := UpdateRewards(p, c, v);
      && r.Ok?
      && var credited := RewardSum(StakesOf(r.value, v)) - RewardSum(StakesOf(c, v));
      && credited <= earned
      && (earned > 0 ==> credited > earned - |c.validators[v].stakers|)
  {
    HeldSize(c, v);
    var val, m := c.validators[v], StakesOf(c, v);
    if val.last == c.now { NothingNewAtOnce(p, val, c.now); }
    if val.stake == 0 {
      NothingFromNothing(p, val, c.now);
    } else {
      CreditedSum(m, val.stake, NewRewards(p, val, c.now));
      assert |m.Keys| == |m|;
    }
  }

  lemma NothingFromNothing(p: Params, val: Validator, now: nat)
    requires val.commission <= ONE && val.last <= now && val.stake == 0
    ensures NewRewards(p, val, now) == 0
  {
    CalculateRewardsIs(now, val.last, p.apr, val.commission, 0);
    assert 0 * p.apr * SecondsBetween(val.last, now) == 0;
  }

  // ---- Panics ----

  /** Every validator with stake has a `STAKES` entry for each of its stakers. */
  ghost predicate NobodyMissing(c: Chain) {
    forall v :: v in c.validators ==> c.validators[v].stake == 0 || c.validators[v].stakers <= StakesOf(c, v).Keys
  }

  lemma UpdateIsSafe(p: Params, c: Chain, v: Addr)
    requires Sane(c) && NobodyMissing(c)
    ensures UpdateRewards(p, c, v) != Panicked
    ensures UpdateRewards(p, c, v).Ok? ==> NobodyMissing(UpdateRewards(p, c, v).value)
  {
    if v in c.validators && c.validators[v].stake == 0 { NothingFromNothing(p, c.validators[v], c.now); }
  }

  lemma RemoveIsSafe(p: Params, c: Chain, d: Addr, v: Addr, amount: nat)
    requires Sane(c) && NobodyMissing(c)
    ensures RemoveStake(p, c, v, d, amount) != Panicked
    ensures RemoveStake(p, c, v, d, amount).Ok? ==> NobodyMissing(RemoveStake(p, c, v, d, amount).value)
  {
    UpdateIsSafe(p, c, v);
  }

  lemma StepIsSafe(p: Params, c: Chain, s: Step)
    requires Sane(c) && NobodyMissing(c) && !s.Advance?
    ensures Take(p, c, s) != Panicked
  {
    match s
    case Delegating(_, v, _) => UpdateIsSafe(p, c, v);
    case Undelegating(_, v, _) => UpdateIsSafe(p, c, v);
    case Redelegating(d, src, dst, coin) =>
      RemoveIsSafe(p, c, d, src, coin.amount);
      var r := RemoveStake(p, c, src, d, coin.amount);
      if r.Ok? { UpdateIsSafe(p, r.value, dst); }
    case Slashing(v, percentage) =>
      UpdateIsSafe(p, c, v);
      MulAtMost(0, if percentage <= ONE then ONE - percentage else 0);
    case Withdrawing(_, v) => UpdateIsSafe(p, c, v);
    case Redirecting(_, _) =>
    case Register(_, _) =>
    case Elsewhere(_) =>
  }

  /** Slashing by nothing trips over a missing staker. */
  lemma SlashTrips(p: Params, c: Chain, v: Addr)
    requires Sane(c) && v in c.validators && c.validators[v].stake > 0
    requires !(c.validators[v].stakers <= StakesOf(c, v).Keys)
    ensures Slash(p, c, v, 0) == Panicked
  {
    if UpdateRewards(p, c, v).Ok? {
      UpdatedIsCurrent(p, c, v);
      DivExact(c.validators[v].stake, ONE);
    }
  }

  /** Exactly the states with nobody missing are safe from the `expect`s. */
  lemma SafeExactlyWhenNobodyMissing(p: Params, c: Chain)
    requires Sane(c)
    ensures NobodyMissing(c) <==> forall s: Step :: !s.Advance? ==> Take(p, c, s) != Panicked
  {
    if NobodyMissing(c) {
      forall s: Step | !s.Advance? ensures Take(p, c, s) != Panicked { StepIsSafe(p, c, s); }
    } else {
      var v :| v in c.validators && c.validators[v].stake > 0 && !(c.validators[v].stakers <= StakesOf(c, v).Keys);
      SlashTrips(p, c, v);
      assert Take(p, c, Slashing(v, 0)) == Panicked;
    }
  }

  /** A run can only panic after the queue has forgotten somebody's delegation
      worth less than a token, or, moving to a later block, when the module account
      has spent more than its own. */
  lemma OnlyAForgottenDelegationPanics(p: Params, all: set<Addr>, ledger: Ledger<Addr>, now: nat, steps: seq<Step>,
                                       s: Step)
    requires all != {} && AllAllowed(all, steps) && CanonicalLedger(ledger)
    requires forall v :: Counted(p, all, Genesis(ledger, now), v, steps).dropped == 0
    requires s.Advance? ==> PaysItsWay(p, all, ledger, now, steps)
    ensures Take(p, Reach(p, all, Genesis(ledger, now), steps), s) != Panicked
  {
    var c := Reach(p, all, Genesis(ledger, now), steps);
    forall v | v in c.validators ensures c.validators[v].stakers <= StakesOf(c, v).Keys {
      RunKeeps(p, all, ledger, now, steps, v);
      HeldSize(c, v);
    }
    if s.Advance? {
      BlocksAlwaysSettle(p, all, ledger, now, steps, s.elapsed);
    } else {
      StepIsSafe(p, c, s);
    }
  }

  lemma ReachableNext(p: Params, all: set<Addr>, c: Chain, s: Step)
    requires Reachable(p, all, c) && Sane(c) && Allowed(all, s)
    ensures Reachable(p, all, Next(p, all, c, s))
  {
    var ledger, now, steps :|
      AllAllowed(all, steps) && CanonicalLedger(ledger) && c == Reach(p, all, Genesis(ledger, now), steps);
    var longer := steps + [s];
    assert longer[..|steps|] == steps;
    assert AllAllowed(all, longer);
    assert Next(p, all, c, s) == Reach(p, all, Genesis(ledger, now), longer);
  }

  // Two delegators of one validator, slashed by half around an unbonding.
  const P := Params([0], 60, 0, [9], (_: Addr) => true)
  const V: Addr := [7]
  const D1: Addr := [1]
  const D2: Addr := [2]
  const FUNDS: Ledger<Addr> := map[D1 := [Coin([0], 2)], D2 := [Coin([0], 10)]]
  const HALF: nat := ONE / 2

  lemma Reaches(c: Chain, s: Step, c': Chain)
    requires Reachable(P, {D1, D2}, c) && Sane(c) && Take(P, c, s) == Ok(c')
    requires s.Elsewhere? ==> CanonicalLedger(s.ledger)
    requires s.Register? ==> s.commission <= ONE
    requires s.Delegating? || s.Undelegating? || s.Redelegating? ==> s.sender in {D1, D2}
    ensures Reachable(P, {D1, D2}, c') && Sane(c')
  {
    ReachableNext(P, {D1, D2}, c, s);
    assert Sane(Next(P, {D1, D2}, c, s));
  }

  /** At the block of the last reward calculation an update changes nothing. */
  lemma StageIsCurrent(c: Chain, val: Validator)
    requires c.validators == map[V := val] && val.commission == 0 && val.last == c.now == 0
    ensures Sane(c) && UpdateRewards(P, c, V) == Ok(c)
  {
  }

  lemma StageSaves(c: Chain, val: Validator, held: map<Addr, Shares>, d: Addr, s: Shares, left: nat)
    requires c.validators == map[V := val] && (c.stakes == map[V := held] || (c.stakes == map[] && held == map[]))
    requires Sane(c) && s.stake > 0
    ensures SaveShares(c, V, d, s, left)
         == c.(validators := map[V := val.(stakers := val.stakers + {d}, stake := left)],
               stakes := map[V := held[d := s]])
  {
    var val' := val.(stakers := val.stakers + {d}, stake := left);
    assert c.validators[V := val'] == map[V := val'];
    assert c.stakes[V := held[d := s]] == map[V := held[d := s]];
  }

  lemma StageAdds(c: Chain, val: Validator, held: map<Addr, Shares>, d: Addr, amount: nat)
    requires c.validators == map[V := val] && (c.stakes == map[V := held] || (c.stakes == map[] && held == map[]))
    requires val.commission == 0 && val.last == c.now == 0 && amount > 0 && d !in held
    ensures Sane(c) && AddStake(P, c, V, d, amount)
         == Ok(c.(validators := map[V := val.(stakers := val.stakers + {d}, stake := val.stake + amount)],
                  stakes := map[V := held[d := Shares(amount * ONE, 0)]]))
  {
    StageIsCurrent(c, val);
    StageSaves(c, val, held, d, Shares(amount * ONE, 0), val.stake + amount);
    assert SharesOf(c, V, d) == Shares(0, 0);
  }

  lemma Delegated(c: Chain, d: Addr, amount: nat) returns (c': Chain)
    requires Reachable(P, {D1, D2}, c) && CanonicalLedger(c.ledger) && Sane(c) && d in {D1, D2}
    requires amount > 0 && Has(c.ledger, d, P.denom) >= amount && AddStake(P, c, V, d, amount).Ok?
    requires AddStake(P, c, V, d, amount).value.ledger == c.ledger
    ensures Reachable(P, {D1, D2}, c') && c' == AddStake(P, c, V, d, amount).value.(ledger := c'.ledger)
    ensures CanonicalLedger(c'.ledger) && Moved(P, c.ledger, c'.ledger, d, P.moduleAddr, amount)
  {
    var c1 := AddStake(P, c, V, d, amount).value;
    PayEffect(P, c1, d, P.moduleAddr, amount);
    c' := Pay(P, c1, d, P.moduleAddr, amount).value;
    Reaches(c, Delegating(d, V, Coin(P.denom, amount)), c');
  }

  lemma StageDelegates(c: Chain, val: Validator, held: map<Addr, Shares>, d: Addr, amount: nat) returns (c': Chain)
    requires Reachable(P, {D1, D2}, c) && CanonicalLedger(c.ledger)
    requires c.validators == map[V := val] && (c.stakes == map[V := held] || (c.stakes == map[] && held == map[]))
    requires val.commission == 0 && val.last == c.now == 0
    requires amount > 0 && Has(c.ledger, d, P.denom) >= amount && d !in held && d in {D1, D2}
    ensures Reachable(P, {D1, D2}, c') && CanonicalLedger(c'.ledger)
    ensures Moved(P, c.ledger, c'.ledger, d, P.moduleAddr, amount)
    ensures c'.validators == map[V := val.(stakers := val.stakers + {d}, stake := val.stake + amount)]
    ensures c'.stakes == map[V := held[d := Shares(amount * ONE, 0)]] && c'.queue == c.queue && c'.now == 0
  {
    StageAdds(c, val, held, d, amount);
    c' := Delegated(c, d, amount);
  }

  lemma Opening() returns (c: Chain)
    ensures Reachable(P, {D1, D2}, c) && CanonicalLedger(c.ledger)
    ensures Has(c.ledger, D1, P.denom) == 2 && Has(c.ledger, D2, P.denom) == 10
    ensures c.validators == map[V := Validator(0, {}, 0, 0)] && c.stakes == map[] && c.queue == [] && c.now == 0
  {
    var b1, b2 := [Coin([0], 2)], [Coin([0], 10)];
    assert b1[1..] == [] && b2[1..] == [];
    var g := Genesis(FUNDS, 0);
    assert AllAllowed({D1, D2}, []) && g == Reach(P, {D1, D2}, Genesis(FUNDS, 0), []);
    c := g.(validators := map[V := Validator(0, {}, 0, 0)]);
    Reaches(g, Register(V, 0), c);
  }

  lemma OneDelegates() returns (c: Chain)
    ensures Reachable(P, {D1, D2}, c) && CanonicalLedger(c.ledger)
    ensures Has(c.ledger, P.moduleAddr, P.denom) >= 2 && Has(c.ledger, D2, P.denom) == 10
    ensures c.validators == map[V := Validator(0, {D1}, 2, 0)] && c.queue == [] && c.now == 0
    ensures c.stakes == map[V := map[D1 := Shares(2 * ONE, 0)]]
  {
    var c0 := Opening();
    c := StageDelegates(c0, Validator(0, {}, 0, 0), map[], D1, 2);
    assert {} + {D1} == {D1} && map[][D1 := Shares(2 * ONE, 0)] == map[D1 := Shares(2 * ONE, 0)];
  }

  /** `d1` stakes two tokens, `d2` ten. */
  lemma TwoDelegate() returns (c: Chain)
    ensures Reachable(P, {D1, D2}, c) && CanonicalLedger(c.ledger) && Has(c.ledger, P.moduleAddr, P.denom) >= 12
    ensures c.validators == map[V := Validator(0, {D1, D2}, 12, 0)] && c.queue == [] && c.now == 0
    ensures c.stakes == map[V := map[D1 := Shares(2 * ONE, 0), D2 := Shares(10 * ONE, 0)]]
  {
    var c1 := OneDelegates();
    var held := map[D1 := Shares(2 * ONE, 0)];
    c := StageDelegates(c1, Validator(0, {D1}, 2, 0), held, D2, 10);
    assert {D1} + {D2} == {D1, D2};
    assert held[D2 := Shares(10 * ONE, 0)] == map[D1 := Shares(2 * ONE, 0), D2 := Shares(10 * ONE, 0)];
  }

  lemma OneRemoved(c: Chain)
    requires c.validators == map[V := Validator(0, {D1, D2}, 12, 0)] && c.now == 0
    requires c.stakes == map[V := map[D1 := Shares(2 * ONE, 0), D2 := Shares(10 * ONE, 0)]]
    ensures Sane(c) && RemoveStake(P, c, V, D1, 1) ==
      Ok(c.(validators := map[V := Validator(0, {D1, D2}, 11, 0)],
            stakes := map[V := map[D1 := Shares(ONE, 0), D2 := Shares(10 * ONE, 0)]]))
  {
    var val, held := Validator(0, {D1, D2}, 12, 0), map[D1 := Shares(2 * ONE, 0), D2 := Shares(10 * ONE, 0)];
    StageIsCurrent(c, val);
    StageSaves(c, val, held, D1, Shares(ONE, 0), 11);
    assert held[D1 := Shares(ONE, 0)] == map[D1 := Shares(ONE, 0), D2 := Shares(10 * ONE, 0)];
    assert {D1, D2} + {D1} == {D1, D2};
  }

  /** `d1` unbonds one of its two. */
  lemma OneUnbonds() returns (c: Chain)
    ensures Reachable(P, {D1, D2}, c)
    ensures c.validators == map[V := Validator(0, {D1, D2}, 11, 0)] && c.now == 0
    ensures c.stakes == map[V := map[D1 := Shares(ONE, 0), D2 := Shares(10 * ONE, 0)]]
    ensures c.queue == [Unbonding(D1, V, 1, 60 * NANOS)]
  {
    var c0 := TwoDelegate();
    OneRemoved(c0);
    var u := Unbonding(D1, V, 1, 60 * NANOS);
    assert [] + [u] == [u];
    c := RemoveStake(P, c0, V, D1, 1).value.(queue := [u]);
    Reaches(c0, Undelegating(D1, V, Coin(P.denom, 1)), c);
  }

  lemma StageSlashes(c: Chain, val: Validator, held: map<Addr, Shares>, u: Unbonding)
    requires c.validators == map[V := val] && c.stakes == map[V := held] && c.queue == [u] && u.validator == V
    requires val.commission == 0 && val.last == c.now == 0 && val.stakers <= held.Keys && Mul(val.stake, HALF) > 0
    ensures Sane(c) && Slash(P, c, V, HALF)
         == Ok(c.(validators := map[V := val.(stake := Mul(val.stake, HALF))],
                  stakes := map[V := ScaleAll(held, val.stakers, HALF)],
                  queue := [u.(amount := Mul(u.amount, HALF))]))
  {
    StageIsCurrent(c, val);
    assert [u][1..] == [] && SlashQueue([u], V, HALF) == [u.(amount := Mul(u.amount, HALF))];
    var val', held' := val.(stake := Mul(val.stake, HALF)), ScaleAll(held, val.stakers, HALF);
    assert c.validators[V := val'] == map[V := val'] && c.stakes[V := held'] == map[V := held'];
  }

  lemma Halves()
    ensures Mul(ONE, HALF) == HALF && Mul(10 * ONE, HALF) == 5 * ONE && Mul(11, HALF) == 5 && Mul(1, HALF) == 0
  {
  }

  lemma HalfScaled(held: map<Addr, Shares>)
    requires held == map[D1 := Shares(ONE, 0), D2 := Shares(10 * ONE, 0)]
    ensures ScaleAll(held, {D1, D2}, HALF) == map[D1 := Shares(HALF, 0), D2 := Shares(5 * ONE, 0)]
  {
    Halves();
  }

  /** A slash by half. */
  lemma HalfSlashed() returns (c: Chain)
    ensures Reachable(P, {D1, D2}, c)
    ensures c.validators == map[V := Validator(0, {D1, D2}, 5, 0)] && c.now == 0
    ensures c.stakes == map[V := map[D1 := Shares(HALF, 0), D2 := Shares(5 * ONE, 0)]]
    ensures c.queue == [Unbonding(D1, V, 0, 60 * NANOS)]
  {
    var c0 := OneUnbonds();
    var held, u := map[D1 := Shares(ONE, 0), D2 := Shares(10 * ONE, 0)], Unbonding(D1, V, 1, 60 * NANOS);
    Halves();
    HalfScaled(held);
    StageSlashes(c0, Validator(0, {D1, D2}, 11, 0), held, u);
    c := Slash(P, c0, V, HALF).value;
    Reaches(c0, Slashing(V, HALF), c);
  }

  lemma StageForgets(c: Chain, held: map<Addr, Shares>, u: Unbonding, elapsed: nat)
    requires c.stakes == map[V := held] && c.queue == [u] && u.validator == V && u.payoutAt <= c.now + elapsed
    requires u.amount == 0 && u.delegator in held && Floor(held[u.delegator].stake) == 0
    ensures AdvanceBlock(P, c, elapsed)
         == Ok(c.(stakes := map[V := held - {u.delegator}], queue := [], now := c.now + elapsed))
  {
    assert [u][1..] == [] && Pending([], u.delegator, V) == 0;
    var c1 := c.(now := c.now + elapsed);
    var c2 := c1.(stakes := map[V := held - {u.delegator}]);
    assert map[V := held][V := held - {u.delegator}] == map[V := held - {u.delegator}];
    assert DropEmpty(c1, u.delegator, V, []) == c2;
    assert PopFront(P, c1) == Ok(c2.(queue := []));
    assert ProcessQueue(P, c2.(queue := [])) == Ok(c2.(queue := []));
    assert ProcessQueue(P, c1) == Ok(c2.(queue := []));
  }

  /** The unbonding falls due, for nothing, and takes the half token with it. */
  lemma Forgotten() returns (c: Chain)
    ensures Reachable(P, {D1, D2}, c) && Sane(c)
    ensures c.validators == map[V := Validator(0, {D1, D2}, 5, 0)]
    ensures D1 !in StakesOf(c, V)
  {
    var c0 := HalfSlashed();
    assert Floor(HALF) == 0;
    StageForgets(c0, map[D1 := Shares(HALF, 0), D2 := Shares(5 * ONE, 0)], Unbonding(D1, V, 0, 60 * NANOS), 60 * NANOS);
    c := AdvanceBlock(P, c0, 60 * NANOS).value;
    Reaches(c0, Advance(60 * NANOS), c);
  }

  /** And it can happen: a slash by half leaves `d1`, who is unbonding one of two
      tokens, with half a token and nothing to be paid. When the unbonding falls
      due the queue forgets `d1`, whom the next slash then expects to find. */
  lemma AForgottenDelegationPanics()
    ensures exists c :: Reachable(P, {D1, D2}, c) && Sane(c) && Take(P, c, Slashing(V, 0)) == Panicked
  {
    var c := Forgotten();
    assert D1 in c.validators[V].stakers;
    SlashTrips(P, c, V);
    assert Take(P, c, Slashing(V, 0)) == Panicked;
  }
}
