/**
 What holds on every run of the staking module: how far slashing's roundings
 can drift, that the module account covers what it owes, and how the
 unbonding queue is paid out.
 */
module StakingLaws {
  import opened Bytes
  import opened Sums
  import opened Bank
  import opened Decimals
  import opened Results
  import opened Staking
  import opened StakingBooks

  /** `Elsewhere` is any change other modules make to the ledger, the staking
      module's account included. */
  datatype Step =
    | Register(validator: Addr, commission: nat)
    | Delegating(sender: Addr, validator: Addr, coin: Coin)
    | Undelegating(sender: Addr, validator: Addr, coin: Coin)
    | Redelegating(sender: Addr, validator: Addr, dst: Addr, coin: Coin)
    | Slashing(validator: Addr, percentage: nat)
    | Advance(elapsed: nat)
    | Withdrawing(sender: Addr, validator: Addr)
    | Redirecting(sender: Addr, receiver: Addr)
    | Elsewhere(ledger: Ledger<Addr>)

  /** Delegators come from `all`; the module account may be one of them. */
  ghost predicate Allowed(all: set<Addr>, s: Step) {
    && (s.Register? ==> s.commission <= ONE)
    && (s.Delegating? || s.Undelegating? || s.Redelegating? ==> s.sender in all)
    && (s.Elsewhere? ==> CanonicalLedger(s.ledger))
  }

  ghost function Take(p: Params, c: Chain, s: Step): Result<Chain>
    requires Sane(c)
  {
    match s
    case Register(v, commission) => AddValidator(c, v, commission)
    case Delegating(sender, v, coin) => Delegate(p, c, sender, v, coin)
    case Undelegating(sender, v, coin) => Undelegate(p, c, sender, v, coin)
    case Redelegating(sender, src, dst, coin) => Redelegate(p, c, sender, src, dst, coin)
    case Slashing(v, percentage) => Slash(p, c, v, percentage)
    case Advance(elapsed) => AdvanceBlock(p, c, elapsed)
    case Withdrawing(sender, v) => Withdraw(p, c, sender, v)
    case Redirecting(sender, to) => SetReceiver(p, c, sender, to)
    case Elsewhere(l) => Ok(c.(ledger := l))
  }

  /** A failed step is rolled back. */
  ghost function Next(p: Params, all: set<Addr>, c: Chain, s: Step): (r: Chain)
    requires Sane(c) && Allowed(all, s)
    ensures Sane(r)
  {
    var r := Take(p, c, s);
    if r.Ok? then r.value else c
  }

  ghost predicate AllAllowed(all: set<Addr>, steps: seq<Step>) {
    forall i :: 0 <= i < |steps| ==> Allowed(all, steps[i])
  }

  ghost function Genesis(ledger: Ledger<Addr>, now: nat): Chain { Chain(map[], map[], [], ledger, now, map[]) }

  ghost function Reach(p: Params, all: set<Addr>, c: Chain, steps: seq<Step>): (r: Chain)
    requires Sane(c) && AllAllowed(all, steps)
    ensures Sane(r)
  {
    if steps == [] then c
    else
      var n := |steps| - 1;
      Next(p, all, Reach(p, all, c, steps[..n]), steps[n])
  }

  // ---- Drift ----

  /** Successful slashes and forgotten delegations since the last wipe-out. */
  datatype Tally = Tally(slashes: int, dropped: int)

  /** After a step that went through, from `c` to `c'`. */
  ghost function CountDone(c: Chain, c': Chain, v: Addr, t: Tally, s: Step): Tally {
    if s.Slashing? && s.validator == v then
      if BookOf(c', v).stake == 0 then Tally(0, 0) else Tally(t.slashes + 1, t.dropped)
    else if s.Advance? then Tally(t.slashes, t.dropped + |StakesOf(c, v)| - |StakesOf(c', v)|)
    else t
  }

  ghost function Count(p: Params, c: Chain, v: Addr, t: Tally, s: Step): Tally
    requires Sane(c)
  {
    var r := Take(p, c, s);
    if r.Ok? then CountDone(c, r.value, v, t, s) else t
  }

  ghost function Counted(p: Params, all: set<Addr>, c: Chain, v: Addr, steps: seq<Step>): Tally
    requires Sane(c) && AllAllowed(all, steps)
  {
    if steps == [] then Tally(0, 0)
    else
      var n := |steps| - 1;
      Count(p, Reach(p, all, c, steps[..n]), v, Counted(p, all, c, v, steps[..n]), steps[n])
  }

  ghost predicate OnlyRegistered(c: Chain) { c.stakes.Keys <= c.validators.Keys }

  lemma HeldSize(c: Chain, v: Addr)
    ensures |BookOf(c, v).held| == |StakesOf(c, v)| && BookOf(c, v).held.Keys == StakesOf(c, v).Keys
  {
    assert BookOf(c, v).held.Keys == StakesOf(c, v).Keys;
    assert |BookOf(c, v).held.Keys| == |BookOf(c, v).held| && |StakesOf(c, v).Keys| == |StakesOf(c, v)|;
  }

  // ---- What one step does to the books ----

  lemma PaySame(p: Params, c: Chain, from: Addr, to: Addr, amount: nat)
    ensures var r := Pay(p, c, from, to, amount);
      r.Ok? ==> r.value.validators == c.validators && r.value.stakes == c.stakes && r.value.queue == c.queue
                && forall w :: BookOf(r.value, w) == BookOf(c, w)
  {
  }

  lemma DropEmptyBooks(c: Chain, d: Addr, v: Addr, rest: seq<Unbonding>)
    ensures var c0, b := DropEmpty(c, d, v, rest), BookOf(c, v);
      && (forall w :: w != v ==> BookOf(c0, w) == BookOf(c, w))
      && (BookOf(c0, v) == b || (d in b.held && Floor(b.held[d]) == 0 && BookOf(c0, v) == Without(b, d)))
  {
    var c0 := DropEmpty(c, d, v, rest);
    if c0 != c {
      assert BookOf(c0, v).held == Without(BookOf(c, v), d).held;
    }
  }

  lemma SameBooks(c: Chain, c1: Chain)
    requires c1.validators == c.validators && c1.stakes == c.stakes
    ensures forall w :: BookOf(c1, w) == BookOf(c, w)
  {
  }

  lemma PopFrontBooks(p: Params, c: Chain, c1: Chain)
    requires c.queue != [] && PopFront(p, c) == Ok(c1)
    ensures var v, d := c.queue[0].validator, c.queue[0].delegator;
      forall w :: BookOf(c1, w) == BookOf(c, w)
                  || (w == v && d in BookOf(c, w).held && Floor(BookOf(c, w).held[d]) == 0
                      && BookOf(c1, w) == Without(BookOf(c, w), d))
  {
    var u, rest := c.queue[0], c.queue[1..];
    var c0 := DropEmpty(c, u.delegator, u.validator, rest);
    SameBooks(c0, c1);
    DropEmptyBooks(c, u.delegator, u.validator, rest);
  }

  lemma {:induction false} ProcessQueueKeeps(p: Params, c: Chain, c': Chain, all: set<Addr>, v: Addr, t: Tally)
    requires ProcessQueue(p, c) == Ok(c') && Kept(all, BookOf(c, v), t.slashes, t.dropped)
    ensures Kept(all, BookOf(c', v), t.slashes, t.dropped + |BookOf(c, v).held| - |BookOf(c', v).held|)
    ensures BookOf(c', v).held.Keys <= BookOf(c, v).held.Keys && |BookOf(c', v).held| <= |BookOf(c, v).held|
    ensures BookOf(c', v).stake == BookOf(c, v).stake
    decreases |c.queue|
  {
    if c.queue != [] && c.queue[0].payoutAt <= c.now {
      var c1 := PopFront(p, c).value;
      var d := c.queue[0].delegator;
      PopFrontBooks(p, c, c1);
      if BookOf(c1, v) == BookOf(c, v) {
        ProcessQueueKeeps(p, c1, c', all, v, t);
      } else {
        WithoutKeeps(all, BookOf(c, v), t.slashes, t.dropped, d);
        ProcessQueueKeeps(p, c1, c', all, v, Tally(t.slashes, t.dropped + 1));
      }
    }
  }

  lemma DelegateKeeps(p: Params, c: Chain, c': Chain, d: Addr, v: Addr, coin: Coin, all: set<Addr>, w: Addr, t: Tally)
    requires Sane(c) && d in all && Delegate(p, c, d, v, coin) == Ok(c')
    requires Kept(all, BookOf(c, w), t.slashes, t.dropped)
    ensures Kept(all, BookOf(c', w), t.slashes, t.dropped)
  {
    var c1 := AddStake(p, c, v, d, coin.amount).value;
    AddKeeps(p, c, c1, d, v, coin.amount, all, w, t);
    PaySame(p, c1, d, p.moduleAddr, coin.amount);
  }

  lemma StoredKeeps(c: Chain, c': Chain, d: Addr, v: Addr, atoms: nat, stake: nat, all: set<Addr>, w: Addr, t: Tally)
    requires OnlyBook(c, c', v, Store(BookOf(c, v), d, atoms, stake)) && d in all
    requires atoms - Held(BookOf(c, v), d) == ONE * (stake - BookOf(c, v).stake)
    requires Kept(all, BookOf(c, w), t.slashes, t.dropped)
    ensures Kept(all, BookOf(c', w), t.slashes, t.dropped)
  {
    if w == v { StoreKeeps(all, BookOf(c, v), t.slashes, t.dropped, d, atoms, stake); }
  }

  lemma AddKeeps(p: Params, c: Chain, c': Chain, d: Addr, v: Addr, amount: nat, all: set<Addr>, w: Addr, t: Tally)
    requires Sane(c) && d in all && AddStake(p, c, v, d, amount) == Ok(c')
    requires Kept(all, BookOf(c, w), t.slashes, t.dropped)
    ensures Kept(all, BookOf(c', w), t.slashes, t.dropped)
  {
    AddStakeBooks(p, c, v, d, amount, c');
    var b := BookOf(c, v);
    StoredKeeps(c, c', d, v, Held(b, d) + amount * ONE, b.stake + amount, all, w, t);
  }

  lemma RemoveKeeps(p: Params, c: Chain, c': Chain, d: Addr, v: Addr, amount: nat, all: set<Addr>, w: Addr, t: Tally)
    requires Sane(c) && d in all && RemoveStake(p, c, v, d, amount) == Ok(c')
    requires Kept(all, BookOf(c, w), t.slashes, t.dropped)
    ensures Kept(all, BookOf(c', w), t.slashes, t.dropped)
  {
    RemoveStakeBooks(p, c, v, d, amount, c');
    var b := BookOf(c, v);
    StoredKeeps(c, c', d, v, b.held[d] - amount * ONE, b.stake - amount, all, w, t);
  }

  lemma SlashKeeps(p: Params, c: Chain, c': Chain, v: Addr, percentage: nat, all: set<Addr>, w: Addr, t: Tally)
    requires Sane(c) && all != {} && Slash(p, c, v, percentage) == Ok(c')
    requires Kept(all, BookOf(c, w), t.slashes, t.dropped)
    ensures w != v ==> Kept(all, BookOf(c', w), t.slashes, t.dropped)
    ensures w == v && BookOf(c', w).stake != 0 ==> Kept(all, BookOf(c', w), t.slashes + 1, t.dropped)
    ensures w == v && BookOf(c', w).stake == 0 ==> Kept(all, BookOf(c', w), 0, 0)
  {
    SlashBooks(p, c, v, percentage);
    if w == v {
      WipeKeeps(all, BookOf(c, v), t.slashes, t.dropped);
      ScaleKeeps(all, BookOf(c, v), t.slashes, t.dropped, ONE - percentage);
    }
  }

  lemma ClearRewardsBooks(c: Chain, d: Addr, v: Addr, c': Chain)
    requires d in StakesOf(c, v) && c'.validators == c.validators
    requires c'.stakes == c.stakes[v := StakesOf(c, v)[d := StakesOf(c, v)[d].(rewards := 0)]]
    ensures forall w :: BookOf(c', w) == BookOf(c, w)
  {
    assert BookOf(c', v).held == BookOf(c, v).held;
  }

  lemma WithdrawBooks(p: Params, c: Chain, c': Chain, d: Addr, v: Addr)
    requires Sane(c) && Withdraw(p, c, d, v) == Ok(c')
    ensures c'.validators.Keys == c.validators.Keys && c'.queue == c.queue && c'.now == c.now
    ensures c'.stakes.Keys <= c.stakes.Keys + c.validators.Keys
    ensures forall w :: BookOf(c', w) == BookOf(c, w)
  {
    UpdateRewardsBooks(p, c, v);
    ClearRewardsBooks(UpdateRewards(p, c, v).value, d, v, c');
  }

  lemma RegisterBooks(c: Chain, c': Chain, v: Addr, commission: nat)
    requires AddValidator(c, v, commission) == Ok(c') && OnlyRegistered(c)
    ensures forall w :: BookOf(c', w) == BookOf(c, w)
  {
  }

  lemma UndelegateKeeps(p: Params, c: Chain, c': Chain, d: Addr, v: Addr, coin: Coin, all: set<Addr>, w: Addr, t: Tally)
    requires Sane(c) && d in all && Undelegate(p, c, d, v, coin) == Ok(c')
    requires Kept(all, BookOf(c, w), t.slashes, t.dropped)
    ensures Kept(all, BookOf(c', w), t.slashes, t.dropped)
  {
    var c1 := RemoveStake(p, c, v, d, coin.amount).value;
    RemoveKeeps(p, c, c1, d, v, coin.amount, all, w, t);
    SameBooks(c1, c');
  }

  lemma RedelegateKeeps(p: Params, c: Chain, c': Chain, d: Addr, src: Addr, dst: Addr, coin: Coin, all: set<Addr>,
                        w: Addr, t: Tally)
    requires Sane(c) && d in all && Redelegate(p, c, d, src, dst, coin) == Ok(c')
    requires Kept(all, BookOf(c, w), t.slashes, t.dropped)
    ensures Kept(all, BookOf(c', w), t.slashes, t.dropped)
  {
    var c1 := RemoveStake(p, c, src, d, coin.amount).value;
    RemoveKeeps(p, c, c1, d, src, coin.amount, all, w, t);
    AddKeeps(p, c1, c', d, dst, coin.amount, all, w, t);
  }

  lemma AdvanceKeeps(p: Params, c: Chain, c': Chain, elapsed: nat, all: set<Addr>, v: Addr, t: Tally)
    requires AdvanceBlock(p, c, elapsed) == Ok(c') && Kept(all, BookOf(c, v), t.slashes, t.dropped)
    ensures Kept(all, BookOf(c', v), t.slashes, t.dropped + |StakesOf(c, v)| - |StakesOf(c', v)|)
  {
    var c1 := c.(now := c.now + elapsed);
    SameBooks(c, c1);
    ProcessQueueKeeps(p, c1, c', all, v, t);
    HeldSize(c, v); HeldSize(c', v);
  }

  lemma StakeStepKeeps(p: Params, all: set<Addr>, c: Chain, c': Chain, v: Addr, t: Tally, s: Step)
    requires Sane(c) && Allowed(all, s) && Take(p, c, s) == Ok(c') && Kept(all, BookOf(c, v), t.slashes, t.dropped)
    requires s.Delegating? || s.Undelegating? || s.Redelegating?
    ensures Kept(all, BookOf(c', v), t.slashes, t.dropped)
  {
    if s.Delegating? {
      DelegateKeeps(p, c, c', s.sender, s.validator, s.coin, all, v, t);
    } else if s.Undelegating? {
      UndelegateKeeps(p, c, c', s.sender, s.validator, s.coin, all, v, t);
    } else {
      RedelegateKeeps(p, c, c', s.sender, s.validator, s.dst, s.coin, all, v, t);
    }
  }

  lemma OtherStepBooks(p: Params, c: Chain, c': Chain, s: Step)
    requires Sane(c) && OnlyRegistered(c) && Take(p, c, s) == Ok(c')
    requires s.Register? || s.Withdrawing? || s.Redirecting? || s.Elsewhere?
    ensures forall w :: BookOf(c', w) == BookOf(c, w)
  {
    if s.Register? {
      RegisterBooks(c, c', s.validator, s.commission);
    } else if s.Withdrawing? {
      WithdrawBooks(p, c, c', s.sender, s.validator);
    } else {
      SameBooks(c, c');
    }
  }

  lemma DoneKeeps(p: Params, all: set<Addr>, c: Chain, c': Chain, v: Addr, t: Tally, s: Step)
    requires Sane(c) && OnlyRegistered(c) && all != {} && Allowed(all, s) && Take(p, c, s) == Ok(c')
    requires Kept(all, BookOf(c, v), t.slashes, t.dropped)
    ensures var t' := CountDone(c, c', v, t, s); Kept(all, BookOf(c', v), t'.slashes, t'.dropped)
  {
    if s.Slashing? {
      SlashKeeps(p, c, c', s.validator, s.percentage, all, v, t);
    } else if s.Advance? {
      AdvanceKeeps(p, c, c', s.elapsed, all, v, t);
    } else if s.Register? || s.Withdrawing? || s.Redirecting? || s.Elsewhere? {
      OtherStepBooks(p, c, c', s);
    } else {
      StakeStepKeeps(p, all, c, c', v, t, s);
    }
  }

  lemma StepKeeps(p: Params, all: set<Addr>, c: Chain, v: Addr, t: Tally, s: Step)
    requires Sane(c) && OnlyRegistered(c) && all != {} && Allowed(all, s)
    requires Kept(all, BookOf(c, v), t.slashes, t.dropped)
    ensures var t' := Count(p, c, v, t, s); Kept(all, BookOf(Next(p, all, c, s), v), t'.slashes, t'.dropped)
  {
    var r := Take(p, c, s);
    if r.Ok? { DoneKeeps(p, all, c, r.value, v, t, s); }
  }

  // ---- Solvency ----

  ghost function Queued(q: seq<Unbonding>): nat {
    if q == [] then 0 else q[0].amount + Queued(q[1..])
  }

  /** What the module account holds beyond all stakes and all queued unbondings. */
  ghost function Surplus(p: Params, c: Chain): int {
    Has(c.ledger, p.moduleAddr, p.denom) - Bonded(c) - Queued(c.queue)
  }

  ghost predicate InPayoutOrder(q: seq<Unbonding>, latest: int) {
    && (forall i, j :: 0 <= i < j < |q| ==> q[i].payoutAt <= q[j].payoutAt)
    && (forall i :: 0 <= i < |q| ==> q[i].payoutAt <= latest)
  }

  /** In payout order, nothing later than `latest`. */
  ghost predicate Orderly(q: seq<Unbonding>, latest: int) {
    q == [] ||
    (&& q[0].payoutAt <= latest
     && (|q| > 1 ==> q[0].payoutAt <= q[1].payoutAt)
     && Orderly(q[1..], latest))
  }

  lemma {:induction false} OrderlyMeans(q: seq<Unbonding>, latest: int)
    requires Orderly(q, latest)
    ensures InPayoutOrder(q, latest)
  {
    if q != [] {
      OrderlyMeans(q[1..], latest);
      forall i, j | 0 <= i < j < |q| ensures q[i].payoutAt <= q[j].payoutAt {
        assert q[1..][0] == q[1] && q[j] == q[1..][j - 1] && (i > 0 ==> q[i] == q[1..][i - 1]);
      }
    }
  }

  lemma {:induction false} OrderlyLonger(q: seq<Unbonding>, latest: int, later: int)
    requires Orderly(q, latest) && latest <= later
    ensures Orderly(q, later)
  {
    if q != [] { OrderlyLonger(q[1..], latest, later); }
  }

  lemma {:induction false} OrderlyAppend(q: seq<Unbonding>, u: Unbonding)
    requires Orderly(q, u.payoutAt)
    ensures Orderly(q + [u], u.payoutAt)
    ensures Queued(q + [u]) == Queued(q) + u.amount
  {
    if q == [] {
      assert q + [u] == [u] && [u][1..] == [];
    } else {
      assert (q + [u])[1..] == q[1..] + [u];
      OrderlyAppend(q[1..], u);
    }
  }

  lemma {:induction false} OrderlySlashed(q: seq<Unbonding>, latest: int, v: Addr, remaining: nat)
    requires Orderly(q, latest) && remaining <= ONE
    ensures Orderly(SlashQueue(q, v, remaining), latest)
    ensures Queued(SlashQueue(q, v, remaining)) <= Queued(q)
  {
    if q != [] {
      OrderlySlashed(q[1..], latest, v, remaining);
      MulAtMost(q[0].amount, remaining);
      var r := SlashQueue(q, v, remaining);
      assert r[1..] == SlashQueue(q[1..], v, remaining);
      if |q| > 1 { assert r[1] == r[1..][0]; }
    }
  }

  ghost predicate Sound(p: Params, c: Chain) {
    && Sane(c) && OnlyRegistered(c) && CanonicalLedger(c.ledger)
    && Orderly(c.queue, c.now + p.unbondingTime * NANOS)
  }

  ghost predicate Moved(p: Params, l: Ledger<Addr>, l1: Ledger<Addr>, from: Addr, to: Addr, amount: nat) {
    forall a :: Has(l1, a, p.denom)
             == Has(l, a, p.denom) - (if a == from then amount else 0) + (if a == to then amount else 0)
  }

  lemma PayEffect(p: Params, c: Chain, from: Addr, to: Addr, amount: nat)
    requires CanonicalLedger(c.ledger) && amount > 0
    ensures Pay(p, c, from, to, amount).Ok? <==> Has(c.ledger, from, p.denom) >= amount
    ensures Pay(p, c, from, to, amount).Ok? ==>
      var c1 := Pay(p, c, from, to, amount).value;
      c1 == c.(ledger := c1.ledger) && CanonicalLedger(c1.ledger) && Moved(p, c.ledger, c1.ledger, from, to, amount)
  {
    var cs := [Coin(p.denom, amount)];
    assert cs[1..] == [];
    forall d ensures Amount(cs, d) == if d == p.denom then amount else 0 { }
    SendEffect(c.ledger, from, to, cs);
    assert Covers(c.ledger, from, cs) <==> Has(c.ledger, from, p.denom) >= amount by {
      if Has(c.ledger, from, p.denom) < amount { assert Amount(cs, p.denom) == amount; }
    }
  }

  lemma BondedNonNegative(c: Chain)
    ensures Bonded(c) >= 0
  {
    SumNonNegative(StakeMap(c.validators));
  }

  lemma PopFrontEffect(p: Params, c: Chain)
    requires CanonicalLedger(c.ledger) && c.queue != []
    ensures Surplus(p, c) >= 0 ==> PopFront(p, c).Ok?
    ensures PopFront(p, c).Ok? ==>
      var c1, u := PopFront(p, c).value, c.queue[0];
      && CanonicalLedger(c1.ledger)
      && Surplus(p, c1) == Surplus(p, c) + (if u.delegator == p.moduleAddr then u.amount else 0)
      && Moved(p, c.ledger, c1.ledger, p.moduleAddr, u.delegator, u.amount)
  {
    BondedNonNegative(c);
    var u, rest := c.queue[0], c.queue[1..];
    var c0 := DropEmpty(c, u.delegator, u.validator, rest).(queue := rest);
    assert c0.validators == c.validators && c0.ledger == c.ledger;
    if u.amount > 0 { PayEffect(p, c0, p.moduleAddr, u.delegator, u.amount); }
  }

  /** What is due to `d` by `now`, and what is left. */
  ghost function Due(q: seq<Unbonding>, now: nat, d: Addr): nat {
    if q == [] then 0
    else (if q[0].payoutAt <= now && q[0].delegator == d then q[0].amount else 0) + Due(q[1..], now, d)
  }

  ghost function Later(q: seq<Unbonding>, now: nat): seq<Unbonding> {
    if q == [] then [] else if q[0].payoutAt > now then [q[0]] + Later(q[1..], now) else Later(q[1..], now)
  }

  lemma {:induction false} NothingDue(q: seq<Unbonding>, now: nat, latest: int)
    requires Orderly(q, latest) && (q != [] ==> q[0].payoutAt > now)
    ensures Later(q, now) == q && forall d :: Due(q, now, d) == 0
  {
    if q != [] {
      NothingDue(q[1..], now, latest);
      assert q == [q[0]] + q[1..];
    }
  }

  /** The queue pays every due entry, to its delegator, once, and leaves the later
      ones in order; a covered queue is always paid. */
  lemma {:induction false} QueuePaysWhatIsDue(p: Params, c: Chain, latest: int)
    requires CanonicalLedger(c.ledger) && Orderly(c.queue, latest)
    ensures Surplus(p, c) >= 0 ==> ProcessQueue(p, c).Ok?
    ensures ProcessQueue(p, c).Ok? ==>
      var c' := ProcessQueue(p, c).value;
      && CanonicalLedger(c'.ledger) && Surplus(p, c') == Surplus(p, c) + Due(c.queue, c.now, p.moduleAddr)
      && c'.queue == Later(c.queue, c.now)
      && forall a :: a != p.moduleAddr ==>
           Has(c'.ledger, a, p.denom) == Has(c.ledger, a, p.denom) + Due(c.queue, c.now, a)
    decreases |c.queue|
  {
    if c.queue == [] || c.queue[0].payoutAt > c.now {
      NothingDue(c.queue, c.now, latest);
    } else {
      PopFrontEffect(p, c);
      var r := PopFront(p, c);
      if r.Ok? {
        QueuePaysWhatIsDue(p, r.value, latest);
      }
    }
  }

  lemma {:induction false} LaterOrderly(q: seq<Unbonding>, now: nat, latest: int)
    requires Orderly(q, latest)
    ensures Orderly(Later(q, now), latest)
    ensures q != [] && Later(q, now) != [] ==> q[0].payoutAt <= Later(q, now)[0].payoutAt
  {
    if q != [] {
      LaterOrderly(q[1..], now, latest);
      var rest := Later(q[1..], now);
      assert |q| > 1 ==> q[1..][0] == q[1];
      if q[0].payoutAt > now {
        var r := [q[0]] + rest;
        assert r[1..] == rest && (rest != [] ==> r[1] == rest[0]);
      }
    }
  }

  // ---- One step ----

  /** What a step adds to the surplus, or takes from it, slashing apart: other
      modules' business with the account, rewards withdrawn to it, unbondings paid
      to it, and its own delegations, which it pays to itself. */
  ghost function Gain(p: Params, all: set<Addr>, c: Chain, s: Step): int
    requires Sane(c) && Allowed(all, s)
  {
    match s
    case Delegating(d, _, coin) => if d == p.moduleAddr && Take(p, c, s).Ok? then -(coin.amount as int) else 0
    case Advance(elapsed) => if Take(p, c, s).Ok? then Due(c.queue, c.now + elapsed, p.moduleAddr) else 0
    case Withdrawing(d, _) => if ReceiverOf(c, d) == p.moduleAddr then Deposit(p, c, Next(p, all, c, s)) else 0
    case Elsewhere(_) => Deposit(p, c, Next(p, all, c, s))
    case _ => 0
  }

  ghost function Deposit(p: Params, c: Chain, c': Chain): int {
    Has(c'.ledger, p.moduleAddr, p.denom) - Has(c.ledger, p.moduleAddr, p.denom)
  }

  lemma StoreSolvent(p: Params, c: Chain, c1: Chain, v: Addr, d: Addr, atoms: nat, stake: nat)
    requires Sound(p, c) && v in c.validators && c1.queue == c.queue && Sane(c1)
    requires OnlyBook(c, c1, v, Store(BookOf(c, v), d, atoms, stake))
    ensures Sound(p, c1) && Surplus(p, c1) == Surplus(p, c) + BookOf(c, v).stake - stake
  {
    BondedMoves(c, c1, v, Store(BookOf(c, v), d, atoms, stake));
  }

  lemma RemoveSolvent(p: Params, c: Chain, c1: Chain, d: Addr, v: Addr, amount: nat)
    requires Sound(p, c) && RemoveStake(p, c, v, d, amount) == Ok(c1)
    ensures Sound(p, c1) && Surplus(p, c1) == Surplus(p, c) + amount && c1.queue == c.queue && c1.now == c.now
  {
    RemoveStakeBooks(p, c, v, d, amount, c1);
    StoreSolvent(p, c, c1, v, d, BookOf(c, v).held[d] - amount * ONE, BookOf(c, v).stake - amount);
  }

  lemma AddSolvent(p: Params, c: Chain, c1: Chain, d: Addr, v: Addr, amount: nat)
    requires Sound(p, c) && AddStake(p, c, v, d, amount) == Ok(c1)
    ensures Sound(p, c1) && Surplus(p, c1) == Surplus(p, c) - amount
  {
    AddStakeBooks(p, c, v, d, amount, c1);
    StoreSolvent(p, c, c1, v, d, Held(BookOf(c, v), d) + amount * ONE, BookOf(c, v).stake + amount);
  }

  lemma PaySolvent(p: Params, c: Chain, c': Chain, from: Addr, amount: nat)
    requires Sound(p, c) && amount > 0 && Pay(p, c, from, p.moduleAddr, amount) == Ok(c')
    ensures Sound(p, c') && Surplus(p, c') == Surplus(p, c) + if from == p.moduleAddr then 0 else amount
  {
    PayEffect(p, c, from, p.moduleAddr, amount);
  }

  /** A delegation pays for the stake it adds exactly when somebody other than the
      module account makes it; the module account would pay itself. */
  lemma DelegateSolvent(p: Params, c: Chain, c': Chain, d: Addr, v: Addr, coin: Coin)
    requires Sound(p, c) && Delegate(p, c, d, v, coin) == Ok(c')
    ensures Sound(p, c') && Surplus(p, c') == Surplus(p, c) - if d == p.moduleAddr then coin.amount else 0
    ensures Surplus(p, c') >= Surplus(p, c) <==> d != p.moduleAddr
  {
    var c1 := AddStake(p, c, v, d, coin.amount).value;
    AddSolvent(p, c, c1, d, v, coin.amount);
    PaySolvent(p, c1, c', d, coin.amount);
  }

  lemma EnqueueSolvent(p: Params, c: Chain, c': Chain, u: Unbonding)
    requires Sound(p, c) && u.payoutAt == c.now + p.unbondingTime * NANOS
    requires c' == c.(queue := c.queue + [u])
    ensures Sound(p, c') && Surplus(p, c') == Surplus(p, c) - u.amount
  {
    OrderlyAppend(c.queue, u);
  }

  lemma UndelegateIs(p: Params, c: Chain, c': Chain, d: Addr, v: Addr, coin: Coin) returns (c1: Chain, u: Unbonding)
    requires Sane(c) && Undelegate(p, c, d, v, coin) == Ok(c')
    ensures Sane(c1) && RemoveStake(p, c, v, d, coin.amount) == Ok(c1) && c' == c1.(queue := c1.queue + [u])
    ensures u == Unbonding(d, v, coin.amount, c1.now + p.unbondingTime * NANOS)
  {
    c1 := RemoveStake(p, c, v, d, coin.amount).value;
    u := Unbonding(d, v, coin.amount, c1.now + p.unbondingTime * NANOS);
  }

  lemma UndelegateSolvent(p: Params, c: Chain, c': Chain, d: Addr, v: Addr, coin: Coin)
    requires Sound(p, c) && Undelegate(p, c, d, v, coin) == Ok(c')
    ensures Sound(p, c') && Surplus(p, c') == Surplus(p, c)
  {
    var c1, u := UndelegateIs(p, c, c', d, v, coin);
    RemoveSolvent(p, c, c1, d, v, coin.amount);
    EnqueueSolvent(p, c1, c', u);
  }

  lemma RedelegateSolvent(p: Params, c: Chain, c': Chain, d: Addr, src: Addr, dst: Addr, coin: Coin)
    requires Sound(p, c) && Redelegate(p, c, d, src, dst, coin) == Ok(c')
    ensures Sound(p, c') && Surplus(p, c') == Surplus(p, c)
  {
    var c1 := RemoveStake(p, c, src, d, coin.amount).value;
    RemoveSolvent(p, c, c1, d, src, coin.amount);
    AddSolvent(p, c1, c', d, dst, coin.amount);
  }

  lemma SlashBonded(p: Params, c: Chain, c': Chain, v: Addr, percentage: nat)
    requires Sane(c) && OnlyRegistered(c) && Slash(p, c, v, percentage) == Ok(c')
    ensures Bonded(c') <= Bonded(c) && OnlyRegistered(c') && percentage <= ONE
    ensures c'.ledger == c.ledger && c'.now == c.now && c'.queue == SlashQueue(c.queue, v, ONE - percentage)
  {
    SlashBooks(p, c, v, percentage);
    var b, remaining := BookOf(c, v), ONE - percentage;
    BondedMoves(c, c', v, SlashedBook(b, remaining));
    MulAtMost(b.stake, remaining);
  }

  lemma SlashSolvent(p: Params, c: Chain, c': Chain, v: Addr, percentage: nat)
    requires Sound(p, c) && Slash(p, c, v, percentage) == Ok(c')
    ensures Sound(p, c') && Surplus(p, c') >= Surplus(p, c)
  {
    SlashBonded(p, c, c', v, percentage);
    OrderlySlashed(c.queue, c.now + p.unbondingTime * NANOS, v, ONE - percentage);
  }

  lemma {:induction false} ProcessQueueRegistered(p: Params, c: Chain)
    requires ProcessQueue(p, c).Ok?
    ensures ProcessQueue(p, c).value.stakes.Keys <= c.stakes.Keys
    decreases |c.queue|
  {
    if c.queue != [] && c.queue[0].payoutAt <= c.now {
      ProcessQueueRegistered(p, PopFront(p, c).value);
    }
  }

  lemma AdvanceSolvent(p: Params, c: Chain, c': Chain, elapsed: nat)
    requires Sound(p, c) && AdvanceBlock(p, c, elapsed) == Ok(c')
    ensures Sound(p, c') && Surplus(p, c') == Surplus(p, c) + Due(c.queue, c.now + elapsed, p.moduleAddr)
  {
    var c1 := c.(now := c.now + elapsed);
    var latest := c.now + p.unbondingTime * NANOS;
    ProcessQueueRegistered(p, c1);
    QueuePaysWhatIsDue(p, c1, latest);
    LaterOrderly(c.queue, c1.now, latest);
    OrderlyLonger(c'.queue, latest, latest + elapsed);
  }

  lemma RegisterSolvent(p: Params, c: Chain, c': Chain, v: Addr, commission: nat)
    requires Sound(p, c) && commission <= ONE && AddValidator(c, v, commission) == Ok(c')
    ensures Sound(p, c') && Surplus(p, c') == Surplus(p, c)
  {
    SumPut(StakeMap(c.validators), v, 0);
    assert StakeMap(c'.validators) == StakeMap(c.validators)[v := 0];
  }

  lemma UpdateRewardsBonded(p: Params, c: Chain, v: Addr)
    requires Sane(c) && UpdateRewards(p, c, v).Ok?
    ensures var c1 := UpdateRewards(p, c, v).value;
      && Bonded(c1) == Bonded(c) && c1.queue == c.queue && c1.ledger == c.ledger && c1.now == c.now
      && c1.stakes.Keys <= c.stakes.Keys + {v}
      && c1.validators.Keys == c.validators.Keys
  {
    UpdateRewardsBooks(p, c, v);
    BondedMoves(c, UpdateRewards(p, c, v).value, v, BookOf(c, v));
  }

  lemma MintSolvent(p: Params, c: Chain, l: Ledger<Addr>, to: Addr, amount: nat)
    requires Sound(p, c) && Mint(c.ledger, to, [Coin(p.denom, amount)]) == Some(l)
    ensures Sound(p, c.(ledger := l))
    ensures Surplus(p, c.(ledger := l)) == Surplus(p, c) + if to == p.moduleAddr then amount else 0
  {
    var cs := [Coin(p.denom, amount)];
    assert cs[1..] == [] && Amount(cs, p.denom) == amount;
    MintEffect(c.ledger, to, cs);
  }

  lemma RemoveRewardsSolvent(p: Params, c: Chain, d: Addr, v: Addr)
    requires Sound(p, c) && RemoveRewards(p, c, d, v).Ok?
    ensures var c1 := RemoveRewards(p, c, d, v).value.1;
      Sound(p, c1) && Surplus(p, c1) == Surplus(p, c) && c1.ledger == c.ledger
  {
    UpdateRewardsBonded(p, c, v);
  }

  lemma WithdrawIs(p: Params, c: Chain, c': Chain, d: Addr, v: Addr) returns (amount: nat, c1: Chain)
    requires Sane(c) && Withdraw(p, c, d, v) == Ok(c')
    ensures RemoveRewards(p, c, d, v) == Ok((amount, c1)) && c' == c1.(ledger := c'.ledger)
    ensures Mint(c1.ledger, ReceiverOf(c, d), [Coin(p.denom, amount)]) == Some(c'.ledger)
  {
    var r := RemoveRewards(p, c, d, v).value;
    amount, c1 := r.0, r.1;
  }

  lemma RewardsMinted(p: Params, c: Chain, c1: Chain, c': Chain, to: Addr, amount: nat)
    requires Sound(p, c1) && Surplus(p, c1) == Surplus(p, c) && c1.ledger == c.ledger
    requires Mint(c1.ledger, to, [Coin(p.denom, amount)]) == Some(c'.ledger) && c' == c1.(ledger := c'.ledger)
    ensures Sound(p, c') && Deposit(p, c, c') >= 0
    ensures Surplus(p, c') == Surplus(p, c) + if to == p.moduleAddr then Deposit(p, c, c') else 0
  {
    MintSolvent(p, c1, c'.ledger, to, amount);
  }

  lemma WithdrawSolvent(p: Params, c: Chain, c': Chain, d: Addr, v: Addr)
    requires Sound(p, c) && Withdraw(p, c, d, v) == Ok(c')
    ensures Sound(p, c') && Deposit(p, c, c') >= 0
    ensures Surplus(p, c') == Surplus(p, c) + if ReceiverOf(c, d) == p.moduleAddr then Deposit(p, c, c') else 0
  {
    var amount, c1 := WithdrawIs(p, c, c', d, v);
    RemoveRewardsSolvent(p, c, d, v);
    RewardsMinted(p, c, c1, c', ReceiverOf(c, d), amount);
  }

  /** Every step moves the surplus by exactly its gain, and a slash if anything upwards. */
  lemma StepSolvent(p: Params, all: set<Addr>, c: Chain, s: Step)
    requires Sound(p, c) && Allowed(all, s)
    ensures var c' := Next(p, all, c, s);
      && Sound(p, c')
      && Surplus(p, c') >= Surplus(p, c) + Gain(p, all, c, s)
      && (!s.Slashing? ==> Surplus(p, c') == Surplus(p, c) + Gain(p, all, c, s))
  {
    var r := Take(p, c, s);
    if r.Ok? {
      match s
      case Register(v, commission) => RegisterSolvent(p, c, r.value, v, commission);
      case Delegating(d, v, coin) => DelegateSolvent(p, c, r.value, d, v, coin);
      case Undelegating(d, v, coin) => UndelegateSolvent(p, c, r.value, d, v, coin);
      case Redelegating(d, src, dst, coin) => RedelegateSolvent(p, c, r.value, d, src, dst, coin);
      case Slashing(v, percentage) => SlashSolvent(p, c, r.value, v, percentage);
      case Advance(elapsed) => AdvanceSolvent(p, c, r.value, elapsed);
      case Withdrawing(d, v) => WithdrawSolvent(p, c, r.value, d, v);
      case Redirecting(_, _) =>
      case Elsewhere(_) =>
    }
  }

  /** Only the module account's own delegations and outside payments from it take anything. */
  lemma OnlySpendingCosts(p: Params, all: set<Addr>, c: Chain, s: Step)
    requires Sound(p, c) && Allowed(all, s)
    ensures Gain(p, all, c, s) < 0 <==>
      || (s.Delegating? && s.sender == p.moduleAddr && Take(p, c, s).Ok?)
      || (s.Elsewhere? && Has(s.ledger, p.moduleAddr, p.denom) < Has(c.ledger, p.moduleAddr, p.denom))
  {
    if s.Withdrawing? && Take(p, c, s).Ok? {
      WithdrawSolvent(p, c, Take(p, c, s).value, s.sender, s.validator);
    }
  }

  // ---- Every run ----

  ghost function Gained(p: Params, all: set<Addr>, c: Chain, steps: seq<Step>): int
    requires Sane(c) && AllAllowed(all, steps)
  {
    if steps == [] then 0
    else
      var n := |steps| - 1;
      Gained(p, all, c, steps[..n]) + Gain(p, all, Reach(p, all, c, steps[..n]), steps[n])
  }

  /** On every run the module account holds what it began with and gained on top of
      all stakes and all queued unbondings, or more when validators were slashed. */
  lemma {:induction false} RunSolvent(p: Params, all: set<Addr>, ledger: Ledger<Addr>, now: nat, steps: seq<Step>)
    requires AllAllowed(all, steps) && CanonicalLedger(ledger)
    ensures var c := Reach(p, all, Genesis(ledger, now), steps);
      var own := Has(ledger, p.moduleAddr, p.denom) + Gained(p, all, Genesis(ledger, now), steps);
      && Sound(p, c) && Surplus(p, c) >= own
      && ((forall i :: 0 <= i < |steps| ==> !steps[i].Slashing?) ==> Surplus(p, c) == own)
  {
    var g := Genesis(ledger, now);
    if steps == [] {
      assert StakeMap(g.validators) == map[];
    } else {
      var n := |steps| - 1;
      RunSolvent(p, all, ledger, now, steps[..n]);
      StepSolvent(p, all, Reach(p, all, g, steps[..n]), steps[n]);
    }
  }

  /** The account has not spent more on its own than it had and was given. */
  ghost predicate PaysItsWay(p: Params, all: set<Addr>, ledger: Ledger<Addr>, now: nat, steps: seq<Step>)
    requires AllAllowed(all, steps)
  {
    Has(ledger, p.moduleAddr, p.denom) + Gained(p, all, Genesis(ledger, now), steps) >= 0
  }

  ghost predicate NeverSpends(p: Params, all: set<Addr>, c: Chain, steps: seq<Step>)
    requires Sane(c) && AllAllowed(all, steps)
  {
    steps == [] ||
    var n := |steps| - 1;
    NeverSpends(p, all, c, steps[..n]) && Gain(p, all, Reach(p, all, c, steps[..n]), steps[n]) >= 0
  }

  /** In particular when no step takes anything from it. */
  lemma {:induction false} NeverSpending(p: Params, all: set<Addr>, c: Chain, steps: seq<Step>)
    requires Sane(c) && AllAllowed(all, steps) && NeverSpends(p, all, c, steps)
    ensures Gained(p, all, c, steps) >= 0
  {
    if steps != [] { NeverSpending(p, all, c, steps[..|steps| - 1]); }
  }

  /** A later block pays everyone exactly what fell due, once, and keeps the rest of
      the queue in order. */
  ghost predicate Settles(p: Params, c: Chain, elapsed: nat) {
    && AdvanceBlock(p, c, elapsed).Ok?
    && var c' := AdvanceBlock(p, c, elapsed).value;
      && c'.queue == Later(c.queue, c.now + elapsed)
      && InPayoutOrder(c'.queue, c.now + p.unbondingTime * NANOS)
      && forall d :: d != p.moduleAddr ==>
           Has(c'.ledger, d, p.denom) == Has(c.ledger, d, p.denom) + Due(c.queue, c.now + elapsed, d)
  }

  lemma CoveredBlockSettles(p: Params, c: Chain, elapsed: nat)
    requires Sound(p, c) && Surplus(p, c) >= 0
    ensures Settles(p, c, elapsed)
  {
    var c1, latest := c.(now := c.now + elapsed), c.now + p.unbondingTime * NANOS;
    QueuePaysWhatIsDue(p, c1, latest);
    LaterOrderly(c.queue, c1.now, latest);
    OrderlyMeans(Later(c.queue, c1.now), latest);
  }

  /** The states of all runs from an empty staking module. */
  ghost predicate Reachable(p: Params, all: set<Addr>, c: Chain) {
    exists ledger, now, steps ::
      AllAllowed(all, steps) && CanonicalLedger(ledger) && c == Reach(p, all, Genesis(ledger, now), steps)
  }

  /** On every run on which the module account pays its own way it covers what it
      owes, so moving to a later block never panics and settles what fell due. */
  lemma BlocksAlwaysSettle(p: Params, all: set<Addr>, ledger: Ledger<Addr>, now: nat, steps: seq<Step>, elapsed: nat)
    requires AllAllowed(all, steps) && CanonicalLedger(ledger) && PaysItsWay(p, all, ledger, now, steps)
    ensures var c := Reach(p, all, Genesis(ledger, now), steps);
      Has(c.ledger, p.moduleAddr, p.denom) >= Bonded(c) + Queued(c.queue) && Settles(p, c, elapsed)
  {
    RunSolvent(p, all, ledger, now, steps);
    CoveredBlockSettles(p, Reach(p, all, Genesis(ledger, now), steps), elapsed);
  }

  lemma {:induction false} RunKeeps(p: Params, all: set<Addr>, ledger: Ledger<Addr>, now: nat, steps: seq<Step>,
                                    v: Addr)
    requires all != {} && AllAllowed(all, steps) && CanonicalLedger(ledger)
    ensures var c, t := Reach(p, all, Genesis(ledger, now), steps), Counted(p, all, Genesis(ledger, now), v, steps);
      Kept(all, BookOf(c, v), t.slashes, t.dropped)
  {
    var g := Genesis(ledger, now);
    if steps == [] {
      assert BookOf(g, v) == Book({}, 0, map[]);
    } else {
      var n := |steps| - 1;
      RunKeeps(p, all, ledger, now, steps[..n], v);
      RunSolvent(p, all, ledger, now, steps[..n]);
      StepKeeps(p, all, Reach(p, all, g, steps[..n]), v, Counted(p, all, g, v, steps[..n]), steps[n]);
    }
  }

  /** After `k` slashes since the stake was last wiped out, with `n` possible
      delegators and `e` forgotten delegations, the delegators' shares are
      together more than `-k * n` atoms and `-e` tokens and less than `k` tokens
      away from the validator's stake; and exactly equal to it when `k` is 0. */
  lemma DriftBound(p: Params, all: set<Addr>, ledger: Ledger<Addr>, now: nat, steps: seq<Step>, v: Addr)
    requires all != {} && AllAllowed(all, steps) && CanonicalLedger(ledger)
    ensures
      var c, t := Reach(p, all, Genesis(ledger, now), steps), Counted(p, all, Genesis(ledger, now), v, steps);
      && (t.slashes == 0 ==> t.dropped == 0 && Drift(BookOf(c, v)) == 0)
      && (t.slashes > 0 ==> -(t.slashes * |all|) - t.dropped * ONE < Drift(BookOf(c, v)) < t.slashes * ONE)
      && (t.dropped == 0 ==> BookOf(c, v).held.Keys == BookOf(c, v).stakers)
  {
    RunKeeps(p, all, ledger, now, steps, v);
  }
}
