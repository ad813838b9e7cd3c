/**
 What a delegator has earned, in numbers, and that no operation at the same block
 changes it for anybody who stays.
 */
module StakingClaims {
  import opened Bytes
  import opened Bank
  import opened Decimals
  import opened Results
  import opened Staking
  import opened StakingBooks
  import opened StakingLaws
  import opened StakingRewards
  import opened StakingMessages

  // ---- What is earned ----

  /** What validator `v`'s delegators have earned together since the last update. */
  ghost function Earnings(p: Params, val: Validator, now: nat): int {
    var gross := val.stake * p.apr * (now / NANOS - val.last / NANOS) / 31_536_000;
    gross - gross * val.commission / ONE
  }

  /** In atoms: what is stored for `d`, and its part of what has come since. */
  ghost function Claim(p: Params, c: Chain, d: Addr, v: Addr): int
    requires v in c.validators && d in StakesOf(c, v)
  {
    var val, s := c.validators[v], StakesOf(c, v)[d];
    s.rewards + if val.stake == 0 then 0 else Earnings(p, val, c.now) * s.stake / (ONE * val.stake)
  }

  lemma EarningsAre(p: Params, val: Validator, now: nat)
    requires val.commission <= ONE && val.last <= now
    ensures NewRewards(p, val, now) == Earnings(p, val, now)
  {
    RewardInNumbers(now, val.last, p.apr, val.commission, val.stake);
  }

  /** The query shows the whole tokens of the claim. */
  lemma QueryShowsClaim(p: Params, c: Chain, d: Addr, v: Addr)
    requires Sane(c)
    ensures GetRewards(p, c, d, v) == Refused <==> v !in c.validators
    ensures v in c.validators && d !in StakesOf(c, v) ==> GetRewards(p, c, d, v) == Ok(None)
    ensures v in c.validators && d in StakesOf(c, v) ==>
      Claim(p, c, d, v) >= 0 && GetRewards(p, c, d, v) == Ok(Some(Claim(p, c, d, v) / ONE))
  {
    if v in c.validators && d in StakesOf(c, v) {
      var val, s := c.validators[v], StakesOf(c, v)[d];
      EarningsAre(p, val, c.now);
      if val.stake > 0 { ShareOfRewardsIs(s.stake, val.stake, NewRewards(p, val, c.now)); }
    }
  }

  /** An update stores every staker's claim and starts counting afresh. */
  lemma UpdateStoresClaims(p: Params, c: Chain, v: Addr)
    requires Sane(c) && UpdateRewards(p, c, v).Ok? && ShareholdersAreStakers(c, v)
    ensures v in c.validators
    ensures var r := UpdateRewards(p, c, v);
      && r.value.validators == c.validators[v := c.validators[v].(last := c.now)]
      && r.value == c.(validators := r.value.validators, stakes := r.value.stakes)
      && (forall w :: w != v ==> StakesOf(r.value, w) == StakesOf(c, w))
      && StakesOf(r.value, v).Keys == StakesOf(c, v).Keys
      && forall d :: d in StakesOf(c, v) ==>
           && StakesOf(r.value, v)[d].stake == StakesOf(c, v)[d].stake
           && StakesOf(r.value, v)[d].rewards == Claim(p, c, d, v)
  {
    var r := UpdateRewards(p, c, v);
    var val := c.validators[v];
    assert val.last >= c.now ==> val.(last := c.now) == val && c.validators[v := val] == c.validators;
    forall d | d in StakesOf(c, v) ensures StakesOf(r.value, v)[d].rewards == Claim(p, c, d, v) {
      UpdatedRewards(p, c, d, v);
      EarningsAre(p, val, c.now);
      if val.stake > 0 { ShareOfRewardsIs(StakesOf(c, v)[d].stake, val.stake, NewRewards(p, val, c.now)); }
    }
  }

  // ---- Claims that stay ----

  /** In the next state, still now, everything `d` has earned at `v` is what it was. */
  ghost predicate Keeps(p: Params, c: Chain, c': Chain, d: Addr, v: Addr)
    requires Sane(c) && Sane(c')
  {
    && v in c.validators && v in c'.validators && d in StakesOf(c, v) && d in StakesOf(c', v)
    && Claim(p, c', d, v) == Claim(p, c, d, v) && GetRewards(p, c', d, v) == GetRewards(p, c, d, v)
  }

  /** At a validator updated at this block a claim is what is stored. */
  lemma CurrentClaim(p: Params, c: Chain, d: Addr, v: Addr)
    requires v in c.validators && d in StakesOf(c, v) && c.validators[v].last == c.now
    ensures Claim(p, c, d, v) == StakesOf(c, v)[d].rewards
  {
    var val, s := c.validators[v], StakesOf(c, v)[d];
    assert val.stake * p.apr * 0 == 0;
    assert 0 * val.commission == 0 && 0 * s.stake == 0;
    if val.stake > 0 { DivIs(0, ONE * val.stake, 0); }
    DivIs(0, ONE, 0);
  }

  lemma StoredIsKept(p: Params, c: Chain, c': Chain, d: Addr, v: Addr)
    requires Sane(c) && Sane(c') && v in c.validators && v in c'.validators
    requires d in StakesOf(c, v) && d in StakesOf(c', v)
    requires c'.validators[v].last == c'.now && StakesOf(c', v)[d].rewards == Claim(p, c, d, v)
    ensures Keeps(p, c, c', d, v)
  {
    CurrentClaim(p, c', d, v);
    QueryShowsClaim(p, c, d, v);
    QueryShowsClaim(p, c', d, v);
  }

  /** Nothing about `v` has changed. */
  lemma UntouchedIsKept(p: Params, c: Chain, c': Chain, d: Addr, v: Addr)
    requires Sane(c) && Sane(c') && v in c.validators && d in StakesOf(c, v) && c'.now == c.now
    requires v in c'.validators && c'.validators[v] == c.validators[v] && StakesOf(c', v) == StakesOf(c, v)
    ensures Keeps(p, c, c', d, v)
  {
  }

  /** Every claim on `v`, and on every other validator, that has not been given up. */
  ghost predicate KeepsAll(p: Params, c: Chain, c': Chain)
    requires Sane(c) && Sane(c')
  {
    forall d, v :: v in c.validators && d in StakesOf(c, v) && d in StakesOf(c', v) ==> Keeps(p, c, c', d, v)
  }

  /** Whoever has shares is listed as a staker, as in every reachable state. */
  ghost predicate AllListed(c: Chain) { forall v :: ShareholdersAreStakers(c, v) }

  lemma ReachableIsListed(p: Params, all: set<Addr>, c: Chain)
    requires all != {} && Reachable(p, all, c)
    ensures AllListed(c)
  {
    forall v ensures ShareholdersAreStakers(c, v) {
      ReachableBook(p, all, c, v);
      HeldSize(c, v);
    }
  }

  lemma OneTouched(p: Params, c: Chain, c': Chain, v: Addr)
    requires Sane(c) && Sane(c') && c'.now == c.now && v in c.validators && v in c'.validators
    requires c'.validators[v].last == c'.now
    requires forall w :: w != v ==> StakesOf(c', w) == StakesOf(c, w) && (w in c'.validators <==> w in c.validators)
    requires forall w :: w != v && w in c.validators ==> c'.validators[w] == c.validators[w]
    requires forall d :: d in StakesOf(c, v) && d in StakesOf(c', v) ==> StakesOf(c', v)[d].rewards == Claim(p, c, d, v)
    ensures KeepsAll(p, c, c')
  {
    forall d, w | w in c.validators && d in StakesOf(c, w) && d in StakesOf(c', w) ensures Keeps(p, c, c', d, w) {
      if w == v { StoredIsKept(p, c, c', d, v); } else { UntouchedIsKept(p, c, c', d, w); }
    }
  }

  /** A slash takes nothing already earned: with stake left, every claim stands and is
      counted from now on. */
  lemma SlashKeepsClaims(p: Params, c: Chain, c': Chain, v: Addr, percentage: nat)
    requires Sane(c) && ShareholdersAreStakers(c, v) && Slash(p, c, v, percentage) == Ok(c')
    ensures v in c.validators && v in c'.validators && c'.validators[v].last == c.now && KeepsAll(p, c, c')
    ensures c'.validators[v].stake > 0 ==> StakesOf(c', v).Keys == StakesOf(c, v).Keys
  {
    UpdateStoresClaims(p, c, v);
    OneTouched(p, c, c', v);
  }

  lemma SavedIsKept(p: Params, c: Chain, c1: Chain, v: Addr, d: Addr, sh: Shares, stake: nat)
    requires Sane(c) && ShareholdersAreStakers(c, v) && UpdateRewards(p, c, v) == Ok(c1)
    requires d in StakesOf(c, v) ==> sh.rewards == Claim(p, c, d, v)
    ensures var c' := SaveShares(c1, v, d, sh, stake);
      && v in c.validators && v in c'.validators && c'.validators[v].last == c.now == c'.now && KeepsAll(p, c, c')
      && forall e, w :: e in StakesOf(c, w) && (e != d || w != v) ==> e in StakesOf(c', w)
  {
    UpdateStoresClaims(p, c, v);
    OneTouched(p, c, SaveShares(c1, v, d, sh, stake), v);
  }

  lemma SharesStored(p: Params, c: Chain, c1: Chain, v: Addr, d: Addr)
    requires Sane(c) && ShareholdersAreStakers(c, v) && UpdateRewards(p, c, v) == Ok(c1)
    ensures v in c.validators && StakesOf(c1, v).Keys == StakesOf(c, v).Keys
    ensures d in StakesOf(c, v) ==>
      StakesOf(c1, v)[d].rewards == Claim(p, c, d, v) && StakesOf(c1, v)[d].stake == StakesOf(c, v)[d].stake
  {
    UpdateStoresClaims(p, c, v);
  }

  /** What adding and removing stake save. */
  lemma AddSaves(p: Params, c: Chain, c': Chain, v: Addr, d: Addr, amount: nat)
    returns (c1: Chain, sh: Shares, stake: nat)
    requires Sane(c) && ShareholdersAreStakers(c, v) && AddStake(p, c, v, d, amount) == Ok(c')
    ensures UpdateRewards(p, c, v) == Ok(c1) && v in c1.validators && c' == SaveShares(c1, v, d, sh, stake)
    ensures v in c.validators && (d in StakesOf(c, v) ==> sh.rewards == Claim(p, c, d, v))
    ensures sh.stake == Held(BookOf(c, v), d) + amount * ONE && (d !in StakesOf(c, v) ==> sh.rewards == 0)
  {
    c1 := UpdateRewards(p, c, v).value;
    SharesStored(p, c, c1, v, d);
    var was := SharesOf(c1, v, d);
    sh, stake := was.(stake := was.stake + amount * ONE), c1.validators[v].stake + amount;
  }

  lemma RemoveSaves(p: Params, c: Chain, c': Chain, v: Addr, d: Addr, amount: nat)
    returns (c1: Chain, sh: Shares, stake: nat)
    requires Sane(c) && ShareholdersAreStakers(c, v) && RemoveStake(p, c, v, d, amount) == Ok(c')
    ensures UpdateRewards(p, c, v) == Ok(c1) && v in c1.validators && c' == SaveShares(c1, v, d, sh, stake)
    ensures v in c.validators && d in StakesOf(c, v) && sh.rewards == Claim(p, c, d, v)
    ensures sh.stake == StakesOf(c, v)[d].stake - amount * ONE
  {
    c1 := UpdateRewards(p, c, v).value;
    SharesStored(p, c, c1, v, d);
    var was := StakesOf(c1, v)[d];
    sh, stake := was.(stake := was.stake - amount * ONE), c1.validators[v].stake - amount;
  }

  /** In the next state, still now, `v` has just been updated and every claim that is
      still there is what it was; only `d`'s own at `v` can have gone. */
  ghost predicate Settled(p: Params, c: Chain, c': Chain, v: Addr, d: Addr)
    requires Sane(c) && Sane(c')
  {
    && v in c.validators && v in c'.validators && c'.validators[v].last == c.now == c'.now && KeepsAll(p, c, c')
    && forall e, w :: e in StakesOf(c, w) && (e != d || w != v) ==> e in StakesOf(c', w)
  }

  lemma AddKeepsClaims(p: Params, c: Chain, c': Chain, v: Addr, d: Addr, amount: nat)
    requires Sane(c) && ShareholdersAreStakers(c, v) && AddStake(p, c, v, d, amount) == Ok(c')
    ensures Settled(p, c, c', v, d)
  {
    var c1, sh, stake := AddSaves(p, c, c', v, d, amount);
    SavedIsKept(p, c, c1, v, d, sh, stake);
  }

  /** Whoever is new at a validator starts with nothing earned. */
  lemma NewcomersStartAtNothing(p: Params, c: Chain, c': Chain, v: Addr, d: Addr, amount: nat)
    requires Sane(c) && ShareholdersAreStakers(c, v) && AddStake(p, c, v, d, amount) == Ok(c')
    requires d !in StakesOf(c, v) && amount > 0
    ensures v in c'.validators && d in StakesOf(c', v) && Claim(p, c', d, v) == 0
  {
    var c1, sh, stake := AddSaves(p, c, c', v, d, amount);
    CurrentClaim(p, c', d, v);
    QueryShowsClaim(p, c', d, v);
  }

  lemma RemoveKeepsClaims(p: Params, c: Chain, c': Chain, v: Addr, d: Addr, amount: nat)
    requires Sane(c) && ShareholdersAreStakers(c, v) && RemoveStake(p, c, v, d, amount) == Ok(c')
    ensures Settled(p, c, c', v, d)
    ensures d in StakesOf(c, v) && (d in StakesOf(c', v) <==> StakesOf(c, v)[d].stake > amount * ONE)
  {
    var c1, sh, stake := RemoveSaves(p, c, c', v, d, amount);
    SavedIsKept(p, c, c1, v, d, sh, stake);
  }

  // ---- Messages ----

  /** Claims are about validators, shares and the time, not about the ledger or the queue. */
  lemma SameClaims(p: Params, c: Chain, c1: Chain, c': Chain, v: Addr, d: Addr)
    requires Sane(c) && Sane(c1) && Sane(c') && Settled(p, c, c1, v, d)
    requires c'.validators == c1.validators && c'.stakes == c1.stakes && c'.now == c1.now
    ensures Settled(p, c, c', v, d)
  {
    forall e, w | w in c.validators && e in StakesOf(c, w) && e in StakesOf(c', w) ensures Keeps(p, c, c', e, w) {
      assert Keeps(p, c, c1, e, w);
    }
  }

  /** Delegating keeps everybody's claims, the delegator's own included. */
  lemma DelegatingKeepsClaims(p: Params, c: Chain, c': Chain, d: Addr, v: Addr, coin: Coin)
    requires Sane(c) && ShareholdersAreStakers(c, v) && Delegate(p, c, d, v, coin) == Ok(c')
    ensures Settled(p, c, c', v, d)
    ensures d in StakesOf(c', v) && (d !in StakesOf(c, v) ==> Claim(p, c', d, v) == 0)
  {
    var c1 := AddStake(p, c, v, d, coin.amount).value;
    AddKeepsClaims(p, c, c1, v, d, coin.amount);
    SameClaims(p, c, c1, c', v, d);
    var c2, sh, stake := AddSaves(p, c, c1, v, d, coin.amount);
    if d !in StakesOf(c, v) { CurrentClaim(p, c', d, v); QueryShowsClaim(p, c', d, v); }
  }

  /** Undelegating keeps everybody's claims; the delegator's own goes with its last share. */
  lemma UndelegatingKeepsClaims(p: Params, c: Chain, c': Chain, d: Addr, v: Addr, coin: Coin)
    requires Sane(c) && ShareholdersAreStakers(c, v) && Undelegate(p, c, d, v, coin) == Ok(c')
    ensures Settled(p, c, c', v, d)
    ensures d in StakesOf(c, v) && (d in StakesOf(c', v) <==> StakesOf(c, v)[d].stake > coin.amount * ONE)
  {
    var c1, u := UndelegateIs(p, c, c', d, v, coin);
    RemoveKeepsClaims(p, c, c1, v, d, coin.amount);
    SameClaims(p, c, c1, c', v, d);
  }

  lemma TwiceKept(p: Params, c: Chain, c1: Chain, c': Chain, d: Addr, v: Addr)
    requires Sane(c) && Sane(c1) && Sane(c') && Keeps(p, c, c1, d, v) && Keeps(p, c1, c', d, v)
    ensures Keeps(p, c, c', d, v)
  {
  }

  lemma StillListed(p: Params, c: Chain, c': Chain, v: Addr, d: Addr, amount: nat, w: Addr)
    requires Sane(c) && ShareholdersAreStakers(c, v) && ShareholdersAreStakers(c, w)
    requires RemoveStake(p, c, v, d, amount) == Ok(c')
    ensures ShareholdersAreStakers(c', w)
  {
  }

  /** One operation after the other keeps what both keep. */
  lemma KeptTwice(p: Params, c: Chain, c1: Chain, c': Chain, src: Addr, dst: Addr, d: Addr)
    requires Sane(c) && Sane(c1) && Sane(c') && Settled(p, c, c1, src, d) && Settled(p, c1, c', dst, d)
    requires StakesOf(c', src) == StakesOf(c1, src) && StakesOf(c1, dst) == StakesOf(c, dst)
    requires forall w :: w in c.validators ==> w in c1.validators
    ensures KeepsAll(p, c, c')
    ensures forall e, w :: e in StakesOf(c, w) && (e != d || (w != src && w != dst)) ==> e in StakesOf(c', w)
  {
    forall e, w | w in c.validators && e in StakesOf(c, w) && e in StakesOf(c', w) ensures Keeps(p, c, c', e, w) {
      assert e in StakesOf(c1, w);
      TwiceKept(p, c, c1, c', e, w);
    }
  }

  lemma AddLists(p: Params, c: Chain, c': Chain, v: Addr, d: Addr, amount: nat)
    requires Sane(c) && ShareholdersAreStakers(c, v) && AddStake(p, c, v, d, amount) == Ok(c')
    ensures d in StakesOf(c', v) <==> Held(BookOf(c, v), d) > 0 || amount > 0
  {
    var c1, sh, stake := AddSaves(p, c, c', v, d, amount);
  }

  /** Redelegating keeps everybody's claims, at both validators and everywhere else. The
      delegator's own at the source goes exactly with its last share; and at the
      destination only a claim without any share, when nothing is added to it. */
  lemma RedelegatingKeepsClaims(p: Params, c: Chain, c': Chain, d: Addr, src: Addr, dst: Addr, coin: Coin)
    requires Sane(c) && ShareholdersAreStakers(c, src) && ShareholdersAreStakers(c, dst) && src != dst
    requires Redelegate(p, c, d, src, dst, coin) == Ok(c')
    ensures KeepsAll(p, c, c') && dst in c'.validators && c'.validators[dst].last == c.now
    ensures forall e, w :: e in StakesOf(c, w) && (e != d || (w != src && w != dst)) ==> e in StakesOf(c', w)
    ensures d in StakesOf(c, src) && (d in StakesOf(c', src) <==> StakesOf(c, src)[d].stake > coin.amount * ONE)
    ensures d in StakesOf(c', dst) <==> Held(BookOf(c, dst), d) > 0 || coin.amount > 0
    ensures d !in StakesOf(c, dst) && coin.amount > 0 ==> Claim(p, c', d, dst) == 0
  {
    var c1 := RemoveStake(p, c, src, d, coin.amount).value;
    RemoveKeepsClaims(p, c, c1, src, d, coin.amount);
    StillListed(p, c, c1, src, d, coin.amount, dst);
    AddKeepsClaims(p, c1, c', dst, d, coin.amount);
    AddedElsewhere(p, c1, c', dst, d, coin.amount, src);
    RemovedElsewhere(p, c, c1, src, d, coin.amount, dst);
    AddLists(p, c1, c', dst, d, coin.amount);
    if d !in StakesOf(c1, dst) && coin.amount > 0 { NewcomersStartAtNothing(p, c1, c', dst, d, coin.amount); }
    KeptTwice(p, c, c1, c', src, dst, d);
  }

  lemma UpdatedElsewhere(p: Params, c: Chain, c1: Chain, v: Addr, w: Addr)
    requires Sane(c) && UpdateRewards(p, c, v) == Ok(c1) && w != v
    ensures StakesOf(c1, w) == StakesOf(c, w) && (w in c1.validators <==> w in c.validators)
    ensures w in c.validators ==> c1.validators[w] == c.validators[w]
    ensures c1.validators.Keys == c.validators.Keys
  {
  }

  lemma SavedElsewhere(c: Chain, v: Addr, d: Addr, s: Shares, stake: nat, w: Addr)
    requires Sane(c) && v in c.validators && w != v
    ensures var c' := SaveShares(c, v, d, s, stake);
      && StakesOf(c', w) == StakesOf(c, w) && (w in c'.validators <==> w in c.validators)
      && (w in c.validators ==> c'.validators[w] == c.validators[w]) && c'.validators.Keys == c.validators.Keys
  {
  }

  lemma RemovedElsewhere(p: Params, c: Chain, c': Chain, v: Addr, d: Addr, amount: nat, w: Addr)
    requires Sane(c) && ShareholdersAreStakers(c, v) && RemoveStake(p, c, v, d, amount) == Ok(c') && w != v
    ensures StakesOf(c', w) == StakesOf(c, w) && c'.validators.Keys == c.validators.Keys
  {
    var c1, sh, stake := RemoveSaves(p, c, c', v, d, amount);
    UpdatedElsewhere(p, c, c1, v, w);
    SavedElsewhere(c1, v, d, sh, stake, w);
  }

  lemma AddedElsewhere(p: Params, c: Chain, c': Chain, v: Addr, d: Addr, amount: nat, w: Addr)
    requires Sane(c) && ShareholdersAreStakers(c, v) && AddStake(p, c, v, d, amount) == Ok(c') && w != v
    ensures StakesOf(c', w) == StakesOf(c, w) && (w in c'.validators <==> w in c.validators)
    ensures w in c.validators ==> c'.validators[w] == c.validators[w]
  {
    var c1, sh, stake := AddSaves(p, c, c', v, d, amount);
    UpdatedElsewhere(p, c, c1, v, w);
    SavedElsewhere(c1, v, d, sh, stake, w);
  }

  /** What comes back to a validator from itself finds its claim there, or nothing. */
  lemma BackToItself(p: Params, c1: Chain, c': Chain, d: Addr, v: Addr, amount: nat)
    requires Sane(c1) && ShareholdersAreStakers(c1, v) && AddStake(p, c1, v, d, amount) == Ok(c')
    ensures v in c1.validators && v in c'.validators
    ensures d in StakesOf(c', v) <==> Held(BookOf(c1, v), d) > 0 || amount > 0
    ensures d in StakesOf(c', v) ==> Claim(p, c', d, v) == if d in StakesOf(c1, v) then Claim(p, c1, d, v) else 0
  {
    var c2, sh, stake := AddSaves(p, c1, c', v, d, amount);
    if d in StakesOf(c', v) { CurrentClaim(p, c', d, v); }
  }

  /** What a removal leaves of the delegator's own claim. */
  lemma RemovalLeaves(p: Params, c: Chain, c1: Chain, d: Addr, v: Addr, amount: nat)
    requires Sane(c) && ShareholdersAreStakers(c, v) && RemoveStake(p, c, v, d, amount) == Ok(c1)
    ensures v in c.validators && d in StakesOf(c, v) && v in c1.validators
    ensures amount * ONE <= StakesOf(c, v)[d].stake
    ensures d in StakesOf(c1, v) <==> StakesOf(c, v)[d].stake != amount * ONE
    ensures Held(BookOf(c1, v), d) == StakesOf(c, v)[d].stake - amount * ONE
    ensures d in StakesOf(c1, v) ==> Claim(p, c1, d, v) == Claim(p, c, d, v)
  {
    var c2, sh, stake := RemoveSaves(p, c, c1, v, d, amount);
    if d in StakesOf(c1, v) { CurrentClaim(p, c1, d, v); }
  }

  /** Redelegating to the same validator keeps everybody's claims but the delegator's own,
      which is forgotten when it was everything it had there. */
  lemma RedelegatingAllToItselfForgets(p: Params, c: Chain, c': Chain, d: Addr, v: Addr, coin: Coin)
    requires Sane(c) && ShareholdersAreStakers(c, v) && Redelegate(p, c, d, v, v, coin) == Ok(c')
    ensures d in StakesOf(c, v) && (d in StakesOf(c', v) <==> StakesOf(c, v)[d].stake > 0)
    ensures v in c.validators && v in c'.validators && (d in StakesOf(c', v) ==>
      Claim(p, c', d, v) == if StakesOf(c, v)[d].stake == coin.amount * ONE then 0 else Claim(p, c, d, v))
  {
    var c1 := RemoveStake(p, c, v, d, coin.amount).value;
    RemovalLeaves(p, c, c1, d, v, coin.amount);
    StillListed(p, c, c1, v, d, coin.amount, v);
    BackToItself(p, c1, c', d, v, coin.amount);
  }

  /** And everybody else's stays. */
  lemma RedelegatingToItselfKeepsOthers(p: Params, c: Chain, c': Chain, d: Addr, v: Addr, coin: Coin, e: Addr, w: Addr)
    requires Sane(c) && ShareholdersAreStakers(c, v) && Redelegate(p, c, d, v, v, coin) == Ok(c')
    requires w in c.validators && e in StakesOf(c, w) && (e != d || w != v)
    ensures Keeps(p, c, c', e, w)
  {
    var c1 := RemoveStake(p, c, v, d, coin.amount).value;
    RemoveKeepsClaims(p, c, c1, v, d, coin.amount);
    StillListed(p, c, c1, v, d, coin.amount, v);
    AddKeepsClaims(p, c1, c', v, d, coin.amount);
    assert Keeps(p, c, c1, e, w) && e in StakesOf(c1, w) && Keeps(p, c1, c', e, w);
    TwiceKept(p, c, c1, c', e, w);
  }

  /** Redelegating works exactly with an amount of the bonded denomination, zero
      included, that both shares and stake at the source cover, between known validators. */
  lemma RedelegateSucceeds(p: Params, c: Chain, d: Addr, src: Addr, dst: Addr, coin: Coin)
    requires Sane(c) && NobodyMissing(c)
    ensures Redelegate(p, c, d, src, dst, coin).Ok? <==>
      && coin.denom == p.denom && src in c.validators && dst in c.validators && d in BookOf(c, src).held
      && coin.amount * ONE <= BookOf(c, src).held[d] && coin.amount <= BookOf(c, src).stake
  {
    RemoveSucceeds(p, c, src, d, coin.amount);
    RemoveIsSafe(p, c, d, src, coin.amount);
    var r := RemoveStake(p, c, src, d, coin.amount);
    if r.Ok? { AddSucceeds(p, r.value, dst, d, coin.amount); }
  }

  lemma MintsSome(l: Ledger<Addr>, to: Addr, denom: Denom, amount: nat)
    requires CanonicalLedger(l)
    ensures Mint(l, to, [Coin(denom, amount)]).Some? <==> amount > 0
  {
    MintEffect(l, to, [Coin(denom, amount)]);
    AsksIsNonZero([Coin(denom, amount)]);
    assert amount > 0 ==> Amount([Coin(denom, amount)], denom) > 0;
  }

  /** A withdrawal works exactly with a whole token to claim and a withdraw address,
      the delegator's own unless set, that the chain accepts. */
  lemma WithdrawSucceeds(p: Params, c: Chain, d: Addr, v: Addr)
    requires Sane(c) && CanonicalLedger(c.ledger) && NobodyMissing(c) && ShareholdersAreStakers(c, v)
    ensures Withdraw(p, c, d, v).Ok? <==>
      && v in c.validators && d in StakesOf(c, v) && Claim(p, c, d, v) >= 1_000_000_000_000_000_000
      && p.valid(if d in c.receivers then c.receivers[d] else d)
    ensures Withdraw(p, c, d, v) != Panicked
  {
    UpdateIsSafe(p, c, v);
    var r := UpdateRewards(p, c, v);
    if r.Ok? {
      UpdateStoresClaims(p, c, v);
      if d in StakesOf(c, v) {
        var claim, to := Claim(p, c, d, v), ReceiverOf(c, d);
        DivBounds(claim, ONE);
        MintsSome(c.ledger, to, p.denom, claim / ONE);
      }
    }
  }

  /** A withdrawal settles the delegator's claim and nobody else's. */
  lemma WithdrawingKeepsClaims(p: Params, c: Chain, c': Chain, d: Addr, v: Addr)
    requires Sane(c) && ShareholdersAreStakers(c, v) && Withdraw(p, c, d, v) == Ok(c')
    ensures v in c.validators && v in c'.validators && d in StakesOf(c', v) && Claim(p, c', d, v) == 0
    ensures forall e, w :: w in c.validators && e in StakesOf(c, w) && (e != d || w != v) ==> Keeps(p, c, c', e, w)
  {
    var c1 := UpdateRewards(p, c, v).value;
    UpdateStoresClaims(p, c, v);
    CurrentClaim(p, c', d, v);
    QueryShowsClaim(p, c', d, v);
    forall e, w | w in c.validators && e in StakesOf(c, w) && (e != d || w != v) ensures Keeps(p, c, c', e, w) {
      if w == v { StoredIsKept(p, c, c', e, v); } else { UntouchedIsKept(p, c, c', e, w); }
    }
  }
}
