/**
 What slashing, registering and the passing of a block leave, in numbers.
 */
module StakingOutcomes {
  import opened Decimals
  import opened Results
  import opened Staking
  import opened StakingRewards

  // ---- Slashing ----

  /** What a slash leaves of an amount. */
  ghost function Left(amount: nat, percentage: nat): nat
    requires percentage <= 1_000_000_000_000_000_000
  {
    amount * (1_000_000_000_000_000_000 - percentage) / 1_000_000_000_000_000_000
  }

  lemma {:induction false} QueueSlashed(q: seq<Unbonding>, v: Addr, remaining: nat)
    requires remaining <= ONE
    ensures var r := SlashQueue(q, v, remaining);
      && |r| == |q|
      && forall i :: 0 <= i < |q| ==>
           r[i] == if q[i].validator == v then q[i].(amount := q[i].amount * remaining / ONE) else q[i]
  {
    if q != [] {
      QueueSlashed(q[1..], v, remaining);
      var r := SlashQueue(q, v, remaining);
      assert r[1..] == SlashQueue(q[1..], v, remaining);
      forall i | 0 < i < |q|
        ensures r[i] == if q[i].validator == v then q[i].(amount := q[i].amount * remaining / ONE) else q[i]
      {
        assert r[i] == r[1..][i - 1] && q[i] == q[1..][i - 1];
      }
    }
  }

  /** A slash works exactly for a known validator and a part of at most one. */
  lemma SlashSucceeds(p: Params, c: Chain, v: Addr, percentage: nat)
    requires Sane(c) && NobodyMissing(c)
    ensures Slash(p, c, v, percentage).Ok? <==> v in c.validators && percentage <= 1_000_000_000_000_000_000
    ensures !Slash(p, c, v, percentage).Ok? ==> Slash(p, c, v, percentage) == Refused
  {
    UpdateIsSafe(p, c, v);
    MulAtMost(0, if percentage <= ONE then ONE - percentage else 0);
  }

  /** An update of rewards touches rewards and the time of the last update only. */
  lemma UpdateLeaves(p: Params, c: Chain, v: Addr, c1: Chain)
    requires Sane(c) && UpdateRewards(p, c, v) == Ok(c1)
    ensures v in c.validators && c1.validators == c.validators[v := c.validators[v].(last := c.now)]
    ensures c1 == c.(validators := c1.validators, stakes := c1.stakes)
    ensures forall w :: StakesOf(c1, w).Keys == StakesOf(c, w).Keys && (w != v ==> StakesOf(c1, w) == StakesOf(c, w))
    ensures forall d :: d in StakesOf(c, v) ==> StakesOf(c1, v)[d].stake == StakesOf(c, v)[d].stake
  {
    var val := c.validators[v];
    assert val.last >= c.now ==> val.(last := c.now) == val && c.validators[v := val] == c.validators;
  }

  /** What a slash does to a validator whose rewards are up to date. */
  lemma SlashIs(p: Params, c: Chain, c': Chain, v: Addr, percentage: nat) returns (c1: Chain)
    requires Sane(c) && Slash(p, c, v, percentage) == Ok(c')
    ensures v in c.validators && percentage <= ONE && UpdateRewards(p, c, v) == Ok(c1) && v in c1.validators
    ensures var val, remaining := c1.validators[v], ONE - percentage;
      var stake := Mul(val.stake, remaining);
      && c'.validators == c1.validators[v := val.(stakers := if stake == 0 then {} else val.stakers, stake := stake)]
      && c'.stakes == c1.stakes[v := if stake == 0 then StakesOf(c1, v) - val.stakers
                                     else ScaleAll(StakesOf(c1, v), val.stakers, remaining)]
      && c' == c1.(validators := c'.validators, stakes := c'.stakes, queue := SlashQueue(c1.queue, v, remaining))
  {
    c1 := UpdateRewards(p, c, v).value;
  }

  /** It takes that part of the validator's stake and of every staker's shares, each
      rounded down by itself; a validator left with nothing loses its stakers and
      their delegations. */
  lemma SlashTakesStake(p: Params, c: Chain, c': Chain, v: Addr, percentage: nat)
    requires Sane(c) && Slash(p, c, v, percentage) == Ok(c')
    ensures v in c.validators && percentage <= ONE && v in c'.validators
    ensures var val, val', left := c.validators[v], c'.validators[v], Left(c.validators[v].stake, percentage);
      && val' == Validator(val.commission, if left == 0 then {} else val.stakers, left, c.now)
      && StakesOf(c', v).Keys == (if left == 0 then StakesOf(c, v).Keys - val.stakers else StakesOf(c, v).Keys)
      && forall d :: d in StakesOf(c', v) ==>
           StakesOf(c', v)[d].stake
           == if d in val.stakers then Left(StakesOf(c, v)[d].stake, percentage) else StakesOf(c, v)[d].stake
  {
    var c1 := SlashIs(p, c, c', v, percentage);
    UpdateLeaves(p, c, v, c1);
  }

  /** And of every unbonding from it; it touches no funds and no other validator. */
  lemma SlashTakesUnbondings(p: Params, c: Chain, c': Chain, v: Addr, percentage: nat)
    requires Sane(c) && Slash(p, c, v, percentage) == Ok(c')
    ensures percentage <= ONE && |c'.queue| == |c.queue|
    ensures forall i :: 0 <= i < |c.queue| ==> var u := c.queue[i];
      c'.queue[i] == if u.validator == v then u.(amount := Left(u.amount, percentage)) else u
    ensures c'.ledger == c.ledger && c'.now == c.now && c'.receivers == c.receivers
    ensures forall w :: w != v ==> StakesOf(c', w) == StakesOf(c, w)
    ensures forall w :: w != v ==> (w in c'.validators <==> w in c.validators)
    ensures forall w :: w != v && w in c.validators ==> c'.validators[w] == c.validators[w]
  {
    var c1 := SlashIs(p, c, c', v, percentage);
    UpdateLeaves(p, c, v, c1);
    QueueSlashed(c.queue, v, ONE - percentage);
  }

  // ---- Registering ----

  /** A new validator begins with nothing, now; a known one is refused. */
  lemma RegisteringIs(c: Chain, v: Addr, commission: nat)
    ensures var r := AddValidator(c, v, commission);
      && (v in c.validators ==> r == Refused)
      && (v !in c.validators ==>
            && r.Ok? && v in r.value.validators && r.value.validators[v] == Validator(commission, {}, 0, c.now)
            && r.value == c.(validators := r.value.validators) && r.value.validators.Keys == c.validators.Keys + {v}
            && forall w :: w in c.validators ==> r.value.validators[w] == c.validators[w])
  {
  }

  // ---- Blocks ----

  /** Nothing is still awaited by `d` from `v`. */
  ghost predicate AwaitsNothing(q: seq<Unbonding>, d: Addr, v: Addr) {
    forall i :: 0 <= i < |q| && q[i].delegator == d && q[i].validator == v ==> q[i].amount == 0
  }

  lemma {:induction false} PendingIsNothing(q: seq<Unbonding>, d: Addr, v: Addr)
    ensures Pending(q, d, v) == 0 <==> AwaitsNothing(q, d, v)
  {
    if q != [] {
      PendingIsNothing(q[1..], d, v);
      assert q == [q[0]] + q[1..];
      assert AwaitsNothing(q, d, v) <==>
        (q[0].delegator == d && q[0].validator == v ==> q[0].amount == 0) && AwaitsNothing(q[1..], d, v);
    }
  }

  /** Among the first `n` entries there is one of `d` at `v`. */
  ghost predicate Processed(q: seq<Unbonding>, n: nat, d: Addr, v: Addr)
    requires n <= |q|
  {
    exists i :: 0 <= i < n && q[i].delegator == d && q[i].validator == v
  }

  lemma ProcessedFrom(q: seq<Unbonding>, n: nat, d: Addr, v: Addr)
    requires 0 < n <= |q|
    ensures Processed(q, n, d, v) <==> (q[0].delegator == d && q[0].validator == v) || Processed(q[1..], n - 1, d, v)
  {
    if Processed(q[1..], n - 1, d, v) {
      var i :| 0 <= i < n - 1 && q[1..][i].delegator == d && q[1..][i].validator == v;
      assert q[i + 1].delegator == d;
    }
    if Processed(q, n, d, v) && !(q[0].delegator == d && q[0].validator == v) {
      var i :| 0 <= i < n && q[i].delegator == d && q[i].validator == v;
      assert q[1..][i - 1].delegator == d;
    }
  }

  /** One entry off the queue forgets its own delegation, when that has no whole token
      left and awaits nothing more, and no other. */
  lemma PopForgets(p: Params, c: Chain, c': Chain, d: Addr, v: Addr)
    requires c.queue != [] && PopFront(p, c) == Ok(c') && d in StakesOf(c, v)
    ensures c'.queue == c.queue[1..]
    ensures d in StakesOf(c', v) ==> StakesOf(c', v)[d] == StakesOf(c, v)[d]
    ensures d !in StakesOf(c', v) <==>
      && c.queue[0].delegator == d && c.queue[0].validator == v
      && StakesOf(c, v)[d].stake < 1_000_000_000_000_000_000 && AwaitsNothing(c'.queue, d, v)
  {
    PendingIsNothing(c.queue[1..], d, v);
    DivBounds(StakesOf(c, v)[d].stake, ONE);
  }

  lemma {:induction false} GoneStaysGone(p: Params, c: Chain, c': Chain, d: Addr, v: Addr)
    requires ProcessQueue(p, c) == Ok(c') && d !in StakesOf(c, v)
    ensures d !in StakesOf(c', v)
    decreases |c.queue|
  {
    if c.queue != [] && c.queue[0].payoutAt <= c.now { GoneStaysGone(p, PopFront(p, c).value, c', d, v); }
  }

  /** How far the queue was worked off: up to the first entry that is not due. */
  lemma {:induction false} WorkedOff(p: Params, c: Chain, c': Chain) returns (n: nat)
    requires ProcessQueue(p, c) == Ok(c')
    ensures n <= |c.queue| && c'.queue == c.queue[n..]
    ensures forall i :: 0 <= i < n ==> c.queue[i].payoutAt <= c.now
    ensures n < |c.queue| ==> c.queue[n].payoutAt > c.now
    ensures c'.now == c.now && c'.validators == c.validators && c'.receivers == c.receivers
    decreases |c.queue|
  {
    n := 0;
    if c.queue != [] && c.queue[0].payoutAt <= c.now {
      var c1 := PopFront(p, c).value;
      var m := WorkedOff(p, c1, c');
      n := m + 1;
      assert c.queue[1..][m..] == c.queue[n..];
      forall i | 0 <= i < n ensures c.queue[i].payoutAt <= c.now { if i > 0 { assert c1.queue[i - 1] == c.queue[i]; } }
    }
  }

  lemma AwaitsBelow(q: seq<Unbonding>, n: nat, d: Addr, v: Addr)
    requires n <= |q|
    ensures AwaitsNothing(q, d, v) ==> AwaitsNothing(q[n..], d, v)
    ensures AwaitsNothing(q[n..], d, v) && !Processed(q, n, d, v) ==> AwaitsNothing(q, d, v)
  {
    forall i | n <= i < |q| ensures q[i] == q[n..][i - n] { }
  }

  /** A block forgets exactly the delegations with no whole token left that were being
      paid out and await nothing more, and changes no other. */
  lemma {:induction false} QueueForgets(p: Params, c: Chain, c': Chain, n: nat, d: Addr, v: Addr)
    requires ProcessQueue(p, c) == Ok(c') && d in StakesOf(c, v)
    requires n <= |c.queue| && c'.queue == c.queue[n..]
    ensures d in StakesOf(c', v) ==> StakesOf(c', v)[d] == StakesOf(c, v)[d]
    ensures d !in StakesOf(c', v) <==>
      Processed(c.queue, n, d, v) && StakesOf(c, v)[d].stake < ONE && AwaitsNothing(c.queue[n..], d, v)
    decreases |c.queue|
  {
    if c.queue != [] && c.queue[0].payoutAt <= c.now {
      var c1, rest := PopFront(p, c).value, c.queue[1..];
      var m := WorkedOff(p, c1, c');
      assert |c'.queue| == |rest| - m == |c.queue| - n;
      assert rest[n - 1..] == c.queue[n..];
      PopForgets(p, c, c1, d, v);
      ProcessedFrom(c.queue, n, d, v);
      AwaitsBelow(rest, n - 1, d, v);
      if d in StakesOf(c1, v) { QueueForgets(p, c1, c', n - 1, d, v); } else { GoneStaysGone(p, c1, c', d, v); }
    } else {
      assert n == 0;
    }
  }

  /** Moving on by `elapsed` moves the clock by just that, leaves every validator and
      withdraw address alone, takes the due entries off the front of the queue, and
      forgets just those delegations; a queue that cannot be paid is a panic. */
  lemma BlockIs(p: Params, c: Chain, elapsed: nat) returns (n: nat)
    ensures var r := AdvanceBlock(p, c, elapsed);
      && (r.Ok? || r == Panicked)
      && (r.Ok? ==>
            && r.value.now == c.now + elapsed && r.value.validators == c.validators
            && r.value.receivers == c.receivers && n <= |c.queue| && r.value.queue == c.queue[n..]
            && (forall i :: 0 <= i < n ==> c.queue[i].payoutAt <= c.now + elapsed)
            && (n < |c.queue| ==> c.queue[n].payoutAt > c.now + elapsed)
            && forall d, v ::
                 && (d in StakesOf(r.value, v) ==> d in StakesOf(c, v) && StakesOf(r.value, v)[d] == StakesOf(c, v)[d])
                 && (d in StakesOf(c, v) ==>
                       (d !in StakesOf(r.value, v) <==>
                          && Processed(c.queue, n, d, v) && StakesOf(c, v)[d].stake < ONE
                          && AwaitsNothing(c.queue[n..], d, v))))
  {
    n := 0;
    var c1, r := c.(now := c.now + elapsed), AdvanceBlock(p, c, elapsed);
    if r.Ok? {
      n := WorkedOff(p, c1, r.value);
      forall d, v
        ensures d in StakesOf(r.value, v) ==> d in StakesOf(c, v) && StakesOf(r.value, v)[d] == StakesOf(c, v)[d]
        ensures d in StakesOf(c, v) ==>
          (d !in StakesOf(r.value, v) <==>
             Processed(c.queue, n, d, v) && StakesOf(c, v)[d].stake < ONE && AwaitsNothing(c.queue[n..], d, v))
      {
        if d in StakesOf(c, v) { QueueForgets(p, c1, r.value, n, d, v); } else { GoneStaysGone(p, c1, r.value, d, v); }
      }
    }
  }
}
