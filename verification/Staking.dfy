/**
 The staking module's state and what each of its operations does to it:
 shares and validators, rewards, slashing, and the unbonding queue, paid
 through the bank.
 */
module Staking {
  import opened Bytes
  import opened Bank
  import opened Decimals
  import opened Results

  type Addr = bytes

  /** Both fields are decimals, in atoms. */
  datatype Shares = Shares(stake: nat, rewards: nat)

  /** A registered validator with its `ValidatorInfo`. The commission is a
      decimal; the last reward calculation is in nanoseconds. */
  datatype Validator = Validator(commission: nat, stakers: set<Addr>, stake: nat, last: nat)

  datatype Unbonding = Unbonding(delegator: Addr, validator: Addr, amount: nat, payoutAt: nat)

  /** The staking parameters, the address that holds all staked tokens, and the
      addresses the chain's API accepts. */
  datatype Params = Params(denom: Denom, unbondingTime: nat, apr: nat, moduleAddr: Addr, valid: Addr -> bool)

  /** `STAKES` is kept per validator here; the queue is in payout order; `receivers`
      are the withdraw addresses that are not the delegator's own. */
  datatype Chain = Chain(
    validators: map<Addr, Validator>,
    stakes: map<Addr, map<Addr, Shares>>,
    queue: seq<Unbonding>,
    ledger: Ledger<Addr>,
    now: nat,
    receivers: map<Addr, Addr>)

  function StakesOf(c: Chain, v: Addr): map<Addr, Shares> {
    if v in c.stakes then c.stakes[v] else map[]
  }

  /** Commissions are at most one, and rewards were never calculated in the future. */
  ghost predicate Sane(c: Chain) {
    forall v :: v in c.validators ==> c.validators[v].commission <= ONE && c.validators[v].last <= c.now
  }

  function AddValidator(c: Chain, v: Addr, commission: nat): Result<Chain> {
    if v in c.validators then Refused
    else Ok(c.(validators := c.validators[v := Validator(commission, {}, 0, c.now)]))
  }

  // ---- Rewards ----

  function NewRewards(p: Params, val: Validator, now: nat): nat
    requires val.commission <= ONE && val.last <= now
  {
    CalculateRewards(now, val.last, p.apr, val.commission, val.stake)
  }

  function Credited(s: Shares, total: nat, rewards: nat): Shares {
    s.(rewards := s.rewards + ShareOfRewards(s.stake, total, rewards))
  }

  function CreditAll(m: map<Addr, Shares>, stakers: set<Addr>, total: nat, rewards: nat): map<Addr, Shares> {
    map d | d in m :: if d in stakers then Credited(m[d], total, rewards) else m[d]
  }

  function UpdateRewards(p: Params, c: Chain, v: Addr): (r: Result<Chain>)
    requires Sane(c)
    ensures r.Ok? ==> v in r.value.validators && Sane(r.value) && r.value.now == c.now
  {
    if v !in c.validators then Refused
    else
      var val := c.validators[v];
      if val.last >= c.now then Ok(c)
      else
        var earned := NewRewards(p, val, c.now);
        var c1 := c.(validators := c.validators[v := val.(last := c.now)]);
        if earned == 0 then Ok(c1)
        else if !(val.stakers <= StakesOf(c, v).Keys) then Panicked
        else Ok(c1.(stakes := c.stakes[v := CreditAll(StakesOf(c, v), val.stakers, val.stake, earned)]))
  }

  /** `get_rewards`, in whole tokens; `None` without a delegation. */
  function GetRewards(p: Params, c: Chain, d: Addr, v: Addr): Result<Option<nat>>
    requires Sane(c)
  {
    if v !in c.validators then Refused
    else if d !in StakesOf(c, v) then Ok(None)
    else
      var val, s := c.validators[v], StakesOf(c, v)[d];
      Ok(Some(Floor(Credited(s, val.stake, NewRewards(p, val, c.now)).rewards)))
  }

  /** `remove_rewards`: the whole tokens due, and the state without them. */
  function RemoveRewards(p: Params, c: Chain, d: Addr, v: Addr): (r: Result<(nat, Chain)>)
    requires Sane(c)
    ensures r.Ok? ==> Sane(r.value.1)
  {
    var c1 :- UpdateRewards(p, c, v);
    if d !in StakesOf(c1, v) then Refused
    else
      var s := StakesOf(c1, v)[d];
      Ok((Floor(s.rewards), c1.(stakes := c1.stakes[v := StakesOf(c1, v)[d := s.(rewards := 0)]])))
  }

  // ---- Stake ----

  /** Saves a delegator's shares, or drops the delegator when none are left. */
  function SaveShares(c: Chain, v: Addr, d: Addr, s: Shares, stake: nat): (r: Chain)
    requires v in c.validators && Sane(c)
    ensures Sane(r)
  {
    var val := c.validators[v];
    if s.stake == 0 then
      c.(stakes := c.stakes[v := StakesOf(c, v) - {d}],
         validators := c.validators[v := val.(stakers := val.stakers - {d}, stake := stake)])
    else
      c.(stakes := c.stakes[v := StakesOf(c, v)[d := s]],
         validators := c.validators[v := val.(stakers := val.stakers + {d}, stake := stake)])
  }

  function SharesOf(c: Chain, v: Addr, d: Addr): Shares {
    if d in StakesOf(c, v) then StakesOf(c, v)[d] else Shares(0, 0)
  }

  function AddStake(p: Params, c: Chain, v: Addr, d: Addr, amount: nat): (r: Result<Chain>)
    requires Sane(c)
    ensures r.Ok? ==> Sane(r.value)
  {
    var c1 :- UpdateRewards(p, c, v);
    var s := SharesOf(c1, v, d);
    Ok(SaveShares(c1, v, d, s.(stake := s.stake + amount * ONE), c1.validators[v].stake + amount))
  }

  function RemoveStake(p: Params, c: Chain, v: Addr, d: Addr, amount: nat): (r: Result<Chain>)
    requires Sane(c)
    ensures r.Ok? ==> Sane(r.value)
  {
    var c1 :- UpdateRewards(p, c, v);
    if d !in StakesOf(c1, v) then Refused
    else
      var s, stake := StakesOf(c1, v)[d], c1.validators[v].stake;
      if amount * ONE > s.stake || amount > stake then Refused
      else Ok(SaveShares(c1, v, d, s.(stake := s.stake - amount * ONE), stake - amount))
  }

  function ScaleAll(m: map<Addr, Shares>, stakers: set<Addr>, remaining: nat): map<Addr, Shares> {
    map d | d in m :: if d in stakers then m[d].(stake := Mul(m[d].stake, remaining)) else m[d]
  }

  function SlashQueue(q: seq<Unbonding>, v: Addr, remaining: nat): seq<Unbonding> {
    if q == [] then []
    else
      [if q[0].validator == v then q[0].(amount := Mul(q[0].amount, remaining)) else q[0]]
      + SlashQueue(q[1..], v, remaining)
  }

  /** Validator stake and shares are scaled down and rounded separately; when the
      stake is gone, so are the stakers. */
  function Slash(p: Params, c: Chain, v: Addr, percentage: nat): (r: Result<Chain>)
    requires Sane(c)
    ensures r.Ok? ==> Sane(r.value)
  {
    if percentage > ONE then Refused
    else
      var c1 :- UpdateRewards(p, c, v);
      var remaining := ONE - percentage;
      var val := c1.validators[v];
      var stake := Mul(val.stake, remaining);
      var queue := SlashQueue(c1.queue, v, remaining);
      if stake == 0 then
        Ok(c1.(stakes := c1.stakes[v := StakesOf(c1, v) - val.stakers],
               validators := c1.validators[v := val.(stakers := {}, stake := 0)], queue := queue))
      else if !(val.stakers <= StakesOf(c1, v).Keys) then Panicked
      else
        Ok(c1.(stakes := c1.stakes[v := ScaleAll(StakesOf(c1, v), val.stakers, remaining)],
               validators := c1.validators[v := val.(stake := stake)], queue := queue))
  }

  // ---- Messages ----

  function Pay(p: Params, c: Chain, from: Addr, to: Addr, amount: nat): Result<Chain> {
    match Send(c.ledger, from, to, [Coin(p.denom, amount)])
    case None => Refused
    case Some(l) => Ok(c.(ledger := l))
  }

  function Delegate(p: Params, c: Chain, sender: Addr, v: Addr, coin: Coin): (r: Result<Chain>)
    requires Sane(c)
    ensures r.Ok? ==> Sane(r.value)
  {
    if coin.amount == 0 || coin.denom != p.denom then Refused
    else
      var c1 :- AddStake(p, c, v, sender, coin.amount);
      Pay(p, c1, sender, p.moduleAddr, coin.amount)
  }

  function Undelegate(p: Params, c: Chain, sender: Addr, v: Addr, coin: Coin): (r: Result<Chain>)
    requires Sane(c)
    ensures r.Ok? ==> Sane(r.value)
  {
    if coin.denom != p.denom || coin.amount == 0 then Refused
    else
      var c1 :- RemoveStake(p, c, v, sender, coin.amount);
      Ok(c1.(queue := c1.queue + [Unbonding(sender, v, coin.amount, c1.now + p.unbondingTime * NANOS)]))
  }

  function Redelegate(p: Params, c: Chain, sender: Addr, src: Addr, dst: Addr, coin: Coin): (r: Result<Chain>)
    requires Sane(c)
    ensures r.Ok? ==> Sane(r.value)
  {
    if coin.denom != p.denom then Refused
    else
      var c1 :- RemoveStake(p, c, src, sender, coin.amount);
      AddStake(p, c1, dst, sender, coin.amount)
  }

  /** `get_withdraw_address` */
  function ReceiverOf(c: Chain, d: Addr): Addr { if d in c.receivers then c.receivers[d] else d }

  /** `SetWithdrawAddress`; the delegator's own address is not stored but cleared. */
  function SetReceiver(p: Params, c: Chain, sender: Addr, to: Addr): Result<Chain> {
    if !p.valid(to) then Refused
    else if to == sender then Ok(c.(receivers := c.receivers - {sender}))
    else Ok(c.(receivers := c.receivers[sender := to]))
  }

  function Withdraw(p: Params, c: Chain, sender: Addr, v: Addr): (r: Result<Chain>)
    requires Sane(c)
    ensures r.Ok? ==> Sane(r.value)
  {
    var (amount, c1) :- RemoveRewards(p, c, sender, v);
    var to := ReceiverOf(c1, sender);
    if !p.valid(to) then Refused
    else
      match Mint(c1.ledger, to, [Coin(p.denom, amount)])
      case None => Refused
      case Some(l) => Ok(c1.(ledger := l))
  }

  // ---- The unbonding queue ----

  function Pending(q: seq<Unbonding>, d: Addr, v: Addr): nat {
    if q == [] then 0
    else (if q[0].delegator == d && q[0].validator == v then q[0].amount else 0) + Pending(q[1..], d, v)
  }

  /** Forgets a delegation that shows no whole token and awaits none. */
  function DropEmpty(c: Chain, d: Addr, v: Addr, rest: seq<Unbonding>): Chain {
    if d in StakesOf(c, v) && Floor(StakesOf(c, v)[d].stake) + Pending(rest, d, v) == 0
    then c.(stakes := c.stakes[v := StakesOf(c, v) - {d}])
    else c
  }

  function PayOut(p: Params, c: Chain, u: Unbonding): Result<Chain> {
    if u.amount == 0 then Ok(c) else Pay(p, c, p.moduleAddr, u.delegator, u.amount)
  }

  /** One turn of the loop: the front entry leaves the queue and is paid. */
  function PopFront(p: Params, c: Chain): (r: Result<Chain>)
    requires c.queue != []
    ensures r.Ok? ==> r.value.queue == c.queue[1..] && r.value.validators == c.validators && r.value.now == c.now
  {
    var u, rest := c.queue[0], c.queue[1..];
    PayOut(p, DropEmpty(c, u.delegator, u.validator, rest).(queue := rest), u)
  }

  function ProcessQueue(p: Params, c: Chain): (r: Result<Chain>)
    ensures r.Ok? ==> r.value.validators == c.validators && r.value.now == c.now
    decreases |c.queue|
  {
    if c.queue == [] || c.queue[0].payoutAt > c.now then Ok(c)
    else
      var c1 :- PopFront(p, c);
      ProcessQueue(p, c1)
  }

  /** `update_block` with a later time; an error from the queue is unwrapped. */
  function AdvanceBlock(p: Params, c: Chain, elapsed: nat): Result<Chain> {
    var r := ProcessQueue(p, c.(now := c.now + elapsed));
    if r.Ok? then r else Panicked
  }
}
