/**
 The staking and distribution keepers as they run: storage updated in place,
 staker by staker and entry by entry, and rolled back when a message fails.
 Every method is proved to do what `Staking` says.
 */
module StakeKeeper {
  import opened Bank
  import opened Decimals
  import opened Results
  import opened Staking

  datatype Outcome = Done | Error | Panic

  datatype StakingMsg =
    | DelegateMsg(validator: Addr, amount: Coin)
    | UndelegateMsg(validator: Addr, amount: Coin)
    | RedelegateMsg(src: Addr, dst: Addr, amount: Coin)

  /** What a method that reported `out` and left `after` must have been asked for.
      A failed operation may leave anything behind; its caller rolls it back. */
  ghost predicate Agrees(out: Outcome, after: Chain, expected: Result<Chain>) {
    match expected
    case Ok(c) => out.Done? && after == c
    case Refused => out.Error?
    case Panicked => out.Panic?
  }

  class Keeper {
    const params: Params
    var validators: map<Addr, Validator>
    var stakes: map<Addr, map<Addr, Shares>>
    var queue: seq<Unbonding>
    var ledger: Ledger<Addr>
    var now: nat
    var receivers: map<Addr, Addr>

    ghost function Snapshot(): Chain
      reads this
    {
      Chain(validators, stakes, queue, ledger, now, receivers)
    }

    constructor (params: Params, ledger: Ledger<Addr>, now: nat)
      ensures this.params == params && Snapshot() == Chain(map[], map[], [], ledger, now, map[])
    {
      this.params := params;
      validators, stakes, queue, this.ledger, this.now, receivers := map[], map[], [], ledger, now, map[];
    }

    method Register(v: Addr, commission: nat) returns (out: Outcome)
      modifies this
      ensures Agrees(out, Snapshot(), AddValidator(old(Snapshot()), v, commission))
      ensures out.Error? ==> Snapshot() == old(Snapshot())
    {
      if v in validators { return Error; }
      validators := validators[v := Validator(commission, {}, 0, now)];
      return Done;
    }

    /** One pass over the stakers, adding to each share in storage. */
    method UpdateRewards(v: Addr) returns (out: Outcome)
      requires Sane(Snapshot())
      modifies this
      ensures Agrees(out, Snapshot(), Staking.UpdateRewards(params, old(Snapshot()), v))
    {
      if v !in validators { return Error; }
      var val := validators[v];
      if val.last >= now { return Done; }
      var earned := NewRewards(params, val, now);
      validators := validators[v := val.(last := now)];
      if earned == 0 { return Done; }
      ghost var before := stakes;
      var m := if v in stakes then stakes[v] else map[];
      ghost var m0, full := m, CreditAll(m, val.stakers, val.stake, earned);
      var todo := val.stakers;
      while todo != {}
        invariant todo <= val.stakers && m.Keys == m0.Keys
        invariant val.stakers - todo <= m0.Keys
        invariant forall d :: d in m ==> m[d] == if d in todo then m0[d] else full[d]
        decreases |todo|
      {
        var d :| d in todo;
        if d !in m { return Panic; }
        m := m[d := Credited(m[d], val.stake, earned)];
        todo := todo - {d};
      }
      assert m == full;
      stakes := stakes[v := m];
      return Done;
    }

    method Save(d: Addr, v: Addr, s: Shares, stake: nat)
      requires v in validators && Sane(Snapshot())
      modifies this
      ensures Snapshot() == SaveShares(old(Snapshot()), v, d, s, stake)
    {
      var m := if v in stakes then stakes[v] else map[];
      var val := validators[v].(stake := stake);
      if s.stake == 0 {
        stakes := stakes[v := m - {d}];
        val := val.(stakers := val.stakers - {d});
      } else {
        stakes := stakes[v := m[d := s]];
        val := val.(stakers := val.stakers + {d});
      }
      validators := validators[v := val];
    }

    method UpdateStake(d: Addr, v: Addr, amount: nat, sub: bool) returns (out: Outcome)
      requires Sane(Snapshot())
      modifies this
      ensures sub ==> Agrees(out, Snapshot(), RemoveStake(params, old(Snapshot()), v, d, amount))
      ensures !sub ==> Agrees(out, Snapshot(), AddStake(params, old(Snapshot()), v, d, amount))
    {
      out := UpdateRewards(v);
      if out.Done? { out := MoveShares(d, v, amount, sub); }
    }

    /** The stake change itself, once rewards are up to date. */
    method MoveShares(d: Addr, v: Addr, amount: nat, sub: bool) returns (out: Outcome)
      requires Sane(Snapshot()) && v in validators
      modifies this
      ensures var c := old(Snapshot());
        var s, stake := SharesOf(c, v, d), c.validators[v].stake;
        if sub then
          if d !in StakesOf(c, v) || amount * ONE > s.stake || amount > stake then out == Error
          else out == Done && Snapshot() == SaveShares(c, v, d, s.(stake := s.stake - amount * ONE), stake - amount)
        else out == Done && Snapshot() == SaveShares(c, v, d, s.(stake := s.stake + amount * ONE), stake + amount)
    {
      var stake, m := validators[v].stake, if v in stakes then stakes[v] else map[];
      if sub && d !in m { return Error; }
      var s := if d in m then m[d] else Shares(0, 0);
      if sub {
        if amount * ONE > s.stake || amount > stake { return Error; }
        s, stake := s.(stake := s.stake - amount * ONE), stake - amount;
      } else {
        s, stake := s.(stake := s.stake + amount * ONE), stake + amount;
      }
      Save(d, v, s, stake);
      return Done;
    }

    /** Scales every staker's shares, or removes them when no stake is left. */
    method ScaleStakers(v: Addr, stakers: set<Addr>, remaining: nat, wipe: bool) returns (out: Outcome)
      modifies this`stakes
      ensures out == if !wipe && !(stakers <= StakesOf(old(Snapshot()), v).Keys) then Panic else Done
      ensures out.Done? ==> stakes == old(stakes)[v := if wipe then StakesOf(old(Snapshot()), v) - stakers
                                                       else ScaleAll(StakesOf(old(Snapshot()), v), stakers, remaining)]
    {
      var m := if v in stakes then stakes[v] else map[];
      ghost var m0, scaled := m, ScaleAll(m, stakers, remaining);
      var todo := stakers;
      while todo != {}
        invariant todo <= stakers
        invariant wipe ==> m == m0 - (stakers - todo)
        invariant !wipe ==> m.Keys == m0.Keys && stakers - todo <= m0.Keys
                            && forall d :: d in m ==> m[d] == if d in todo then m0[d] else scaled[d]
        decreases |todo|
      {
        var d :| d in todo;
        if wipe {
          m := m - {d};
        } else {
          if d !in m { return Panic; }
          m := m[d := m[d].(stake := Mul(m[d].stake, remaining))];
        }
        todo := todo - {d};
      }
      assert stakers - todo == stakers;
      assert !wipe ==> m == scaled;
      stakes := stakes[v := m];
      return Done;
    }

    method ScaleQueue(v: Addr, remaining: nat)
      modifies this`queue
      ensures queue == SlashQueue(old(queue), v, remaining)
    {
      ghost var before, whole := queue, SlashQueue(queue, v, remaining);
      SlashQueueAt(queue, v, remaining);
      for i := 0 to |queue|
        invariant |queue| == |before| == |whole|
        invariant forall j :: 0 <= j < i ==> queue[j] == whole[j]
        invariant forall j :: i <= j < |before| ==> queue[j] == before[j]
      {
        if queue[i].validator == v {
          queue := queue[i := queue[i].(amount := Mul(queue[i].amount, remaining))];
        }
      }
    }

    method Slash(v: Addr, percentage: nat) returns (out: Outcome)
      requires Sane(Snapshot())
      modifies this
      ensures Agrees(out, Snapshot(), Staking.Slash(params, old(Snapshot()), v, percentage))
    {
      if percentage > ONE { return Error; }
      out := UpdateRewards(v);
      if !out.Done? { return; }
      var val, remaining := validators[v], ONE - percentage;
      var stake := Mul(val.stake, remaining);
      out := ScaleStakers(v, val.stakers, remaining, stake == 0);
      if !out.Done? { return; }
      ScaleQueue(v, remaining);
      validators := validators[v := val.(stakers := if stake == 0 then {} else val.stakers, stake := stake)];
    }

    method SendCoins(from: Addr, to: Addr, amount: nat) returns (out: Outcome)
      modifies this`ledger
      ensures Agrees(out, Snapshot(), Pay(params, old(Snapshot()), from, to, amount))
    {
      var r := Send(ledger, from, to, [Coin(params.denom, amount)]);
      if r.None? { return Error; }
      ledger := r.value;
      return Done;
    }

    method Message(sender: Addr, msg: StakingMsg) returns (out: Outcome)
      requires Sane(Snapshot())
      modifies this
      ensures match msg
        case DelegateMsg(v, coin) => Agrees(out, Snapshot(), Delegate(params, old(Snapshot()), sender, v, coin))
        case UndelegateMsg(v, coin) => Agrees(out, Snapshot(), Undelegate(params, old(Snapshot()), sender, v, coin))
        case RedelegateMsg(src, dst, coin) =>
          Agrees(out, Snapshot(), Redelegate(params, old(Snapshot()), sender, src, dst, coin))
    {
      match msg {
        case DelegateMsg(v, coin) =>
          if coin.amount == 0 || coin.denom != params.denom { return Error; }
          out := UpdateStake(sender, v, coin.amount, false);
          if out.Done? { out := SendCoins(sender, params.moduleAddr, coin.amount); }
        case UndelegateMsg(v, coin) =>
          if coin.denom != params.denom || coin.amount == 0 { return Error; }
          out := UpdateStake(sender, v, coin.amount, true);
          if out.Done? { queue := queue + [Unbonding(sender, v, coin.amount, now + params.unbondingTime * NANOS)]; }
        case RedelegateMsg(src, dst, coin) =>
          if coin.denom != params.denom { return Error; }
          out := UpdateStake(sender, src, coin.amount, true);
          if out.Done? { out := UpdateStake(sender, dst, coin.amount, false); }
      }
    }

    /** A message as the application runs it: all or nothing. */
    method Execute(sender: Addr, msg: StakingMsg) returns (out: Outcome)
      requires Sane(Snapshot())
      modifies this
      ensures match msg
        case DelegateMsg(v, coin) => Agrees(out, Snapshot(), Delegate(params, old(Snapshot()), sender, v, coin))
        case UndelegateMsg(v, coin) => Agrees(out, Snapshot(), Undelegate(params, old(Snapshot()), sender, v, coin))
        case RedelegateMsg(src, dst, coin) =>
          Agrees(out, Snapshot(), Redelegate(params, old(Snapshot()), sender, src, dst, coin))
      ensures out.Error? ==> Snapshot() == old(Snapshot())
    {
      var validators0, stakes0, queue0, ledger0 := validators, stakes, queue, ledger;
      var now0, receivers0 := now, receivers;
      out := Message(sender, msg);
      if out.Error? {
        validators, stakes, queue, ledger := validators0, stakes0, queue0, ledger0;
        now, receivers := now0, receivers0;
      }
    }

    method RemoveRewards(d: Addr, v: Addr) returns (out: Outcome, amount: nat)
      requires Sane(Snapshot())
      modifies this
      ensures match Staking.RemoveRewards(params, old(Snapshot()), d, v)
              case Ok(r) => out.Done? && amount == r.0 && Snapshot() == r.1
              case Refused => out.Error?
              case Panicked => out.Panic?
    {
      amount := 0;
      out := UpdateRewards(v);
      if !out.Done? { return; }
      var m := if v in stakes then stakes[v] else map[];
      if d !in m { return Error, 0; }
      amount := Floor(m[d].rewards);
      stakes := stakes[v := m[d := m[d].(rewards := 0)]];
    }

    /** Rewards are minted straight to the withdraw address; nothing due is an error,
        and so is an address the API does not accept. */
    method Withdraw(d: Addr, v: Addr) returns (out: Outcome)
      requires Sane(Snapshot())
      modifies this
      ensures Agrees(out, Snapshot(), Staking.Withdraw(params, old(Snapshot()), d, v))
    {
      var amount;
      out, amount := RemoveRewards(d, v);
      if !out.Done? { return; }
      var receiver := if d in receivers then receivers[d] else d;
      if !params.valid(receiver) { return Error; }
      var l := Mint(ledger, receiver, [Coin(params.denom, amount)]);
      if l.None? { return Error; }
      ledger := l.value;
    }

    method SetReceiver(d: Addr, to: Addr) returns (out: Outcome)
      modifies this`receivers
      ensures Agrees(out, Snapshot(), Staking.SetReceiver(params, old(Snapshot()), d, to))
    {
      if !params.valid(to) { return Error; }
      if to == d { receivers := receivers - {d}; } else { receivers := receivers[d := to]; }
      return Done;
    }

    /** The queue is worked off from the front, one payment at a time. */
    method ProcessQueue() returns (out: Outcome)
      modifies this
      ensures Agrees(out, Snapshot(), Staking.ProcessQueue(params, old(Snapshot())))
    {
      while queue != [] && queue[0].payoutAt <= now
        invariant Staking.ProcessQueue(params, Snapshot()) == Staking.ProcessQueue(params, old(Snapshot()))
        decreases |queue|
      {
        ghost var c := Snapshot();
        var u := queue[0];
        queue := queue[1..];
        var m := if u.validator in stakes then stakes[u.validator] else map[];
        if u.delegator in m {
          var waiting := PendingFor(u.delegator, u.validator);
          if Floor(m[u.delegator].stake) + waiting == 0 {
            stakes := stakes[u.validator := m - {u.delegator}];
          }
        }
        assert Snapshot() == DropEmpty(c, u.delegator, u.validator, queue).(queue := queue);
        if u.amount != 0 {
          out := SendCoins(params.moduleAddr, u.delegator, u.amount);
          if !out.Done? { return; }
        }
        assert PopFront(params, c) == Ok(Snapshot());
      }
      return Done;
    }

    method PendingFor(d: Addr, v: Addr) returns (total: nat)
      ensures total == Pending(queue, d, v)
    {
      total := 0;
      var i := 0;
      while i < |queue|
        invariant 0 <= i <= |queue|
        invariant total + Pending(queue[i..], d, v) == Pending(queue, d, v)
      {
        if queue[i].delegator == d && queue[i].validator == v { total := total + queue[i].amount; }
        assert queue[i..][1..] == queue[i + 1..];
        i := i + 1;
      }
    }

    method UpdateBlock(elapsed: nat) returns (out: Outcome)
      modifies this
      ensures Agrees(out, Snapshot(), AdvanceBlock(params, old(Snapshot()), elapsed))
    {
      now := now + elapsed;
      out := ProcessQueue();
      if out.Error? { out := Panic; }
    }
  }

  lemma {:induction false} SlashQueueAt(q: seq<Unbonding>, v: Addr, remaining: nat)
    ensures var r := SlashQueue(q, v, remaining);
      |r| == |q| && forall i :: 0 <= i < |q| ==>
        r[i] == if q[i].validator == v then q[i].(amount := Mul(q[i].amount, remaining)) else q[i]
  {
    if q != [] {
      SlashQueueAt(q[1..], v, remaining);
      assert SlashQueue(q, v, remaining)[1..] == SlashQueue(q[1..], v, remaining);
    }
  }
}
