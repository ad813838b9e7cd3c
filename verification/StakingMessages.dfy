/**
 What a delegator can rely on: when staking messages succeed, what they move,
 and that undelegating undoes delegating.
 */
module StakingMessages {
  import opened Bytes
  import opened Sums
  import opened Bank
  import opened Decimals
  import opened Results
  import opened Staking
  import opened StakingBooks
  import opened StakingLaws
  import opened StakingRewards

  /** Validator `v`'s book has become `b`, no other has changed. */
  ghost predicate BooksMove(c: Chain, c': Chain, v: Addr, b: Book) {
    forall w :: BookOf(c', w) == if w == v then b else BookOf(c, w)
  }

  ghost function Deposited(b: Book, d: Addr, amount: nat): Book {
    Store(b, d, Held(b, d) + amount * ONE, b.stake + amount)
  }

  ghost function Taken(b: Book, d: Addr, amount: nat): Book
    requires amount * ONE <= Held(b, d) && amount <= b.stake
  {
    Store(b, d, Held(b, d) - amount * ONE, b.stake - amount)
  }

  // ---- When they succeed ----

  lemma UpdateSucceeds(p: Params, c: Chain, v: Addr)
    requires Sane(c) && NobodyMissing(c)
    ensures UpdateRewards(p, c, v).Ok? <==> v in c.validators
    ensures UpdateRewards(p, c, v).Ok? ==> UpdateRewards(p, c, v).value.ledger == c.ledger
  {
    UpdateIsSafe(p, c, v);
  }

  lemma AddSucceeds(p: Params, c: Chain, v: Addr, d: Addr, amount: nat)
    requires Sane(c) && NobodyMissing(c)
    ensures AddStake(p, c, v, d, amount).Ok? <==> v in c.validators
    ensures AddStake(p, c, v, d, amount).Ok? ==> AddStake(p, c, v, d, amount).value.ledger == c.ledger
  {
    UpdateSucceeds(p, c, v);
  }

  /** Delegating works exactly with a positive amount of the bonded denomination
      that the sender has, at a known validator. */
  lemma DelegateSucceeds(p: Params, c: Chain, d: Addr, v: Addr, coin: Coin)
    requires Sane(c) && NobodyMissing(c) && CanonicalLedger(c.ledger)
    ensures Delegate(p, c, d, v, coin).Ok? <==>
      coin.amount > 0 && coin.denom == p.denom && v in c.validators && Has(c.ledger, d, p.denom) >= coin.amount
  {
    AddSucceeds(p, c, v, d, coin.amount);
    if coin.amount > 0 && coin.denom == p.denom && v in c.validators {
      PayEffect(p, AddStake(p, c, v, d, coin.amount).value, d, p.moduleAddr, coin.amount);
    }
  }

  lemma RemoveSucceeds(p: Params, c: Chain, v: Addr, d: Addr, amount: nat)
    requires Sane(c) && NobodyMissing(c)
    ensures RemoveStake(p, c, v, d, amount).Ok? <==>
      && v in c.validators && d in BookOf(c, v).held
      && amount * ONE <= BookOf(c, v).held[d] && amount <= BookOf(c, v).stake
  {
    UpdateSucceeds(p, c, v);
    if v in c.validators { UpdatedShares(p, c, v, d); }
  }

  /** Undelegating works exactly with a positive amount of the bonded denomination
      that both the delegator's shares and the validator's stake cover. */
  lemma UndelegateSucceeds(p: Params, c: Chain, d: Addr, v: Addr, coin: Coin)
    requires Sane(c) && NobodyMissing(c)
    ensures Undelegate(p, c, d, v, coin).Ok? <==>
      && coin.amount > 0 && coin.denom == p.denom && v in c.validators && d in BookOf(c, v).held
      && coin.amount * ONE <= BookOf(c, v).held[d] && coin.amount <= BookOf(c, v).stake
  {
    RemoveSucceeds(p, c, v, d, coin.amount);
  }

  // ---- What they move ----

  lemma PaymentMoves(p: Params, c1: Chain, c': Chain, d: Addr, amount: nat)
    requires CanonicalLedger(c1.ledger) && amount > 0 && Pay(p, c1, d, p.moduleAddr, amount) == Ok(c')
    ensures Moved(p, c1.ledger, c'.ledger, d, p.moduleAddr, amount) && CanonicalLedger(c'.ledger)
    ensures c'.queue == c1.queue && c'.now == c1.now && forall w :: BookOf(c', w) == BookOf(c1, w)
  {
    PayEffect(p, c1, d, p.moduleAddr, amount);
    SameBooks(c1, c');
  }

  lemma DepositedWith(p: Params, c: Chain, c1: Chain, d: Addr, v: Addr, amount: nat)
    requires Sane(c) && AddStake(p, c, v, d, amount) == Ok(c1)
    ensures BooksMove(c, c1, v, Deposited(BookOf(c, v), d, amount)) && c1.ledger == c.ledger && c1.queue == c.queue
    ensures c1.now == c.now
  {
    AddStakeBooks(p, c, v, d, amount, c1);
  }

  /** `c1` is `c` after a delegation. */
  ghost predicate JustDelegated(p: Params, c: Chain, c1: Chain, d: Addr, v: Addr, amount: nat) {
    && amount > 0 && BooksMove(c, c1, v, Deposited(BookOf(c, v), d, amount))
    && Moved(p, c.ledger, c1.ledger, d, p.moduleAddr, amount) && c1.queue == c.queue && c1.now == c.now
  }

  lemma DelegationParts(p: Params, c: Chain, c': Chain, d: Addr, v: Addr, coin: Coin) returns (c1: Chain)
    requires Sane(c) && Delegate(p, c, d, v, coin) == Ok(c')
    ensures BooksMove(c, c1, v, Deposited(BookOf(c, v), d, coin.amount)) && c1.ledger == c.ledger
    ensures c1.queue == c.queue && c1.now == c.now
    ensures coin.amount > 0 && Pay(p, c1, d, p.moduleAddr, coin.amount) == Ok(c')
  {
    c1 := AddStake(p, c, v, d, coin.amount).value;
    DepositedWith(p, c, c1, d, v, coin.amount);
  }

  /** The tokens go from the delegator to the module account, the same number of
      whole shares to the delegator, and nothing else happens. */
  lemma DelegationMoves(p: Params, c: Chain, c': Chain, d: Addr, v: Addr, coin: Coin)
    requires Sane(c) && CanonicalLedger(c.ledger) && Delegate(p, c, d, v, coin) == Ok(c')
    ensures JustDelegated(p, c, c', d, v, coin.amount) && CanonicalLedger(c'.ledger)
  {
    var c1 := DelegationParts(p, c, c', d, v, coin);
    PaymentMoves(p, c1, c', d, coin.amount);
  }

  /** The shares go at once; the tokens are queued until the unbonding time is over. */
  lemma UndelegationMoves(p: Params, c: Chain, c': Chain, d: Addr, v: Addr, coin: Coin)
    requires Sane(c) && Undelegate(p, c, d, v, coin) == Ok(c')
    ensures var b := BookOf(c, v);
      coin.amount * ONE <= Held(b, d) && coin.amount <= b.stake && BooksMove(c, c', v, Taken(b, d, coin.amount))
    ensures c'.ledger == c.ledger && c'.now == c.now
    ensures c'.queue == c.queue + [Unbonding(d, v, coin.amount, c.now + p.unbondingTime * NANOS)]
  {
    var c1 := RemoveStake(p, c, v, d, coin.amount).value;
    RemoveStakeBooks(p, c, v, d, coin.amount, c1);
    SameBooks(c1, c');
  }

  lemma BooksMoveTwice(c: Chain, c1: Chain, c': Chain, src: Addr, dst: Addr, b: Book, b': Book)
    requires src != dst && BooksMove(c, c1, src, b) && BooksMove(c1, c', dst, b')
    ensures BookOf(c', src) == b && BookOf(c', dst) == b' && BookOf(c1, dst) == BookOf(c, dst)
    ensures forall w :: w != src && w != dst ==> BookOf(c', w) == BookOf(c, w)
  {
    forall w | w != src && w != dst ensures BookOf(c', w) == BookOf(c, w) { assert BookOf(c1, w) == BookOf(c, w); }
  }

  lemma TakenFrom(p: Params, c: Chain, c1: Chain, d: Addr, v: Addr, amount: nat)
    requires Sane(c) && RemoveStake(p, c, v, d, amount) == Ok(c1)
    ensures amount * ONE <= Held(BookOf(c, v), d) && amount <= BookOf(c, v).stake
    ensures BooksMove(c, c1, v, Taken(BookOf(c, v), d, amount)) && c1.ledger == c.ledger && c1.queue == c.queue
  {
    RemoveStakeBooks(p, c, v, d, amount, c1);
  }

  lemma RedelegationParts(p: Params, c: Chain, c': Chain, d: Addr, src: Addr, dst: Addr, coin: Coin) returns (c1: Chain)
    requires Sane(c) && Redelegate(p, c, d, src, dst, coin) == Ok(c')
    ensures coin.amount * ONE <= Held(BookOf(c, src), d) && coin.amount <= BookOf(c, src).stake
    ensures BooksMove(c, c1, src, Taken(BookOf(c, src), d, coin.amount)) && c1.ledger == c.ledger && c1.queue == c.queue
    ensures BooksMove(c1, c', dst, Deposited(BookOf(c1, dst), d, coin.amount)) && c'.ledger == c1.ledger
    ensures c'.queue == c1.queue
  {
    c1 := RemoveStake(p, c, src, d, coin.amount).value;
    TakenFrom(p, c, c1, d, src, coin.amount);
    DepositedWith(p, c1, c', d, dst, coin.amount);
  }

  /** What leaves one validator arrives at the other, and no tokens move. */
  lemma RedelegationMoves(p: Params, c: Chain, c': Chain, d: Addr, src: Addr, dst: Addr, coin: Coin)
    requires Sane(c) && Redelegate(p, c, d, src, dst, coin) == Ok(c') && src != dst
    ensures var b := BookOf(c, src);
      && coin.amount * ONE <= Held(b, d) && coin.amount <= b.stake
      && BookOf(c', src) == Taken(b, d, coin.amount)
      && BookOf(c', dst) == Deposited(BookOf(c, dst), d, coin.amount)
      && forall w :: w != src && w != dst ==> BookOf(c', w) == BookOf(c, w)
    ensures c'.ledger == c.ledger && c'.queue == c.queue
  {
    var c1 := RedelegationParts(p, c, c', d, src, dst, coin);
    var taken, given := Taken(BookOf(c, src), d, coin.amount), Deposited(BookOf(c1, dst), d, coin.amount);
    BooksMoveTwice(c, c1, c', src, dst, taken, given);
  }

  /** A withdrawal pays what the query showed, to the withdraw address and nobody else. */
  lemma WithdrawalPays(p: Params, c: Chain, c': Chain, d: Addr, v: Addr)
    requires Sane(c) && CanonicalLedger(c.ledger) && ShareholdersAreStakers(c, v) && Withdraw(p, c, d, v) == Ok(c')
    ensures c'.receivers == c.receivers
    ensures var shown := GetRewards(p, c, d, v);
      && shown.Ok? && shown.value.Some? && shown.value.value > 0
      && forall a :: Has(c'.ledger, a, p.denom)
           == Has(c.ledger, a, p.denom) + if a == ReceiverOf(c, d) then shown.value.value else 0
  {
    LazyEqualsEager(p, c, d, v);
    UpdateRewardsBooks(p, c, v);
    var amount := RemoveRewards(p, c, d, v).value.0;
    MintedInto(p, c.ledger, ReceiverOf(c, d), amount, c'.ledger);
  }

  /** Setting a withdraw address works exactly for one the chain accepts, and redirects
      the sender's withdrawals and nobody else's; setting one's own undoes it. */
  lemma ReceiverIsSet(p: Params, c: Chain, sender: Addr, to: Addr)
    ensures var r := SetReceiver(p, c, sender, to);
      && (r.Ok? <==> p.valid(to))
      && (r.Ok? ==>
            && r.value == c.(receivers := r.value.receivers)
            && forall d :: ReceiverOf(r.value, d) == if d == sender then to else ReceiverOf(c, d))
    ensures p.valid(to) && p.valid(sender) && sender !in c.receivers ==>
      SetReceiver(p, SetReceiver(p, c, sender, to).value, sender, sender) == Ok(c)
  {
    if p.valid(to) && sender !in c.receivers {
      assert c.receivers[sender := to] - {sender} == c.receivers && c.receivers - {sender} == c.receivers;
    }
  }

  lemma MintedInto(p: Params, l: Ledger<Addr>, to: Addr, amount: nat, l': Ledger<Addr>)
    requires CanonicalLedger(l) && Mint(l, to, [Coin(p.denom, amount)]) == Some(l')
    ensures amount > 0
    ensures forall a :: Has(l', a, p.denom) == Has(l, a, p.denom) + if a == to then amount else 0
  {
    var cs := [Coin(p.denom, amount)];
    assert cs[1..] == [];
    assert Amount(cs, p.denom) == amount;
    MintEffect(l, to, cs);
  }

  // ---- Undoing ----

  lemma TakenBack(b: Book, d: Addr, amount: nat)
    requires amount > 0 && (d in b.stakers <==> d in b.held) && (d in b.held ==> b.held[d] > 0)
    ensures var b1 := Deposited(b, d, amount);
      amount * ONE <= Held(b1, d) && amount <= b1.stake && Taken(b1, d, amount) == b
  {
    var b1 := Deposited(b, d, amount);
    assert Held(b1, d) == Held(b, d) + amount * ONE;
    if d in b.held {
      assert Taken(b1, d, amount).held == b.held && Taken(b1, d, amount).stakers == b.stakers;
    } else {
      assert Taken(b1, d, amount).held == b.held && Taken(b1, d, amount).stakers == b.stakers;
    }
  }

  lemma BooksUndone(c: Chain, c1: Chain, c2: Chain, v: Addr, b: Book)
    requires BooksMove(c, c1, v, b) && BooksMove(c1, c2, v, BookOf(c, v))
    ensures forall w :: BookOf(c2, w) == BookOf(c, w)
  {
    forall w ensures BookOf(c2, w) == BookOf(c, w) { assert BookOf(c1, w) == if w == v then b else BookOf(c, w); }
  }

  lemma MovesUndone(p: Params, c: Chain, c1: Chain, c2: Chain, d: Addr, v: Addr, amount: nat)
    requires amount > 0 && BooksMove(c, c1, v, Deposited(BookOf(c, v), d, amount))
    requires amount * ONE <= Held(BookOf(c1, v), d) && amount <= BookOf(c1, v).stake
    requires BooksMove(c1, c2, v, Taken(BookOf(c1, v), d, amount))
    requires var b := BookOf(c, v); (d in b.stakers <==> d in b.held) && (d in b.held ==> b.held[d] > 0)
    ensures forall w :: BookOf(c2, w) == BookOf(c, w)
  {
    TakenBack(BookOf(c, v), d, amount);
    BooksUndone(c, c1, c2, v, Deposited(BookOf(c, v), d, amount));
  }

  /** Undelegating what was just delegated restores every validator's book and
      leaves the tokens on their way back. */
  lemma UndelegateUndoesDelegate(p: Params, c: Chain, c1: Chain, c2: Chain, d: Addr, v: Addr, coin: Coin)
    requires JustDelegated(p, c, c1, d, v, coin.amount) && Sane(c1) && Undelegate(p, c1, d, v, coin) == Ok(c2)
    requires var b := BookOf(c, v); (d in b.stakers <==> d in b.held) && (d in b.held ==> b.held[d] > 0)
    ensures forall w :: BookOf(c2, w) == BookOf(c, w)
    ensures c2.ledger == c1.ledger
    ensures c2.queue == c.queue + [Unbonding(d, v, coin.amount, c.now + p.unbondingTime * NANOS)]
  {
    UndelegationMoves(p, c1, c2, d, v, coin);
    MovesUndone(p, c, c1, c2, d, v, coin.amount);
  }

  // ---- The one delegator nobody should be ----

  /** The module account may delegate what it holds for others, to itself; it then
      owes more than it has exactly when it stakes more than its own surplus. */
  lemma SelfDelegationOverspends(p: Params, c: Chain, v: Addr, coin: Coin)
    requires Sound(p, c) && NobodyMissing(c) && v in c.validators
    requires coin.denom == p.denom && 0 < coin.amount <= Has(c.ledger, p.moduleAddr, p.denom)
    ensures var r := Delegate(p, c, p.moduleAddr, v, coin);
      r.Ok? && (Surplus(p, r.value) < 0 <==> coin.amount > Surplus(p, c))
  {
    DelegateSucceeds(p, c, p.moduleAddr, v, coin);
    DelegateSolvent(p, c, Delegate(p, c, p.moduleAddr, v, coin).value, p.moduleAddr, v, coin);
  }

  ghost predicate Overspends(p: Params, c: Chain, v: Addr, n: nat)
    requires Sane(c)
  {
    var r := Delegate(p, c, p.moduleAddr, v, Coin(p.denom, n));
    r.Ok? && Surplus(p, r.value) < 0
  }

  /** And a run leads there. */
  lemma TheModuleAccountCanOverspend()
    ensures exists c, n: nat :: Reachable(P, {D1, D2}, c) && Sane(c) && Overspends(P, c, V, n)
  {
    var c := TwoDelegate();
    SumPut(map[], V, 12);
    assert StakeMap(c.validators) == map[][V := 12];
    var n := Has(c.ledger, P.moduleAddr, P.denom);
    SelfDelegationOverspends(P, c, V, Coin(P.denom, n));
    assert Overspends(P, c, V, n);
  }
}
