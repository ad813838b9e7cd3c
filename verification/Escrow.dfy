/**
 ICS-020 escrow over two chains: for a denomination native to one of them, the
 lock account there covers everything of it that is under way or held as
 vouchers on the other.
 */
module Escrow {
  import opened Bytes
  import opened Sums
  import opened Bank
  import opened Results
  import opened Ibc
  import opened IbcLaws
  import opened IbcWorld

  /** A transfer channel between a chain A and a chain B, and a denomination of A. */
  datatype Route = Route(ea: Env, eb: Env, ca: ChannelId, cb: ChannelId, d: Denom)

  ghost function Ends(r: Route): Link { Link(r.ea, r.eb, Endpoint(BANK_PORT, r.ca), Endpoint(BANK_PORT, r.cb)) }

  /** Both chains hash denominations alike and without collisions, and `d` is not
      itself such a hash. */
  ghost predicate Proper(r: Route) {
    && r.ea.wrap == r.eb.wrap
    && (forall c1, d1, c2, d2 :: r.ea.wrap(c1, d1) == r.ea.wrap(c2, d2) ==> c1 == c2 && d1 == d2)
    && (forall c, x :: r.ea.wrap(c, x) != r.d)
  }

  /** `d`'s voucher on B. */
  ghost function VoucherOf(r: Route): Denom { r.eb.wrap(r.cb, r.d) }

  // ---- Outstanding packets ----

  ghost function Weight(at: Endpoint, d: Denom, gone: set<PacketId>, id: PacketId, p: Packet): nat {
    if id.at == at && id !in gone && p.data.Transfer20? && p.data.denom == d then p.data.amount else 0
  }

  ghost function Weights(at: Endpoint, d: Denom, gone: set<PacketId>, sent: map<PacketId, Packet>)
    : (m: map<PacketId, int>)
    ensures m.Keys == sent.Keys
  {
    map id | id in sent :: Weight(at, d, gone, id, sent[id])
  }

  /** What packets sent from `at` and not `gone` carry of `d`. */
  ghost function Outstanding(at: Endpoint, d: Denom, gone: set<PacketId>, sent: map<PacketId, Packet>): int {
    Sum(Weights(at, d, gone, sent))
  }

  lemma OutstandingSend(at: Endpoint, d: Denom, gone: set<PacketId>, sent: map<PacketId, Packet>, id: PacketId,
                        p: Packet)
    requires id !in sent
    ensures Outstanding(at, d, gone, sent[id := p]) == Outstanding(at, d, gone, sent) + Weight(at, d, gone, id, p)
  {
    SumPut(Weights(at, d, gone, sent), id, Weight(at, d, gone, id, p));
    assert Weights(at, d, gone, sent[id := p]) == Weights(at, d, gone, sent)[id := Weight(at, d, gone, id, p)];
  }

  lemma OutstandingGone(at: Endpoint, d: Denom, gone: set<PacketId>, sent: map<PacketId, Packet>, id: PacketId)
    requires id in sent
    ensures Outstanding(at, d, gone + {id}, sent) == Outstanding(at, d, gone, sent) - Weight(at, d, gone, id, sent[id])
  {
    SumPut(Weights(at, d, gone, sent), id, 0);
    assert Weights(at, d, gone + {id}, sent) == Weights(at, d, gone, sent)[id := 0];
  }

  lemma OutstandingSame(at: Endpoint, d: Denom, gone: set<PacketId>, gone': set<PacketId>, sent: map<PacketId, Packet>)
    requires forall id :: id in sent && id.at == at ==> (id in gone <==> id in gone')
    ensures Outstanding(at, d, gone, sent) == Outstanding(at, d, gone', sent)
  {
    assert Weights(at, d, gone, sent) == Weights(at, d, gone', sent);
  }

  lemma OutstandingCovers(at: Endpoint, d: Denom, gone: set<PacketId>, sent: map<PacketId, Packet>)
    ensures Outstanding(at, d, gone, sent) >= 0
    ensures forall id :: id in sent ==> Weight(at, d, gone, id, sent[id]) <= Outstanding(at, d, gone, sent)
  {
    var m := Weights(at, d, gone, sent);
    SumNonNegative(m);
    forall id | id in sent ensures Weight(at, d, gone, id, sent[id]) <= Outstanding(at, d, gone, sent) {
      assert m[id] <= Sum(m);
    }
  }

  /** Packets of `at` answered in time at `there`. */
  ghost function Answered(from: Chain, at: Endpoint, to: Chain, there: Endpoint): set<PacketId> {
    set id | id in from.sent && id.at == at && PacketId(there, id.sequence) in to.acks
  }

  // ---- One coin at a time ----

  ghost predicate MovedOne(l: Ledger<Addr>, l': Ledger<Addr>, from: Addr, to: Addr, x: Denom, n: nat) {
    && CanonicalLedger(l') && n > 0 && Has(l, from, x) >= n
    && (forall k, y :: Has(l', k, y)
         == Has(l, k, y) - (if k == from && y == x then n else 0) + (if k == to && y == x then n else 0))
    && (forall y :: Supply(l', y) == Supply(l, y))
  }

  ghost predicate MintedOne(l: Ledger<Addr>, l': Ledger<Addr>, to: Addr, x: Denom, n: nat) {
    && CanonicalLedger(l') && n > 0
    && (forall k, y :: Has(l', k, y) == Has(l, k, y) + (if k == to && y == x then n else 0))
    && (forall y :: Supply(l', y) == Supply(l, y) + (if y == x then n else 0))
  }

  lemma OneAmount(x: Denom, n: nat)
    ensures forall y :: Amount([Coin(x, n)], y) == if y == x then n else 0
    ensures NonZero([Coin(x, n)]) != [] <==> n > 0
  {
    var cs := [Coin(x, n)];
    assert cs[1..] == [];
  }

  lemma SendOne(l: Ledger<Addr>, from: Addr, to: Addr, x: Denom, n: nat)
    requires CanonicalLedger(l)
    ensures Send(l, from, to, [Coin(x, n)]).Some? <==> n > 0 && Has(l, from, x) >= n
    ensures Send(l, from, to, [Coin(x, n)]).Some? ==> MovedOne(l, Send(l, from, to, [Coin(x, n)]).value, from, to, x, n)
  {
    OneAmount(x, n);
    SendEffect(l, from, to, [Coin(x, n)]);
    var cs := [Coin(x, n)];
    assert Covers(l, from, cs) <==> Has(l, from, x) >= n by {
      assert Amount(cs, x) == n;
    }
  }

  lemma MintOne(l: Ledger<Addr>, to: Addr, x: Denom, n: nat)
    requires CanonicalLedger(l)
    ensures Mint(l, to, [Coin(x, n)]).Some? <==> n > 0
    ensures Mint(l, to, [Coin(x, n)]).Some? ==> MintedOne(l, Mint(l, to, [Coin(x, n)]).value, to, x, n)
  {
    OneAmount(x, n);
    MintEffect(l, to, [Coin(x, n)]);
  }

  lemma LockedIs(e: Env, c: Chain, x: Denom)
    requires CanonicalLedger(c.ledger)
    ensures Locked(e, c, x).Some? <==> Has(c.ledger, e.lock, x) > 0
    ensures Locked(e, c, x).Some? ==> Locked(e, c, x).value.amount == Has(c.ledger, e.lock, x)
  {
    FindIsAmount(BalanceOf(c.ledger, e.lock), x);
  }

  /** A transfer locks the coin and sends what it stands for. */
  lemma TransferIs(e: Env, c: Chain, sender: Addr, channel: ChannelId, to: Addr, coin: Coin, timeout: Timeout,
                   c': Chain)
    requires CanonicalLedger(c.ledger) && Handle(e, c, TransferMsg(sender, channel, to, coin, timeout)) == Ok(c')
    ensures MovedOne(c.ledger, c'.ledger, sender, e.lock, coin.denom, coin.amount)
    ensures c'.vouchers == c.vouchers && c'.timedOut == c.timedOut && c'.acks == c.acks && c'.received == c.received
    ensures var at := Endpoint(BANK_PORT, channel);
      && at in c.channels && at in c'.channels && c'.channels[at].order == c.channels[at].order
      && c'.sent == c.sent[PacketId(at, c.channels[at].next) :=
           Packet(Transfer20(Unwrapped(c, coin.denom, channel), coin.amount, sender, to), at,
                  c.channels[at].remote, c.channels[at].next, timeout)]
  {
    SendOne(c.ledger, sender, e.lock, coin.denom, coin.amount);
    assert coin == Coin(coin.denom, coin.amount);
  }

  /** Receiving unlocks what the lock account has and mints a voucher otherwise. */
  lemma BankReceiveIs(e: Env, c: Chain, p: Packet)
    requires CanonicalLedger(c.ledger) && p.data.Transfer20?
    ensures var t, r := p.data, BankReceive(e, c, p);
      && (r == Panicked <==> 0 < Has(c.ledger, e.lock, t.denom) < t.amount)
      && (r.Ok? <==> e.valid(t.receiver) && t.amount > 0
                     && (Has(c.ledger, e.lock, t.denom) == 0 || Has(c.ledger, e.lock, t.denom) >= t.amount))
      && (r.Ok? && Has(c.ledger, e.lock, t.denom) > 0 ==>
            MovedOne(c.ledger, r.value.ledger, e.lock, t.receiver, t.denom, t.amount) && r.value.vouchers == c.vouchers)
      && (r.Ok? && Has(c.ledger, e.lock, t.denom) == 0 ==>
            var x := e.wrap(p.dest.channel, t.denom);
            MintedOne(c.ledger, r.value.ledger, t.receiver, x, t.amount)
            && r.value.vouchers == c.vouchers[x := Voucher(p.dest.channel, t.denom)])
  {
    LockedIs(e, c, p.data.denom);
    SendOne(c.ledger, e.lock, p.data.receiver, p.data.denom, p.data.amount);
    MintOne(c.ledger, p.data.receiver, e.wrap(p.dest.channel, p.data.denom), p.data.amount);
  }

  lemma BankTimeoutIs(e: Env, c: Chain, p: Packet)
    requires CanonicalLedger(c.ledger) && p.data.Transfer20?
    ensures var t, r := p.data, BankTimeout(e, c, p);
      && (r == Panicked <==> 0 < Has(c.ledger, e.lock, t.denom) < t.amount)
      && (r.Ok? <==> e.valid(t.sender) && t.amount > 0 && Has(c.ledger, e.lock, t.denom) >= t.amount)
      && (r.Ok? ==> Has(c.ledger, e.lock, t.denom) > 0
                    && MovedOne(c.ledger, r.value.ledger, e.lock, t.sender, t.denom, t.amount)
                    && r.value.vouchers == c.vouchers)
  {
    LockedIs(e, c, p.data.denom);
    SendOne(c.ledger, e.lock, p.data.sender, p.data.denom, p.data.amount);
  }

  /** The bank's part of a delivery in time. */
  ghost predicate Landed(e: Env, c: Chain, p: Packet, c': Chain)
    requires p.data.Transfer20?
  {
    var t, held := p.data, Has(c.ledger, e.lock, p.data.denom);
    var x := e.wrap(p.dest.channel, t.denom);
    if held > 0 then MovedOne(c.ledger, c'.ledger, e.lock, t.receiver, t.denom, t.amount) && c'.vouchers == c.vouchers
    else
      && MintedOne(c.ledger, c'.ledger, t.receiver, x, t.amount)
      && c'.vouchers == c.vouchers[x := Voucher(p.dest.channel, t.denom)]
  }

  lemma ReceiveAtBankIs(e: Env, c: Chain, p: Packet, reply: Reply, delivery: Delivery, c': Chain)
    requires CanonicalLedger(c.ledger) && p.data.Transfer20? && p.dest.port == BANK_PORT
    requires ReceivePacket(e, c, p, reply) == Ok((delivery, c'))
    ensures c'.sent == c.sent && c'.timedOut == c.timedOut
    ensures delivery.Late? ==> c'.vault == c.vault && c'.acks == c.acks
    ensures delivery.Acknowledged? ==>
      c'.acks == c.acks[PacketId(p.dest, p.sequence) := Some(e.success)] && Landed(e, c, p, c')
  {
    var c1 := c.(mail := c.mail.(received := c.received[PacketId(p.dest, p.sequence) := Receipt(p, false)]));
    BankReceiveIs(e, c1, p);
    if !HasPassed(p.timeout, c.height, c.time) { ReceivingIsBanking(e, c1, p); }
  }

  lemma TimeoutAtBankIs(e: Env, c: Chain, p: Packet, reply: Reply, c': Chain)
    requires CanonicalLedger(c.ledger) && p.src.port == BANK_PORT && TimeoutPacket(e, c, p, reply) == Ok(c')
    requires PacketId(p.src, p.sequence) in c.sent ==> c.sent[PacketId(p.src, p.sequence)].data.Transfer20?
    ensures var id := PacketId(p.src, p.sequence);
      && id in c.sent && id !in c.timedOut && c'.sent == c.sent && c'.acks == c.acks && c'.timedOut == c.timedOut + {id}
      && c'.vouchers == c.vouchers
      && var t := c.sent[id].data;
         Has(c.ledger, e.lock, t.denom) > 0 && MovedOne(c.ledger, c'.ledger, e.lock, t.sender, t.denom, t.amount)
  {
    var id := PacketId(p.src, p.sequence);
    var c1 := c.(mail := c.mail.(timedOut := c.timedOut + {id}));
    BankTimeoutIs(e, c1, c.sent[id]);
    RefundingIsBanking(e, c1, c.sent[id]);
  }

  /** Exactly when the timeout of a sent and unsettled transfer is refunded, wherever
      its denomination comes from: a valid sender, and enough of that denomination
      in the lock account, whoever put it there. */
  lemma RefundedExactly(e: Env, c: Chain, id: PacketId, reply: Reply)
    requires CanonicalLedger(c.ledger) && id in c.sent && id !in c.acked && id !in c.timedOut
    requires id.at.port == BANK_PORT && id.at in c.channels
    requires c.sent[id].src == id.at && c.sent[id].sequence == id.sequence && c.sent[id].data.Transfer20?
    ensures var t, got := c.sent[id].data, TimeoutPacket(e, c, c.sent[id], reply);
      && (got.Ok? <==> e.valid(t.sender) && t.amount > 0 && Has(c.ledger, e.lock, t.denom) >= t.amount)
      && (got == Panicked <==> 0 < Has(c.ledger, e.lock, t.denom) < t.amount)
      && (got.Ok? ==> MovedOne(c.ledger, got.value.ledger, e.lock, t.sender, t.denom, t.amount))
  {
    BankTimeoutIs(e, c.(mail := c.mail.(timedOut := c.timedOut + {id})), c.sent[id]);
  }

  // ---- Proper routes exist ----

  /** A prefix-free code for channel identifiers. */
  ghost function Unary(n: nat): bytes { if n == 0 then [0] else [1] + Unary(n - 1) }

  ghost function Code(c: ChannelId): bytes { if c.Unnamed? then [0] else [1] + Unary(c.number) }

  lemma {:induction false} UnaryCancels(n: nat, x: bytes, m: nat, y: bytes)
    requires Unary(n) + x == Unary(m) + y
    ensures n == m && x == y
  {
    assert (Unary(n) + x)[0] == Unary(n)[0] && (Unary(m) + y)[0] == Unary(m)[0];
    if n == 0 {
      assert x == ([0] + x)[1..] && y == ([0] + y)[1..];
    } else {
      assert [1] + Unary(n - 1) + x == [1] + (Unary(n - 1) + x);
      assert [1] + Unary(m - 1) + y == [1] + (Unary(m - 1) + y);
      assert Unary(n - 1) + x == (Unary(n) + x)[1..] && Unary(m - 1) + y == (Unary(m) + y)[1..];
      UnaryCancels(n - 1, x, m - 1, y);
    }
  }

  lemma CodeCancels(c: ChannelId, x: bytes, c': ChannelId, x': bytes)
    requires Code(c) + x == Code(c') + x'
    ensures c == c' && x == x'
  {
    UnaryCancels(if c.Unnamed? then 0 else c.number + 1, x, if c'.Unnamed? then 0 else c'.number + 1, x');
  }

  /** A route whose denominations are coded so. */
  ghost function CodedRoute(valid: Addr -> bool, lock: Addr, success: bytes, ca: ChannelId, cb: ChannelId): Route {
    var e := Env((c, x) => Code(c) + x, valid, lock, success);
    Route(e, e, ca, cb, [2])
  }

  lemma CodedRouteIsProper(valid: Addr -> bool, lock: Addr, success: bytes, ca: ChannelId, cb: ChannelId)
    ensures Proper(CodedRoute(valid, lock, success, ca, cb))
  {
    var r := CodedRoute(valid, lock, success, ca, cb);
    var e := r.ea;
    forall c1, d1, c2, d2 | e.wrap(c1, d1) == e.wrap(c2, d2) ensures c1 == c2 && d1 == d2 {
      CodeCancels(c1, d1, c2, d2);
    }
    forall c, x ensures e.wrap(c, x) != r.d { assert e.wrap(c, x)[0] == Code(c)[0]; }
  }

  lemma ProperRoutesExist(valid: Addr -> bool, lock: Addr, success: bytes, ca: ChannelId, cb: ChannelId)
    ensures exists r: Route :: Proper(r) && r.ca == ca && r.cb == cb && r.ea.lock == lock
  {
    CodedRouteIsProper(valid, lock, success, ca, cb);
    assert CodedRoute(valid, lock, success, ca, cb).ea.lock == lock;
  }
}
