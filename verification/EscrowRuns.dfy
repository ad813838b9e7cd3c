/**
 The escrow invariant over whole runs, and what it gives a user of the channel.
 */
module EscrowRuns {
  import opened Bytes
  import opened Sums
  import opened Bank
  import opened Results
  import opened Ibc
  import opened IbcLaws
  import opened IbcWorld
  import opened Escrow
  import opened EscrowLaws

  // ---- Settling one packet ----

  lemma ForwardAnswered(r: Route, w: World, b': Chain, id: PacketId)
    requires id in w.a.sent && id.at == Ends(r).atA && id !in w.a.timedOut
    requires PacketId(Ends(r).atB, id.sequence) !in w.b.acks
    requires b'.acks.Keys == w.b.acks.Keys + {PacketId(Ends(r).atB, id.sequence)}
    ensures Forward(r, w.(b := b')) == Forward(r, w) - Carries(w.a.sent[id], r.d)
  {
    var at, w' := Ends(r).atA, w.(b := b');
    OutstandingGone(at, r.d, GoneOut(r, w), w.a.sent, id);
    forall i | i in w.a.sent && i.at == at ensures i in GoneOut(r, w) + {id} <==> i in GoneOut(r, w') {
      assert PacketId(Ends(r).atB, i.sequence) == PacketId(Ends(r).atB, id.sequence) <==> i == id;
    }
    OutstandingSame(at, r.d, GoneOut(r, w) + {id}, GoneOut(r, w'), w.a.sent);
  }

  lemma ReturningAnswered(r: Route, w: World, a': Chain, id: PacketId)
    requires id in w.b.sent && id.at == Ends(r).atB
    requires PacketId(Ends(r).atA, id.sequence) !in w.a.acks
    requires a'.acks.Keys == w.a.acks.Keys + {PacketId(Ends(r).atA, id.sequence)}
    ensures Returning(r, w.(a := a')) == Returning(r, w) - Carries(w.b.sent[id], r.d)
  {
    var at, w' := Ends(r).atB, w.(a := a');
    OutstandingGone(at, r.d, GoneBack(r, w), w.b.sent, id);
    forall i | i in w.b.sent && i.at == at ensures i in GoneBack(r, w) + {id} <==> i in GoneBack(r, w') {
      assert PacketId(Ends(r).atA, i.sequence) == PacketId(Ends(r).atA, id.sequence) <==> i == id;
    }
    OutstandingSame(at, r.d, GoneBack(r, w) + {id}, GoneBack(r, w'), w.b.sent);
  }

  lemma ForwardRefunded(r: Route, w: World, a': Chain, id: PacketId)
    requires id in w.a.sent && id.at == Ends(r).atA && id !in w.a.timedOut
    requires PacketId(Ends(r).atB, id.sequence) !in w.b.acks
    requires a'.sent == w.a.sent && a'.timedOut == w.a.timedOut + {id}
    ensures Forward(r, w.(a := a')) == Forward(r, w) - Carries(w.a.sent[id], r.d)
  {
    var at, w' := Ends(r).atA, w.(a := a');
    OutstandingGone(at, r.d, GoneOut(r, w), w.a.sent, id);
    OutstandingSame(at, r.d, GoneOut(r, w) + {id}, GoneOut(r, w'), w.a.sent);
  }

  // ---- The relayer's moves ----

  /** The packet, stored with its own name; not answered there and not settled here. */
  ghost predicate UnderWay(from: Chain, at: Endpoint, to: Chain, there: Endpoint, n: nat) {
    var id, jd := PacketId(at, n), PacketId(there, n);
    && id in from.sent && from.sent[id].src == at && from.sent[id].dest == there && from.sent[id].sequence == n
    && id !in from.timedOut && jd !in to.acks
  }

  lemma ReceivableIsUnderWay(e: Env, from: Chain, at: Endpoint, to: Chain, there: Endpoint, n: nat, reply: Reply)
    requires Fine(from) && ReceivedFine(to.mail) && Linked(from, at, to, there) && Agree(from, at, to, there)
    requires PacketId(at, n) in from.sent && ReceivePacket(e, to, from.sent[PacketId(at, n)], reply).Ok?
    ensures UnderWay(from, at, to, there, n)
  {
    SentFits(from, at, to, there, n);
    assert AgreeOn(from, at, to, there, n);
  }

  lemma RefundableIsUnderWay(from: Chain, at: Endpoint, to: Chain, there: Endpoint, n: nat)
    requires Fine(from) && ReceivedFine(to.mail) && Linked(from, at, to, there)
    requires PacketId(at, n) in from.sent && PacketId(at, n) !in from.timedOut
    requires PacketId(there, n) in to.received && to.received[PacketId(there, n)].timedOut
    ensures UnderWay(from, at, to, there, n)
  {
    SentFits(from, at, to, there, n);
  }

  lemma ArrivesOnB(r: Route, w: World, n: nat, reply: Reply, delivery: Delivery, b': Chain)
    requires Proper(r) && HomeFine(r, w.a) && AwayFine(r, w.b) && UnderWay(w.a, Ends(r).atA, w.b, Ends(r).atB, n)
    requires ReceivePacket(r.eb, w.b, w.a.sent[PacketId(Ends(r).atA, n)], reply) == Ok((delivery, b'))
    ensures AwayFine(r, b')
    ensures Keeps(Spare(r, w), Spare(r, w.(b := b')), SendsTo(w.a.sent[PacketId(Ends(r).atA, n)], r.eb.lock))
  {
    var id := PacketId(Ends(r).atA, n);
    AwayReceives(r, w.b, w.a.sent[id], reply, delivery, b');
    ReturningSame(r, w, w.(b := b'));
    if delivery.Late? { ForwardSame(r, w, w.(b := b')); } else { ForwardAnswered(r, w, b', id); }
  }

  /** What a packet under way carries back is there to be unlocked. */
  lemma ReturningIsLocked(r: Route, w: World, n: nat)
    requires Spare(r, w) >= 0 && UnderWay(w.b, Ends(r).atB, w.a, Ends(r).atA, n)
    ensures Has(w.a.ledger, r.ea.lock, r.d) >= Carries(w.b.sent[PacketId(Ends(r).atB, n)], r.d)
  {
    OutstandingCovers(Ends(r).atB, r.d, GoneBack(r, w), w.b.sent);
    OutstandingCovers(Ends(r).atA, r.d, GoneOut(r, w), w.a.sent);
    SupplyBounds(w.b.ledger, VoucherOf(r));
    var id := PacketId(Ends(r).atB, n);
    assert Weight(Ends(r).atB, r.d, GoneBack(r, w), id, w.b.sent[id]) == Carries(w.b.sent[id], r.d);
  }

  lemma ForwardIsLocked(r: Route, w: World, n: nat)
    requires Spare(r, w) >= 0 && UnderWay(w.a, Ends(r).atA, w.b, Ends(r).atB, n)
    ensures Has(w.a.ledger, r.ea.lock, r.d) >= Carries(w.a.sent[PacketId(Ends(r).atA, n)], r.d)
  {
    OutstandingCovers(Ends(r).atB, r.d, GoneBack(r, w), w.b.sent);
    OutstandingCovers(Ends(r).atA, r.d, GoneOut(r, w), w.a.sent);
    SupplyBounds(w.b.ledger, VoucherOf(r));
    var id := PacketId(Ends(r).atA, n);
    assert Weight(Ends(r).atA, r.d, GoneOut(r, w), id, w.a.sent[id]) == Carries(w.a.sent[id], r.d);
  }

  lemma ArrivesOnA(r: Route, w: World, n: nat, reply: Reply, delivery: Delivery, a': Chain)
    requires Proper(r) && HomeFine(r, w.a) && AwayFine(r, w.b) && Spare(r, w) >= 0
    requires UnderWay(w.b, Ends(r).atB, w.a, Ends(r).atA, n)
    requires ReceivePacket(r.ea, w.a, w.b.sent[PacketId(Ends(r).atB, n)], reply) == Ok((delivery, a'))
    ensures HomeFine(r, a')
    ensures Keeps(Spare(r, w), Spare(r, w.(a := a')), SendsTo(w.b.sent[PacketId(Ends(r).atB, n)], r.ea.lock))
  {
    var id := PacketId(Ends(r).atB, n);
    ReturningIsLocked(r, w, n);
    HomeReceives(r, w.a, w.b.sent[id], reply, delivery, a');
    ForwardSame(r, w, w.(a := a'));
    if delivery.Late? { ReturningSame(r, w, w.(a := a')); } else { ReturningAnswered(r, w, a', id); }
  }

  lemma RefundedOnA(r: Route, w: World, n: nat, reply: Reply, a': Chain)
    requires HomeFine(r, w.a) && UnderWay(w.a, Ends(r).atA, w.b, Ends(r).atB, n)
    requires TimeoutPacket(r.ea, w.a, w.a.sent[PacketId(Ends(r).atA, n)], reply) == Ok(a')
    ensures HomeFine(r, a') && Spare(r, w.(a := a')) == Spare(r, w)
  {
    var id := PacketId(Ends(r).atA, n);
    HomeRefunds(r, w.a, w.a.sent[id], reply, a');
    ForwardRefunded(r, w, a', id);
    ReturningSame(r, w, w.(a := a'));
  }

  lemma RefundedOnB(r: Route, w: World, n: nat, reply: Reply, b': Chain)
    requires AwayFine(r, w.b) && UnderWay(w.b, Ends(r).atB, w.a, Ends(r).atA, n)
    requires TimeoutPacket(r.eb, w.b, w.b.sent[PacketId(Ends(r).atB, n)], reply) == Ok(b')
    ensures AwayFine(r, b') && Spare(r, w.(b := b')) == Spare(r, w)
  {
    AwayRefunds(r, w.b, w.b.sent[PacketId(Ends(r).atB, n)], reply, b');
    ReturningSame(r, w, w.(b := b'));
    ForwardSame(r, w, w.(b := b'));
  }

  lemma AckedOnA(r: Route, w: World, p: Packet, ack: bytes, reply: Reply, a': Chain)
    requires HomeFine(r, w.a) && AcknowledgePacket(w.a, p, ack, reply) == Ok(a')
    ensures HomeFine(r, a') && Spare(r, w.(a := a')) == Spare(r, w)
  {
    ForwardSame(r, w, w.(a := a'));
    ReturningSame(r, w, w.(a := a'));
  }

  lemma AckedOnB(r: Route, w: World, p: Packet, ack: bytes, reply: Reply, b': Chain)
    requires AwayFine(r, w.b) && AcknowledgePacket(w.b, p, ack, reply) == Ok(b')
    ensures AwayFine(r, b') && Spare(r, w.(b := b')) == Spare(r, w)
  {
    ForwardSame(r, w, w.(b := b'));
    ReturningSame(r, w, w.(b := b'));
  }

  // ---- Local moves ----

  lemma LocalOnA(r: Route, w: World, m: Msg, a': Chain)
    requires Proper(r) && HomeFine(r, w.a) && Fine(w.a) && NextUnused(w.a, Ends(r).atA, w.b, Ends(r).atB)
    requires Handle(r.ea, w.a, m) == Ok(a') && SoleChannel(m, r.ca, r.ea.lock)
    requires MintsNone(m, VoucherOf(r), r.ea.wrap(r.ca, r.d), r.ea.wrap(r.ca, VoucherOf(r)))
    ensures HomeFine(r, a') && Keeps(Spare(r, w), Spare(r, w.(a := a')), Direct(r, w, AtA(m)))
  {
    if m.TransferMsg? {
      HomeTransfers(r, w, m, a');
    } else if m.PayMsg? {
      HomePays(r, w.a, m, a');
      ForwardSame(r, w, w.(a := a'));
      ReturningSame(r, w, w.(a := a'));
    } else if m.MintMsg? {
      HomeMints(r, w.a, m, a');
      ForwardSame(r, w, w.(a := a'));
      ReturningSame(r, w, w.(a := a'));
    } else {
      OthersAside(r.ea, w.a, m, Ends(r).atA, a');
      HomeAside(r, w, a');
    }
  }

  lemma LocalOnB(r: Route, w: World, m: Msg, b': Chain)
    requires Proper(r) && AwayFine(r, w.b) && Fine(w.b) && NextUnused(w.b, Ends(r).atB, w.a, Ends(r).atA)
    requires Handle(r.eb, w.b, m) == Ok(b') && SoleChannel(m, r.cb, r.eb.lock)
    requires MintsNone(m, r.d, VoucherOf(r), r.eb.wrap(r.cb, VoucherOf(r)))
    ensures AwayFine(r, b') && Keeps(Spare(r, w), Spare(r, w.(b := b')), Direct(r, w, AtB(m)))
  {
    if m.TransferMsg? {
      AwayTransfers(r, w, m, b');
    } else if m.PayMsg? {
      AwayPays(r, w.b, m, b');
      ForwardSame(r, w, w.(b := b'));
      ReturningSame(r, w, w.(b := b'));
    } else if m.MintMsg? {
      AwayMints(r, w.b, m, b');
      ForwardSame(r, w, w.(b := b'));
      ReturningSame(r, w, w.(b := b'));
    } else {
      OthersAside(r.eb, w.b, m, Ends(r).atB, b');
      AwayAside(r, w, b');
    }
  }

  // ---- Every move ----

  lemma DeliverBacked(r: Route, w: World, move: Move)
    requires Proper(r) && Backed(r, w) && move.Deliver?
    ensures var w' := Moved(Ends(r), w, move);
      HomeFine(r, w'.a) && AwayFine(r, w'.b) && Keeps(Spare(r, w), Spare(r, w'), Direct(r, w, move))
  {
    var k, n, reply := Ends(r), move.sequence, move.reply;
    if move.fromA && PacketId(k.atA, n) in w.a.sent {
      var rec := ReceivePacket(r.eb, w.b, w.a.sent[PacketId(k.atA, n)], reply);
      if rec.Ok? {
        ReceivableIsUnderWay(r.eb, w.a, k.atA, w.b, k.atB, n, reply);
        ArrivesOnB(r, w, n, reply, rec.value.0, rec.value.1);
      }
    } else if !move.fromA && PacketId(k.atB, n) in w.b.sent {
      var rec := ReceivePacket(r.ea, w.a, w.b.sent[PacketId(k.atB, n)], reply);
      if rec.Ok? {
        ReceivableIsUnderWay(r.ea, w.b, k.atB, w.a, k.atA, n, reply);
        ArrivesOnA(r, w, n, reply, rec.value.0, rec.value.1);
      }
    }
  }

  lemma TimeoutBacked(r: Route, w: World, move: Move)
    requires Proper(r) && Backed(r, w) && move.ReturnTimeout?
    ensures var w' := Moved(Ends(r), w, move); HomeFine(r, w'.a) && AwayFine(r, w'.b) && Spare(r, w') == Spare(r, w)
  {
    var k, n, reply := Ends(r), move.sequence, move.reply;
    if move.fromA {
      var w' := Moved(k, w, move);
      if w'.a != w.a {
        TimeoutIs(r.ea, w.a, w.a.sent[PacketId(k.atA, n)], reply);
        SentFits(w.a, k.atA, w.b, k.atB, n);
        RefundableIsUnderWay(w.a, k.atA, w.b, k.atB, n);
        RefundedOnA(r, w, n, reply, w'.a);
      }
    } else {
      var w' := Moved(k, w, move);
      if w'.b != w.b {
        TimeoutIs(r.eb, w.b, w.b.sent[PacketId(k.atB, n)], reply);
        SentFits(w.b, k.atB, w.a, k.atA, n);
        RefundableIsUnderWay(w.b, k.atB, w.a, k.atA, n);
        RefundedOnB(r, w, n, reply, w'.b);
      }
    }
  }

  lemma AckBacked(r: Route, w: World, move: Move)
    requires HomeFine(r, w.a) && AwayFine(r, w.b) && move.ReturnAck?
    ensures var w' := Moved(Ends(r), w, move); HomeFine(r, w'.a) && AwayFine(r, w'.b) && Spare(r, w') == Spare(r, w)
  {
    var k, n, w' := Ends(r), move.sequence, Moved(Ends(r), w, move);
    if move.fromA && w'.a != w.a {
      AckedOnA(r, w, w.a.sent[PacketId(k.atA, n)], w.b.acks[PacketId(k.atB, n)].value, move.reply, w'.a);
    } else if !move.fromA && w'.b != w.b {
      AckedOnB(r, w, w.b.sent[PacketId(k.atB, n)], w.a.acks[PacketId(k.atA, n)].value, move.reply, w'.b);
    }
  }

  lemma LocalBacked(r: Route, w: World, move: Move)
    requires Proper(r) && Backed(r, w) && Fair(r, move) && (move.AtA? || move.AtB?)
    ensures var w' := Moved(Ends(r), w, move);
      HomeFine(r, w'.a) && AwayFine(r, w'.b) && Keeps(Spare(r, w), Spare(r, w'), Direct(r, w, move))
  {
    var k := Ends(r);
    if move.AtA? {
      var h := Handle(r.ea, w.a, move.m);
      if h.Ok? {
        NextIsUnused(w.a, k.atA, w.b, k.atB);
        LocalOnA(r, w, move.m, h.value);
      }
    } else {
      var h := Handle(r.eb, w.b, move.m);
      if h.Ok? {
        NextIsUnused(w.b, k.atB, w.a, k.atA);
        LocalOnB(r, w, move.m, h.value);
      }
    }
  }

  /** No fair move makes the lock account fall behind, and only payments made
      directly to a lock account put it further ahead. */
  lemma MoveBacked(r: Route, w: World, move: Move)
    requires Proper(r) && Backed(r, w) && Fair(r, move)
    ensures var w' := Moved(Ends(r), w, move); Backed(r, w') && Keeps(Spare(r, w), Spare(r, w'), Direct(r, w, move))
  {
    MoveKeeps(Ends(r), w, move);
    match move
    case AtA(_) => LocalBacked(r, w, move);
    case AtB(_) => LocalBacked(r, w, move);
    case Deliver(_, _, _) => DeliverBacked(r, w, move);
    case ReturnAck(_, _, _) => AckBacked(r, w, move);
    case ReturnTimeout(_, _, _) => TimeoutBacked(r, w, move);
  }

  // ---- Every run ----

  ghost predicate AllFair(r: Route, moves: seq<Move>) { forall i :: 0 <= i < |moves| ==> Fair(r, moves[i]) }

  /** Somewhere along the run a lock account is paid directly. */
  ghost predicate PaysLocks(r: Route, w: World, moves: seq<Move>)
    decreases moves
  {
    moves != [] && (Direct(r, w, moves[0]) || PaysLocks(r, Moved(Ends(r), w, moves[0]), moves[1..]))
  }

  lemma {:induction false} RunBacked(r: Route, w: World, moves: seq<Move>)
    requires Proper(r) && Backed(r, w) && AllFair(r, moves)
    ensures Backed(r, MovedAll(Ends(r), w, moves))
    ensures Keeps(Spare(r, w), Spare(r, MovedAll(Ends(r), w, moves)), PaysLocks(r, w, moves))
    decreases moves
  {
    if moves != [] {
      MoveBacked(r, w, moves[0]);
      RunBacked(r, Moved(Ends(r), w, moves[0]), moves[1..]);
    }
  }

  lemma RelayingIsFair(r: Route, moves: seq<Move>)
    requires AllRelaying(moves)
    ensures AllFair(r, moves)
  {
  }

  /** Relaying keeps the two ends in agreement and the lock account covered. */
  lemma RelayingBacked(r: Route, w: World, moves: seq<Move>)
    requires Proper(r) && Backed(r, w) && AllRelaying(moves)
    ensures Backed(r, MovedAll(Ends(r), w, moves))
    ensures Keeps(Spare(r, w), Spare(r, MovedAll(Ends(r), w, moves)), PaysLocks(r, w, moves))
  {
    RelayingIsFair(r, moves);
    RunBacked(r, w, moves);
  }

  /** A channel just connected, between a chain that has `d` and one that has
      neither `d` nor vouchers of it. */
  ghost predicate Start(r: Route, w: World) {
    && Fine(w.a) && Fine(w.b) && Linked(w.a, Ends(r).atA, w.b, Ends(r).atB)
    && Unused(w.a, Ends(r).atA) && Unused(w.b, Ends(r).atB)
    && w.a.channels[Ends(r).atA].next == 1 == w.b.channels[Ends(r).atB].next
    && CanonicalLedger(w.a.ledger) && VouchersFine(r.ea, w.a.vouchers)
    && CanonicalLedger(w.b.ledger) && VouchersFine(r.eb, w.b.vouchers)
    && Absent(w.a.ledger, VoucherOf(r), r.ea.wrap(r.ca, r.d), r.ea.wrap(r.ca, VoucherOf(r)))
    && Absent(w.b.ledger, r.d, VoucherOf(r), r.eb.wrap(r.cb, VoucherOf(r)))
  }

  /** What the relayer's channel creation leaves is such a channel. */
  lemma CreatedChannelStarts(r: Route, w: World)
    requires Fine(w.a) && Fine(w.b) && Mirrored(w.a, Ends(r).atA, w.b, Ends(r).atB)
    requires Unused(w.a, Ends(r).atA) && Unused(w.b, Ends(r).atB)
    requires CanonicalLedger(w.a.ledger) && VouchersFine(r.ea, w.a.vouchers)
    requires CanonicalLedger(w.b.ledger) && VouchersFine(r.eb, w.b.vouchers)
    requires Absent(w.a.ledger, VoucherOf(r), r.ea.wrap(r.ca, r.d), r.ea.wrap(r.ca, VoucherOf(r)))
    requires Absent(w.b.ledger, r.d, VoucherOf(r), r.eb.wrap(r.cb, VoucherOf(r)))
    ensures Start(r, w)
  {
  }

  lemma NothingOutstanding(at: Endpoint, d: Denom, gone: set<PacketId>, sent: map<PacketId, Packet>)
    requires forall id :: id in sent ==> id.at != at
    ensures Outstanding(at, d, gone, sent) == 0
  {
    ZeroSum(Weights(at, d, gone, sent));
  }

  lemma {:induction false} ZeroSum(m: map<PacketId, int>)
    requires forall k :: k in m ==> m[k] == 0
    ensures Sum(m) == 0
    decreases |m|
  {
    if m.Keys != {} {
      var k :| k in m;
      SumTake(m, k);
      ZeroSum(m - {k});
    } else {
      assert m == map[];
    }
  }

  lemma NothingSent(c: Chain, at: Endpoint)
    requires Fine(c) && at in c.channels && c.channels[at].next == 1
    ensures forall id :: id in c.sent ==> id.at != at
  {
  }

  lemma StartIsBacked(r: Route, w: World)
    requires Start(r, w)
    ensures Backed(r, w) && Spare(r, w) == Has(w.a.ledger, r.ea.lock, r.d)
  {
    var k := Ends(r);
    assert Agree(w.a, k.atA, w.b, k.atB) && Agree(w.b, k.atB, w.a, k.atA);
    NothingSent(w.a, k.atA);
    NothingSent(w.b, k.atB);
    NothingOutstanding(k.atA, r.d, GoneOut(r, w), w.a.sent);
    NothingOutstanding(k.atB, r.d, GoneBack(r, w), w.b.sent);
    SupplyBounds(w.b.ledger, VoucherOf(r));
  }

  /** From a freshly connected channel on, whatever the chains and the relayer do
      and in whatever order: the lock account on A holds `d` for everything under
      way to B, for every voucher circulating there, and for everything under way
      back; exactly so, on top of what it held to begin with, unless it or the
      lock account on B is paid directly. */
  lemma EscrowBacking(r: Route, w: World, moves: seq<Move>)
    requires Proper(r) && Start(r, w) && AllFair(r, moves)
    ensures var w', held := MovedAll(Ends(r), w, moves), Has(w.a.ledger, r.ea.lock, r.d);
      var owed := Forward(r, w') + Circulating(r, w'.b) + Returning(r, w');
      && Has(w'.a.ledger, r.ea.lock, r.d) >= held + owed
      && (!PaysLocks(r, w, moves) ==> Has(w'.a.ledger, r.ea.lock, r.d) == held + owed)
      && Backed(r, w')
  {
    StartIsBacked(r, w);
    RunBacked(r, w, moves);
  }

  // ---- What a user can rely on ----

  lemma LandsOnA(e: Env, a: Chain, p: Packet, reply: Reply)
    requires CanonicalLedger(a.ledger) && p.data.Transfer20? && p.data.amount > 0 && p.dest.port == BANK_PORT
    requires Has(a.ledger, e.lock, p.data.denom) >= p.data.amount
    ensures ReceivePacket(e, a, p, reply) != Panicked
    ensures p.dest in a.channels && PacketId(p.dest, p.sequence) !in a.received && e.valid(p.data.receiver)
            && !HasPassed(p.timeout, a.height, a.time) ==>
      var r := ReceivePacket(e, a, p, reply); r.Ok? && r.value.0 == Acknowledged(Some(e.success))
  {
    var c1 := a.(mail := a.mail.(received := a.received[PacketId(p.dest, p.sequence) := Receipt(p, false)]));
    BankReceiveIs(e, c1, p);
    LockedIs(e, c1, p.data.denom);
    SendOne(c1.ledger, e.lock, p.data.receiver, p.data.denom, p.data.amount);
  }

  /** Coming home: the assertion on the locked amount never fires for `d`, and a
      packet in time to a valid address hands its amount out of the lock account. */
  lemma ReturnsAlwaysUnlock(r: Route, w: World, n: nat, reply: Reply)
    requires Proper(r) && Backed(r, w) && PacketId(Ends(r).atB, n) in w.b.sent
    requires PacketId(Ends(r).atA, n) !in w.a.received
    requires Carries(w.b.sent[PacketId(Ends(r).atB, n)], r.d) > 0
    ensures var p := w.b.sent[PacketId(Ends(r).atB, n)];
      var got := ReceivePacket(r.ea, w.a, p, reply);
      && got != Panicked
      && (r.ea.valid(p.data.receiver) && !HasPassed(p.timeout, w.a.height, w.a.time) ==>
            got.Ok? && MovedOne(w.a.ledger, got.value.1.ledger, r.ea.lock, p.data.receiver, r.d, p.data.amount))
  {
    var k, p := Ends(r), w.b.sent[PacketId(Ends(r).atB, n)];
    ReturnIsUnderWay(r, w, n);
    ReturningIsLocked(r, w, n);
    LandsOnA(r.ea, w.a, p, reply);
    var got := ReceivePacket(r.ea, w.a, p, reply);
    if got.Ok? { ReceiveAtBankIs(r.ea, w.a, p, reply, got.value.0, got.value.1); }
  }

  lemma ReturnIsUnderWay(r: Route, w: World, n: nat)
    requires WorldFine(Ends(r), w) && PacketId(Ends(r).atB, n) in w.b.sent && PacketId(Ends(r).atA, n) !in w.a.received
    ensures UnderWay(w.b, Ends(r).atB, w.a, Ends(r).atA, n) && Ends(r).atA in w.a.channels
  {
    SentFits(w.b, Ends(r).atB, w.a, Ends(r).atA, n);
    assert AgreeOn(w.b, Ends(r).atB, w.a, Ends(r).atA, n);
  }

  /** A transfer of `d` that reached B too late, and was not refunded yet, is
      refunded to its sender. */
  lemma LateTransfersAreRefunded(r: Route, w: World, n: nat, reply: Reply)
    requires Proper(r) && Backed(r, w)
    requires PacketId(Ends(r).atA, n) in w.a.sent && PacketId(Ends(r).atA, n) !in w.a.timedOut
    requires PacketId(Ends(r).atB, n) in w.b.received && w.b.received[PacketId(Ends(r).atB, n)].timedOut
    requires Carries(w.a.sent[PacketId(Ends(r).atA, n)], r.d) > 0
    ensures var p := w.a.sent[PacketId(Ends(r).atA, n)];
      var got := TimeoutPacket(r.ea, w.a, p, reply);
      && got != Panicked
      && (r.ea.valid(p.data.sender) ==>
            got.Ok? && MovedOne(w.a.ledger, got.value.ledger, r.ea.lock, p.data.sender, r.d, p.data.amount))
  {
    var p := w.a.sent[PacketId(Ends(r).atA, n)];
    LateIsUnderWay(r, w, n);
    ForwardIsLocked(r, w, n);
    RefundedExactly(r.ea, w.a, PacketId(Ends(r).atA, n), reply);
  }

  lemma LateIsUnderWay(r: Route, w: World, n: nat)
    requires WorldFine(Ends(r), w)
    requires PacketId(Ends(r).atA, n) in w.a.sent && PacketId(Ends(r).atA, n) !in w.a.timedOut
    requires PacketId(Ends(r).atB, n) in w.b.received && w.b.received[PacketId(Ends(r).atB, n)].timedOut
    ensures UnderWay(w.a, Ends(r).atA, w.b, Ends(r).atB, n)
    ensures Ends(r).atA in w.a.channels && PacketId(Ends(r).atA, n) !in w.a.acked
  {
    RefundableIsUnderWay(w.a, Ends(r).atA, w.b, Ends(r).atB, n);
    assert AgreeOn(w.a, Ends(r).atA, w.b, Ends(r).atB, n);
  }

  /** A voucher sent home too late is another matter: its packet names `d`, which
      the lock account on B never holds, so the timeout is refused and the voucher
      stays locked. */
  lemma LateReturnsAreNotRefunded(r: Route, w: World, n: nat, reply: Reply)
    requires Proper(r) && Backed(r, w) && PacketId(Ends(r).atB, n) in w.b.sent
    requires Carries(w.b.sent[PacketId(Ends(r).atB, n)], r.d) > 0
    ensures TimeoutPacket(r.eb, w.b, w.b.sent[PacketId(Ends(r).atB, n)], reply) == Refused
  {
    var p := w.b.sent[PacketId(Ends(r).atB, n)];
    SentFits(w.b, Ends(r).atB, w.a, Ends(r).atA, n);
    SupplyBounds(w.b.ledger, r.d);
    LockedIs(r.eb, w.b, r.d);
  }

  lemma MintsOnB(e: Env, b: Chain, p: Packet, reply: Reply)
    requires CanonicalLedger(b.ledger) && p.data.Transfer20? && p.data.amount > 0 && p.dest.port == BANK_PORT
    requires Has(b.ledger, e.lock, p.data.denom) == 0
    ensures ReceivePacket(e, b, p, reply) != Panicked
    ensures p.dest in b.channels && PacketId(p.dest, p.sequence) !in b.received && e.valid(p.data.receiver)
            && !HasPassed(p.timeout, b.height, b.time) ==>
      var r := ReceivePacket(e, b, p, reply); r.Ok? && r.value.0 == Acknowledged(Some(e.success))
  {
    var c1 := b.(mail := b.mail.(received := b.received[PacketId(p.dest, p.sequence) := Receipt(p, false)]));
    BankReceiveIs(e, c1, p);
    LockedIs(e, c1, p.data.denom);
    MintOne(c1.ledger, p.data.receiver, e.wrap(p.dest.channel, p.data.denom), p.data.amount);
  }

  lemma TransferIsUnderWay(r: Route, w: World, n: nat)
    requires WorldFine(Ends(r), w) && PacketId(Ends(r).atA, n) in w.a.sent && PacketId(Ends(r).atB, n) !in w.b.received
    ensures UnderWay(w.a, Ends(r).atA, w.b, Ends(r).atB, n) && Ends(r).atB in w.b.channels
  {
    SentFits(w.a, Ends(r).atA, w.b, Ends(r).atB, n);
    assert AgreeOn(w.a, Ends(r).atA, w.b, Ends(r).atB, n);
  }

  lemma VoucherMinted(r: Route, b: Chain, p: Packet, reply: Reply)
    requires Proper(r) && AwayFine(r, b) && Carries(p, r.d) > 0 && p.dest == Ends(r).atB
    requires p.dest in b.channels && PacketId(p.dest, p.sequence) !in b.received
    ensures var got := ReceivePacket(r.eb, b, p, reply);
      && got != Panicked
      && (r.eb.valid(p.data.receiver) && !HasPassed(p.timeout, b.height, b.time) ==>
            && got.Ok? && MintedOne(b.ledger, got.value.1.ledger, p.data.receiver, VoucherOf(r), p.data.amount)
            && Unwrapped(got.value.1, VoucherOf(r), r.cb) == r.d)
  {
    SupplyBounds(b.ledger, r.d);
    MintsOnB(r.eb, b, p, reply);
    var got := ReceivePacket(r.eb, b, p, reply);
    if got.Ok? { ReceiveAtBankIs(r.eb, b, p, reply, got.value.0, got.value.1); }
  }

  /** Going out: in time and to a valid address, the receiver gets just that much
      of the voucher, which stands for `d` from then on. */
  lemma ArrivalsMintVouchers(r: Route, w: World, n: nat, reply: Reply)
    requires Proper(r) && Backed(r, w) && PacketId(Ends(r).atA, n) in w.a.sent
    requires PacketId(Ends(r).atB, n) !in w.b.received
    requires Carries(w.a.sent[PacketId(Ends(r).atA, n)], r.d) > 0
    ensures var p := w.a.sent[PacketId(Ends(r).atA, n)];
      var got := ReceivePacket(r.eb, w.b, p, reply);
      && got != Panicked
      && (r.eb.valid(p.data.receiver) && !HasPassed(p.timeout, w.b.height, w.b.time) ==>
            && got.Ok? && MintedOne(w.b.ledger, got.value.1.ledger, p.data.receiver, VoucherOf(r), p.data.amount)
            && Unwrapped(got.value.1, VoucherOf(r), r.cb) == r.d)
  {
    TransferIsUnderWay(r, w, n);
    VoucherMinted(r, w.b, w.a.sent[PacketId(Ends(r).atA, n)], reply);
  }

  // ---- Starts exist ----

  ghost function ConnectedChain(at: Endpoint, there: Endpoint, ledger: Ledger<Addr>): Chain {
    Chain(Registry(map[], map[BANK_PORT := 1], map[], map[at := ChannelInfo(1, there, Unordered, "ics20-1", 0, true)]),
          Mail(map[], map[], {}, map[], map[]), Vault(ledger, map[]), 0, 0)
  }

  lemma ConnectedIsFine(at: Endpoint, there: Endpoint, ledger: Ledger<Addr>)
    requires at.port == BANK_PORT && at.channel == Channel(0)
    ensures var c := ConnectedChain(at, there, ledger);
      Fine(c) && Unused(c, at) && at in c.channels && c.channels[at].remote == there && c.channels[at].next == 1
  {
  }

  lemma NoSupply(l: Ledger<Addr>)
    requires l.Keys == {}
    ensures forall y :: Supply(l, y) == 0
  {
    forall y ensures Supply(l, y) == 0 {
      assert Amounts(l, y) == map[];
      assert Supply(l, y) == Sum(Amounts(l, y));
    }
  }

  lemma HoldsOnly(k: Addr, d: Denom, n: nat)
    requires n > 0
    ensures var l: Ledger<Addr> := map[k := [Coin(d, n)]];
      CanonicalLedger(l) && Has(l, k, d) == n && forall y :: Supply(l, y) == if y == d then n else 0
  {
    var none: Ledger<Addr> := map[];
    var b := [Coin(d, n)];
    assert b[1..] == [];
    SetBalanceEffect(none, k, b);
    assert Normalize(b) == b;
    assert SetBalance(none, k, b) == map[k := b];
    NoSupply(none);
  }

  lemma StartFrom(r: Route, holder: Addr, n: nat)
    requires Proper(r) && r.ca == Channel(0) == r.cb && n > 0
    ensures var k, none: Ledger<Addr> := Ends(r), map[];
      Start(r, World(ConnectedChain(k.atA, k.atB, map[holder := [Coin(r.d, n)]]), ConnectedChain(k.atB, k.atA, none)))
  {
    var none: Ledger<Addr> := map[];
    HoldsOnly(holder, r.d, n);
    NoSupply(none);
    ConnectedIsFine(Ends(r).atA, Ends(r).atB, map[holder := [Coin(r.d, n)]]);
    ConnectedIsFine(Ends(r).atB, Ends(r).atA, none);
  }

  /** The assumptions can be met, with any amount of `d` on A to begin with. */
  lemma StartsExist(holder: Addr, n: nat, valid: Addr -> bool, lock: Addr, success: bytes)
    requires n > 0
    ensures exists r: Route, w: World :: Proper(r) && Start(r, w) && Has(w.a.ledger, holder, r.d) == n
  {
    ProperRoutesExist(valid, lock, success, Channel(0), Channel(0));
    var r: Route :| Proper(r) && r.ca == Channel(0) && r.cb == Channel(0) && r.ea.lock == lock;
    var none: Ledger<Addr> := map[];
    var l: Ledger<Addr> := map[holder := [Coin(r.d, n)]];
    HoldsOnly(holder, r.d, n);
    StartFrom(r, holder, n);
    var w := World(ConnectedChain(Ends(r).atA, Ends(r).atB, l), ConnectedChain(Ends(r).atB, Ends(r).atA, none));
    assert Start(r, w) && w.a.ledger == l;
  }
}
