/**
 Escrow for a denomination either chain may hold of its own: neither lock account
 answers for it alone, but both of them together always do.
 */
module EscrowJoint {
  import opened Bytes
  import opened Bank
  import opened Results
  import opened Ibc
  import opened IbcLaws
  import opened IbcWorld
  import opened Escrow
  import opened EscrowLaws
  import opened EscrowRuns

  // ---- One side ----

  /** One end of the channel, for denomination `d`. */
  datatype Side = Side(e: Env, here: ChannelId, there: ChannelId, d: Denom)

  ghost function At(s: Side): Endpoint { Endpoint(BANK_PORT, s.here) }

  /** `d`'s voucher on this chain, and on the other. */
  ghost function Own(s: Side): Denom { s.e.wrap(s.here, s.d) }
  ghost function Other(s: Side): Denom { s.e.wrap(s.there, s.d) }

  /** What would pass for one of the vouchers without being one. */
  ghost predicate Copy(s: Side, x: Denom) {
    || (x == Other(s) && x != Own(s))
    || x == s.e.wrap(s.here, Own(s))
    || x == s.e.wrap(s.here, Other(s))
  }

  ghost predicate Clear(s: Side, p: Packet) {
    PurePacket(p, Own(s), s.e.lock) && p.data.denom != Other(s)
  }

  ghost predicate AllClear(s: Side, sent: map<PacketId, Packet>) {
    forall id :: id in sent && id.at == At(s) ==> Clear(s, sent[id])
  }

  /** `d` may be anybody's here; its voucher is known as such, and no copies are about. */
  ghost predicate SideFine(s: Side, c: Chain) {
    && CanonicalLedger(c.ledger) && VouchersFine(s.e, c.vouchers)
    && (Supply(c.ledger, Own(s)) > 0 ==> Own(s) in c.vouchers)
    && (forall x :: Copy(s, x) ==> Supply(c.ledger, x) == 0)
    && AllClear(s, c.sent)
  }

  /** The chain hashes without collisions, and `d` is no hash. */
  ghost predicate Hashes(s: Side) {
    && (forall c1, d1, c2, d2 :: s.e.wrap(c1, d1) == s.e.wrap(c2, d2) ==> c1 == c2 && d1 == d2)
    && (forall c, x :: s.e.wrap(c, x) != s.d)
  }

  ghost function Vouchers(s: Side, c: Chain): int {
    Supply(c.ledger, Own(s)) - Has(c.ledger, s.e.lock, Own(s))
  }

  /** What is locked of `d` here, less the vouchers circulating here. */
  ghost function Net(s: Side, c: Chain): int { Has(c.ledger, s.e.lock, s.d) - Vouchers(s, c) }

  /** Exactly `d` and its voucher leave as `d`, and nothing leaves under a voucher's name. */
  lemma SideDenom(s: Side, c: Chain, x: Denom)
    requires Hashes(s) && SideFine(s, c) && Supply(c.ledger, x) > 0
    ensures Unwrapped(c, x, s.here) == s.d <==> x == s.d || x == Own(s)
    ensures Unwrapped(c, x, s.here) != Own(s) && Unwrapped(c, x, s.here) != Other(s)
  {
    assert !Copy(s, x);
  }

  lemma ClearWith(s: Side, sent: map<PacketId, Packet>, id: PacketId, p: Packet)
    requires AllClear(s, sent) && Clear(s, p)
    ensures AllClear(s, sent[id := p])
  {
  }

  lemma SideLocked(s: Side, c: Chain, id: PacketId, p: Packet, c': Chain, x: Denom)
    requires Hashes(s) && SideFine(s, c) && Clear(s, p)
    requires MovedOne(c.ledger, c'.ledger, p.data.sender, s.e.lock, x, p.data.amount)
    requires c'.vouchers == c.vouchers && c'.sent == c.sent[id := p]
    requires x == s.d || x == Own(s) <==> p.data.denom == s.d
    ensures SideFine(s, c') && Net(s, c') == Net(s, c) + Carries(p, s.d)
  {
    ClearWith(s, c.sent, id, p);
  }

  lemma SideTransfers(s: Side, c: Chain, m: Msg, c': Chain)
    requires Hashes(s) && SideFine(s, c) && m.TransferMsg? && m.channel == s.here && m.sender != s.e.lock
    requires Handle(s.e, c, m) == Ok(c')
    ensures At(s) in c.channels && var id := PacketId(At(s), c.channels[At(s)].next);
      && c'.acks == c.acks && c'.timedOut == c.timedOut
      && id in c'.sent && c'.sent == c.sent[id := c'.sent[id]]
      && SideFine(s, c') && Net(s, c') == Net(s, c) + Carries(c'.sent[id], s.d)
  {
    TransferIs(s.e, c, m.sender, m.channel, m.to, m.coin, m.timeout, c');
    HoldersHaveSupply(c.ledger, m.sender, m.coin.denom);
    SideDenom(s, c, m.coin.denom);
    var id := PacketId(At(s), c.channels[At(s)].next);
    SideLocked(s, c, id, c'.sent[id], c', m.coin.denom);
  }

  /** A denomination that may arrive here: nobody sends a voucher by name. */
  ghost predicate Arrivable(s: Side, p: Packet) {
    p.data.Transfer20? && p.data.amount > 0 && p.data.denom != Own(s) && p.data.denom != Other(s)
  }

  lemma SideUnlocks(s: Side, c: Chain, p: Packet, c': Chain)
    requires SideFine(s, c) && Arrivable(s, p) && c'.vouchers == c.vouchers && c'.sent == c.sent
    requires MovedOne(c.ledger, c'.ledger, s.e.lock, p.data.receiver, p.data.denom, p.data.amount)
    ensures SideFine(s, c')
    ensures Net(s, c') == Net(s, c) - if p.data.receiver == s.e.lock then 0 else Carries(p, s.d)
  {
  }

  lemma SideMintsVoucher(s: Side, c: Chain, p: Packet, c': Chain)
    requires Hashes(s) && SideFine(s, c) && Arrivable(s, p) && c'.sent == c.sent
    requires var x := s.e.wrap(s.here, p.data.denom);
      && c'.vouchers == c.vouchers[x := Voucher(s.here, p.data.denom)]
      && MintedOne(c.ledger, c'.ledger, p.data.receiver, x, p.data.amount)
    ensures SideFine(s, c')
    ensures Net(s, c') == Net(s, c) - if p.data.receiver == s.e.lock then 0 else Carries(p, s.d)
  {
    assert !Copy(s, s.e.wrap(s.here, p.data.denom));
  }

  /** Unlocking `d` or minting its voucher comes to the same. */
  lemma SideReceives(s: Side, c: Chain, p: Packet, reply: Reply, delivery: Delivery, c': Chain)
    requires Hashes(s) && SideFine(s, c) && p.dest == At(s) && Arrivable(s, p)
    requires ReceivePacket(s.e, c, p, reply) == Ok((delivery, c'))
    ensures SideFine(s, c') && c'.sent == c.sent && c'.timedOut == c.timedOut
    ensures delivery.Late? ==> c'.acks == c.acks && Net(s, c') == Net(s, c)
    ensures delivery.Acknowledged? ==>
      && c'.acks == c.acks[PacketId(p.dest, p.sequence) := Some(s.e.success)]
      && Net(s, c') == Net(s, c) - if p.data.receiver == s.e.lock then 0 else Carries(p, s.d)
  {
    ReceiveAtBankIs(s.e, c, p, reply, delivery, c');
    if delivery.Acknowledged? {
      if Has(c.ledger, s.e.lock, p.data.denom) > 0 { SideUnlocks(s, c, p, c'); } else { SideMintsVoucher(s, c, p, c'); }
    }
  }

  lemma SideRefunds(s: Side, c: Chain, p: Packet, reply: Reply, c': Chain)
    requires SideFine(s, c) && p.src == At(s) && TimeoutPacket(s.e, c, p, reply) == Ok(c')
    ensures var id := PacketId(p.src, p.sequence);
      && id in c.sent && id !in c.timedOut && c'.sent == c.sent && c'.acks == c.acks
      && c'.timedOut == c.timedOut + {id}
      && SideFine(s, c') && Net(s, c') == Net(s, c) - Carries(c.sent[id], s.d)
  {
    TimeoutAtBankIs(s.e, c, p, reply, c');
  }

  ghost predicate MintsNoVoucher(s: Side, m: Msg) {
    m.MintMsg? ==> forall x :: x == Own(s) || Copy(s, x) ==> Amount(m.coins, x) == 0
  }

  /** A payment or a mint to the lock account itself. */
  ghost predicate Gives(s: Side, m: Msg) { (m.PayMsg? || m.MintMsg?) && m.to == s.e.lock }

  lemma SidePays(s: Side, c: Chain, m: Msg, c': Chain)
    requires SideFine(s, c) && m.PayMsg? && m.sender != s.e.lock && Handle(s.e, c, m) == Ok(c')
    ensures c'.mail == c.mail && SideFine(s, c') && Keeps(Net(s, c), Net(s, c'), Gives(s, m))
  {
    SendEffect(c.ledger, m.sender, m.to, m.coins);
  }

  lemma SideMints(s: Side, c: Chain, m: Msg, c': Chain)
    requires SideFine(s, c) && m.MintMsg? && MintsNoVoucher(s, m) && Handle(s.e, c, m) == Ok(c')
    ensures c'.mail == c.mail && SideFine(s, c') && Keeps(Net(s, c), Net(s, c'), Gives(s, m))
  {
    MintEffect(c.ledger, m.to, m.coins);
  }

  // ---- Both sides ----

  ghost function SideA(r: Route): Side { Side(r.ea, r.ca, r.cb, r.d) }

  /** The same channel and the same two chains, seen from the other end. */
  ghost function Turned(r: Route): Route { Route(r.eb, r.ea, r.cb, r.ca, r.d) }
  ghost function Around(w: World): World { World(w.b, w.a) }

  ghost function TurnedMove(move: Move): Move {
    match move
    case AtA(m) => AtB(m)
    case AtB(m) => AtA(m)
    case Deliver(fromA, n, reply) => Deliver(!fromA, n, reply)
    case ReturnAck(fromA, n, reply) => ReturnAck(!fromA, n, reply)
    case ReturnTimeout(fromA, n, reply) => ReturnTimeout(!fromA, n, reply)
  }

  /** What both lock accounts hold of `d` beyond the vouchers circulating on both
      chains and everything under way. */
  ghost function JointSpare(r: Route, w: World): int {
    Net(SideA(r), w.a) + Net(SideA(Turned(r)), w.b) - Forward(r, w) - Forward(Turned(r), Around(w))
  }

  ghost predicate SidesFine(r: Route, w: World) { SideFine(SideA(r), w.a) && SideFine(SideA(Turned(r)), w.b) }

  /** Either chain may pay and mint `d` as it likes. */
  ghost predicate JointFair(r: Route, move: Move) {
    && Honest(Ends(r), move)
    && (move.AtA? ==> SoleChannel(move.m, r.ca, r.ea.lock) && MintsNoVoucher(SideA(r), move.m))
    && (move.AtB? ==> SoleChannel(move.m, r.cb, r.eb.lock) && MintsNoVoucher(SideA(Turned(r)), move.m))
  }

  ghost predicate JointDirect(r: Route, w: World, move: Move) {
    match move
    case AtA(m) => Gives(SideA(r), m)
    case AtB(m) => Gives(SideA(Turned(r)), m)
    case Deliver(fromA, n, _) =>
      if fromA then PacketId(Ends(r).atA, n) in w.a.sent && SendsTo(w.a.sent[PacketId(Ends(r).atA, n)], r.eb.lock)
      else PacketId(Ends(r).atB, n) in w.b.sent && SendsTo(w.b.sent[PacketId(Ends(r).atB, n)], r.ea.lock)
    case _ => false
  }

  /** The relevant part of a joint step. */
  ghost predicate JointStep(r: Route, w: World, w': World, direct: bool) {
    SidesFine(r, w') && Keeps(JointSpare(r, w), JointSpare(r, w'), direct)
  }

  lemma ProperHashes(r: Route)
    requires Proper(r)
    ensures Hashes(SideA(r)) && Hashes(SideA(Turned(r))) && Proper(Turned(r))
  {
  }

  // ---- A's own messages ----

  lemma JointSent(r: Route, w: World, a': Chain, id: PacketId, p: Packet)
    requires id !in w.a.sent && id.at == Ends(r).atA && PacketId(Ends(r).atB, id.sequence) !in w.b.acks
    requires a'.sent == w.a.sent[id := p] && a'.timedOut == w.a.timedOut <= w.a.sent.Keys && a'.acks == w.a.acks
    ensures Forward(r, w.(a := a')) == Forward(r, w) + Carries(p, r.d)
    ensures Forward(Turned(r), Around(w.(a := a'))) == Forward(Turned(r), Around(w))
  {
    ForwardSends(r, w, a', id, p);
    ForwardSame(Turned(r), Around(w), Around(w.(a := a')));
  }

  lemma JointTransfer(r: Route, w: World, m: Msg, a': Chain)
    requires Hashes(SideA(r)) && SidesFine(r, w) && NextUnused(w.a, Ends(r).atA, w.b, Ends(r).atB)
    requires m.TransferMsg? && m.channel == r.ca && m.sender != r.ea.lock && Handle(r.ea, w.a, m) == Ok(a')
    ensures JointStep(r, w, w.(a := a'), false)
  {
    SideTransfers(SideA(r), w.a, m, a');
    var id := PacketId(Ends(r).atA, w.a.channels[Ends(r).atA].next);
    JointSent(r, w, a', id, a'.sent[id]);
  }

  lemma JointPayment(r: Route, w: World, m: Msg, a': Chain)
    requires SidesFine(r, w) && (m.PayMsg? || m.MintMsg?) && Handle(r.ea, w.a, m) == Ok(a')
    requires SoleChannel(m, r.ca, r.ea.lock) && MintsNoVoucher(SideA(r), m)
    ensures JointStep(r, w, w.(a := a'), Gives(SideA(r), m))
  {
    if m.PayMsg? { SidePays(SideA(r), w.a, m, a'); } else { SideMints(SideA(r), w.a, m, a'); }
    ForwardSame(r, w, w.(a := a'));
    ForwardSame(Turned(r), Around(w), Around(w.(a := a')));
  }

  lemma SideAside(s: Side, c: Chain, c': Chain)
    requires SideFine(s, c) && Aside(c, c', At(s))
    ensures SideFine(s, c') && Net(s, c') == Net(s, c)
  {
  }

  lemma JointAside(r: Route, w: World, a': Chain)
    requires SidesFine(r, w) && Aside(w.a, a', Ends(r).atA)
    ensures JointStep(r, w, w.(a := a'), false)
  {
    SideAside(SideA(r), w.a, a');
    ForwardAside(r, w, a');
    ForwardSame(Turned(r), Around(w), Around(w.(a := a')));
  }

  lemma JointLocal(r: Route, w: World, m: Msg)
    requires Proper(r) && WorldFine(Ends(r), w) && SidesFine(r, w) && JointFair(r, AtA(m))
    ensures JointStep(r, w, Moved(Ends(r), w, AtA(m)), Gives(SideA(r), m))
  {
    var h := Handle(r.ea, w.a, m);
    if h.Ok? {
      if m.TransferMsg? {
        NextIsUnused(w.a, Ends(r).atA, w.b, Ends(r).atB);
        ProperHashes(r);
        JointTransfer(r, w, m, h.value);
      } else if m.PayMsg? || m.MintMsg? {
        JointPayment(r, w, m, h.value);
      } else {
        OthersAside(r.ea, w.a, m, Ends(r).atA, h.value);
        JointAside(r, w, h.value);
      }
    }
  }

  // ---- Packets from A ----

  /** A packet of A's received on B, with B's books already compared. */
  lemma JointReceived(r: Route, w: World, id: PacketId, b': Chain, answered: bool)
    requires id in w.a.sent && id.at == Ends(r).atA && id !in w.a.timedOut
    requires PacketId(Ends(r).atB, id.sequence) !in w.b.acks
    requires b'.sent == w.b.sent && b'.timedOut == w.b.timedOut
    requires b'.acks.Keys == w.b.acks.Keys + if answered then {PacketId(Ends(r).atB, id.sequence)} else {}
    ensures Forward(r, w.(b := b')) == Forward(r, w) - if answered then Carries(w.a.sent[id], r.d) else 0
    ensures Forward(Turned(r), Around(w.(b := b'))) == Forward(Turned(r), Around(w))
  {
    ForwardSame(Turned(r), Around(w), Around(w.(b := b')));
    if answered { ForwardAnswered(r, w, b', id); } else { ForwardSame(r, w, w.(b := b')); }
  }

  lemma JointArrives(r: Route, w: World, n: nat, reply: Reply, delivery: Delivery, b': Chain)
    requires Hashes(SideA(Turned(r))) && r.ea.wrap == r.eb.wrap
    requires SidesFine(r, w) && UnderWay(w.a, Ends(r).atA, w.b, Ends(r).atB, n)
    requires ReceivePacket(r.eb, w.b, w.a.sent[PacketId(Ends(r).atA, n)], reply) == Ok((delivery, b'))
    ensures JointStep(r, w, w.(b := b'), SendsTo(w.a.sent[PacketId(Ends(r).atA, n)], r.eb.lock))
  {
    var id := PacketId(Ends(r).atA, n);
    var p := w.a.sent[id];
    assert Clear(SideA(r), p);
    SideReceives(SideA(Turned(r)), w.b, p, reply, delivery, b');
    JointReceived(r, w, id, b', delivery.Acknowledged?);
  }

  lemma JointDelivery(r: Route, w: World, n: nat, reply: Reply)
    requires Proper(r) && WorldFine(Ends(r), w) && SidesFine(r, w)
    ensures var move := Deliver(true, n, reply); JointStep(r, w, Moved(Ends(r), w, move), JointDirect(r, w, move))
  {
    var k := Ends(r);
    if PacketId(k.atA, n) in w.a.sent {
      var rec := ReceivePacket(r.eb, w.b, w.a.sent[PacketId(k.atA, n)], reply);
      if rec.Ok? {
        ReceivableIsUnderWay(r.eb, w.a, k.atA, w.b, k.atB, n, reply);
        ProperHashes(r);
        JointArrives(r, w, n, reply, rec.value.0, rec.value.1);
      }
    }
  }

  lemma JointRefunded(r: Route, w: World, a': Chain, id: PacketId)
    requires id in w.a.sent && id.at == Ends(r).atA && id !in w.a.timedOut
    requires PacketId(Ends(r).atB, id.sequence) !in w.b.acks
    requires a'.sent == w.a.sent && a'.acks == w.a.acks && a'.timedOut == w.a.timedOut + {id}
    ensures Forward(r, w.(a := a')) == Forward(r, w) - Carries(w.a.sent[id], r.d)
    ensures Forward(Turned(r), Around(w.(a := a'))) == Forward(Turned(r), Around(w))
  {
    ForwardRefunded(r, w, a', id);
    ForwardSame(Turned(r), Around(w), Around(w.(a := a')));
  }

  lemma JointRefund(r: Route, w: World, n: nat, reply: Reply, a': Chain)
    requires SideFine(SideA(r), w.a) && UnderWay(w.a, Ends(r).atA, w.b, Ends(r).atB, n)
    requires TimeoutPacket(r.ea, w.a, w.a.sent[PacketId(Ends(r).atA, n)], reply) == Ok(a')
    ensures SideFine(SideA(r), a') && JointSpare(r, w.(a := a')) == JointSpare(r, w)
  {
    var id := PacketId(Ends(r).atA, n);
    SideRefunds(SideA(r), w.a, w.a.sent[id], reply, a');
    JointRefunded(r, w, a', id);
  }

  lemma JointTimeout(r: Route, w: World, n: nat, reply: Reply)
    requires Proper(r) && WorldFine(Ends(r), w) && SidesFine(r, w)
    ensures JointStep(r, w, Moved(Ends(r), w, ReturnTimeout(true, n, reply)), false)
  {
    var k, w' := Ends(r), Moved(Ends(r), w, ReturnTimeout(true, n, reply));
    if w'.a != w.a {
      TimeoutIs(r.ea, w.a, w.a.sent[PacketId(k.atA, n)], reply);
      SentFits(w.a, k.atA, w.b, k.atB, n);
      RefundableIsUnderWay(w.a, k.atA, w.b, k.atB, n);
      JointRefund(r, w, n, reply, w'.a);
    }
  }

  lemma JointAck(r: Route, w: World, n: nat, reply: Reply)
    requires SidesFine(r, w)
    ensures JointStep(r, w, Moved(Ends(r), w, ReturnAck(true, n, reply)), false)
  {
    var w' := Moved(Ends(r), w, ReturnAck(true, n, reply));
    ForwardSame(r, w, w');
    ForwardSame(Turned(r), Around(w), Around(w'));
  }

  // ---- Every move ----

  /** A move of A, or one that carries a packet of A's or its outcome. */
  ghost predicate OfA(move: Move) { move.AtA? || (!move.AtB? && move.fromA) }

  lemma MoveOfA(r: Route, w: World, move: Move)
    requires Proper(r) && WorldFine(Ends(r), w) && SidesFine(r, w) && JointFair(r, move) && OfA(move)
    ensures JointStep(r, w, Moved(Ends(r), w, move), JointDirect(r, w, move))
  {
    match move
    case AtA(m) => JointLocal(r, w, m);
    case Deliver(_, n, reply) => JointDelivery(r, w, n, reply);
    case ReturnAck(_, n, reply) => JointAck(r, w, n, reply);
    case ReturnTimeout(_, n, reply) => JointTimeout(r, w, n, reply);
  }

  lemma TurnedAround(r: Route, w: World, move: Move)
    ensures Moved(Ends(Turned(r)), Around(w), TurnedMove(move)) == Around(Moved(Ends(r), w, move))
    ensures WorldFine(Ends(r), w) ==> WorldFine(Ends(Turned(r)), Around(w))
    ensures JointFair(r, move) ==> JointFair(Turned(r), TurnedMove(move))
    ensures JointDirect(Turned(r), Around(w), TurnedMove(move)) == JointDirect(r, w, move)
  {
  }

  lemma TurnedStep(r: Route, w: World, w': World, direct: bool)
    ensures SidesFine(r, w) ==> SidesFine(Turned(r), Around(w))
    ensures JointStep(Turned(r), Around(w), Around(w'), direct) ==> JointStep(r, w, w', direct)
  {
  }

  lemma MoveOfB(r: Route, w: World, move: Move)
    requires Proper(r) && WorldFine(Ends(r), w) && SidesFine(r, w) && JointFair(r, move) && !OfA(move)
    ensures JointStep(r, w, Moved(Ends(r), w, move), JointDirect(r, w, move))
  {
    TurnedAround(r, w, move);
    TurnedStep(r, w, Moved(Ends(r), w, move), JointDirect(r, w, move));
    ProperHashes(r);
    MoveOfA(Turned(r), Around(w), TurnedMove(move));
  }

  /** What every move keeps. */
  lemma JointMove(r: Route, w: World, move: Move)
    requires Proper(r) && WorldFine(Ends(r), w) && SidesFine(r, w) && JointFair(r, move)
    ensures WorldFine(Ends(r), Moved(Ends(r), w, move))
    ensures JointStep(r, w, Moved(Ends(r), w, move), JointDirect(r, w, move))
  {
    MoveKeeps(Ends(r), w, move);
    if OfA(move) { MoveOfA(r, w, move); } else { MoveOfB(r, w, move); }
  }

  // ---- Every run ----

  ghost predicate AllJointFair(r: Route, moves: seq<Move>) { forall i :: 0 <= i < |moves| ==> JointFair(r, moves[i]) }

  ghost predicate EverDirect(r: Route, w: World, moves: seq<Move>)
    decreases moves
  {
    moves != [] && (JointDirect(r, w, moves[0]) || EverDirect(r, Moved(Ends(r), w, moves[0]), moves[1..]))
  }

  lemma {:induction false} JointRun(r: Route, w: World, moves: seq<Move>)
    requires Proper(r) && WorldFine(Ends(r), w) && SidesFine(r, w) && AllJointFair(r, moves)
    ensures WorldFine(Ends(r), MovedAll(Ends(r), w, moves))
    ensures JointStep(r, w, MovedAll(Ends(r), w, moves), EverDirect(r, w, moves))
    decreases moves
  {
    if moves != [] {
      JointMove(r, w, moves[0]);
      JointRun(r, Moved(Ends(r), w, moves[0]), moves[1..]);
    }
  }

  ghost predicate NoVouchers(s: Side, c: Chain) {
    && CanonicalLedger(c.ledger) && VouchersFine(s.e, c.vouchers)
    && forall x :: x == Own(s) || Copy(s, x) ==> Supply(c.ledger, x) == 0
  }

  /** A channel just connected, between two chains that both may have `d`. */
  ghost predicate JointStart(r: Route, w: World) {
    && Fine(w.a) && Fine(w.b) && Linked(w.a, Ends(r).atA, w.b, Ends(r).atB)
    && Unused(w.a, Ends(r).atA) && Unused(w.b, Ends(r).atB)
    && w.a.channels[Ends(r).atA].next == 1 == w.b.channels[Ends(r).atB].next
    && NoVouchers(SideA(r), w.a) && NoVouchers(SideA(Turned(r)), w.b)
  }

  lemma UnusedIsAgreed(k: Link, w: World)
    requires Fine(w.a) && Fine(w.b) && Linked(w.a, k.atA, w.b, k.atB) && Unused(w.a, k.atA) && Unused(w.b, k.atB)
    ensures WorldFine(k, w)
  {
    assert Agree(w.a, k.atA, w.b, k.atB) && Agree(w.b, k.atB, w.a, k.atA);
  }

  lemma NothingForward(r: Route, w: World)
    requires Fine(w.a) && Ends(r).atA in w.a.channels && w.a.channels[Ends(r).atA].next == 1
    ensures Forward(r, w) == 0 && AllClear(SideA(r), w.a.sent)
  {
    NothingSent(w.a, Ends(r).atA);
    NothingOutstanding(Ends(r).atA, r.d, GoneOut(r, w), w.a.sent);
  }

  lemma StartsFine(s: Side, c: Chain)
    requires NoVouchers(s, c) && AllClear(s, c.sent)
    ensures SideFine(s, c) && Net(s, c) == Has(c.ledger, s.e.lock, s.d)
  {
    SupplyBounds(c.ledger, Own(s));
  }

  lemma JointStartIsFine(r: Route, w: World)
    requires JointStart(r, w)
    ensures WorldFine(Ends(r), w) && SidesFine(r, w)
    ensures JointSpare(r, w) == Has(w.a.ledger, r.ea.lock, r.d) + Has(w.b.ledger, r.eb.lock, r.d)
  {
    UnusedIsAgreed(Ends(r), w);
    NothingForward(r, w);
    NothingForward(Turned(r), Around(w));
    StartsFine(SideA(r), w.a);
    StartsFine(SideA(Turned(r)), w.b);
  }

  /** From a freshly connected channel on, wherever `d` comes from: the two lock
      accounts together hold `d` for every voucher of it that circulates on either
      chain and for everything under way, either way; exactly so, on top of what
      they began with, unless one of them is paid directly. So the one on A covers
      what A answers for exactly when the one on B holds no more than it began
      with, A's begin and the vouchers on A. */
  lemma JointBacking(r: Route, w: World, moves: seq<Move>)
    requires Proper(r) && JointStart(r, w) && AllJointFair(r, moves)
    ensures var w' := MovedAll(Ends(r), w, moves);
      var held := Has(w.a.ledger, r.ea.lock, r.d) + Has(w.b.ledger, r.eb.lock, r.d);
      var under := Forward(r, w') + Forward(Turned(r), Around(w'));
      var onA, onB := Vouchers(SideA(r), w'.a), Vouchers(SideA(Turned(r)), w'.b);
      var lockA, lockB := Has(w'.a.ledger, r.ea.lock, r.d), Has(w'.b.ledger, r.eb.lock, r.d);
      && lockA + lockB >= held + onA + onB + under
      && (!EverDirect(r, w, moves) ==>
            && lockA + lockB == held + onA + onB + under
            && (lockA >= onB + under <==> lockB <= held + onA))
  {
    JointStartIsFine(r, w);
    JointRun(r, w, moves);
  }
}
