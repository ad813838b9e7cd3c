/**
 Timeouts on the escrow channel: exactly which late transfers are refunded, and
 a run on which one is not.
 */
module EscrowRefunds {
  import opened Bytes
  import opened Bank
  import opened Results
  import opened Ibc
  import opened IbcLaws
  import opened IbcWorld
  import opened Escrow
  import opened EscrowLaws
  import opened EscrowJoint
  import opened EscrowRuns

  // ---- One end of the channel ----

  ghost function Source(w: World, fromA: bool): Chain { if fromA then w.a else w.b }
  ghost function Target(w: World, fromA: bool): Chain { if fromA then w.b else w.a }
  ghost function SourceEnv(r: Route, fromA: bool): Env { if fromA then r.ea else r.eb }
  ghost function SourceEnd(r: Route, fromA: bool): Endpoint { if fromA then Ends(r).atA else Ends(r).atB }
  ghost function TargetEnd(r: Route, fromA: bool): Endpoint { if fromA then Ends(r).atB else Ends(r).atA }

  /** Packet `n` carries `d`, was received too late, and has not timed out yet. */
  ghost predicate LateWith(r: Route, w: World, fromA: bool, n: nat) {
    var id, jd := PacketId(SourceEnd(r, fromA), n), PacketId(TargetEnd(r, fromA), n);
    && id in Source(w, fromA).sent && Carries(Source(w, fromA).sent[id], r.d) > 0
    && jd in Target(w, fromA).received && Target(w, fromA).received[jd].timedOut
    && id !in Source(w, fromA).timedOut
  }

  ghost function TimeoutOf(r: Route, w: World, fromA: bool, n: nat, reply: Reply): Result<Chain>
    requires PacketId(SourceEnd(r, fromA), n) in Source(w, fromA).sent
  {
    TimeoutPacket(SourceEnv(r, fromA), Source(w, fromA), Source(w, fromA).sent[PacketId(SourceEnd(r, fromA), n)], reply)
  }

  // ---- Exactly which are refunded ----

  /** A late packet carrying `d` is refunded exactly when it left `d`'s own chain,
      to a sender the chain accepts. */
  lemma LateRefundExactly(r: Route, w: World, fromA: bool, n: nat, reply: Reply)
    requires Proper(r) && Backed(r, w) && LateWith(r, w, fromA, n)
    ensures var p := Source(w, fromA).sent[PacketId(SourceEnd(r, fromA), n)];
      TimeoutOf(r, w, fromA, n, reply).Ok? <==> fromA && r.ea.valid(p.data.sender)
  {
    if fromA {
      LateTransfersAreRefunded(r, w, n, reply);
      LateIsUnderWay(r, w, n);
      RefundedExactly(r.ea, w.a, PacketId(Ends(r).atA, n), reply);
    } else {
      LateReturnsAreNotRefunded(r, w, n, reply);
    }
  }

  /** What the sender can check beforehand: the coin is not a voucher of this channel. */
  ghost predicate NotAVoucher(c: Chain, m: Msg)
    requires m.TransferMsg?
  {
    Unwrapped(c, m.coin.denom, m.channel) == m.coin.denom
  }

  ghost function Transferring(fromA: bool, m: Msg): Move { if fromA then AtA(m) else AtB(m) }

  /** The packet a transfer sends, and that it carries `d` from A exactly when its
      coin is not a voucher. */
  lemma TransferCarries(r: Route, w: World, fromA: bool, m: Msg, c': Chain)
    requires Proper(r) && HomeFine(r, w.a) && AwayFine(r, w.b) && m.TransferMsg?
    requires m.channel == SourceEnd(r, fromA).channel
    requires Handle(SourceEnv(r, fromA), Source(w, fromA), m) == Ok(c')
    requires Unwrapped(Source(w, fromA), m.coin.denom, m.channel) == r.d
    ensures var c := Source(w, fromA);
      && SourceEnd(r, fromA) in c.channels
      && var id := PacketId(SourceEnd(r, fromA), c.channels[SourceEnd(r, fromA)].next);
      && id in c'.sent && Carries(c'.sent[id], r.d) == m.coin.amount > 0 && c'.sent[id].data.sender == m.sender
    ensures NotAVoucher(Source(w, fromA), m) <==> fromA
  {
    var c := Source(w, fromA);
    TransferIs(SourceEnv(r, fromA), c, m.sender, m.channel, m.to, m.coin, m.timeout, c');
    HoldersHaveSupply(c.ledger, m.sender, m.coin.denom);
    if fromA { HomeDenom(r, c, m.coin.denom); } else { AwayDenom(r, c, m.coin.denom); }
  }

  /** However the chains and the relayer go on after a transfer of `d` in either
      direction: should its packet be received too late, its timeout refunds the
      sender exactly when the coin was not a voucher of the channel when it was
      sent, and the chain accepts the sender's address. */
  lemma RefundedExactlyWhenNotAVoucher(r: Route, w: World, fromA: bool, m: Msg, moves: seq<Move>, reply: Reply)
    requires Proper(r) && Backed(r, w) && m.TransferMsg? && Fair(r, Transferring(fromA, m)) && AllFair(r, moves)
    requires Handle(SourceEnv(r, fromA), Source(w, fromA), m).Ok?
    requires Unwrapped(Source(w, fromA), m.coin.denom, m.channel) == r.d
    requires SourceEnd(r, fromA) in Source(w, fromA).channels
    requires var w' := MovedAll(Ends(r), Moved(Ends(r), w, Transferring(fromA, m)), moves);
      LateReceived(r, w', fromA, Source(w, fromA).channels[SourceEnd(r, fromA)].next)
    ensures var w' := MovedAll(Ends(r), Moved(Ends(r), w, Transferring(fromA, m)), moves);
      var n := Source(w, fromA).channels[SourceEnd(r, fromA)].next;
      && PacketId(SourceEnd(r, fromA), n) in Source(w', fromA).sent
      && (TimeoutOf(r, w', fromA, n, reply).Ok? <==>
            NotAVoucher(Source(w, fromA), m) && SourceEnv(r, fromA).valid(m.sender))
  {
    var k, n := Ends(r), Source(w, fromA).channels[SourceEnd(r, fromA)].next;
    var w1 := Moved(k, w, Transferring(fromA, m));
    TransferCarries(r, w, fromA, m, Source(w1, fromA));
    MoveBacked(r, w, Transferring(fromA, m));
    RunBacked(r, w1, moves);
    RunEvolves(k, w1, moves);
    LateRefundExactly(r, MovedAll(k, w1, moves), fromA, n, reply);
  }

  /** The other chain has the packet as too late, and it has not timed out here. */
  ghost predicate LateReceived(r: Route, w: World, fromA: bool, n: nat) {
    var id, jd := PacketId(SourceEnd(r, fromA), n), PacketId(TargetEnd(r, fromA), n);
    && jd in Target(w, fromA).received && Target(w, fromA).received[jd].timedOut
    && id !in Source(w, fromA).timedOut
  }

  // ---- A voucher nobody gets back ----

  /** A fair run, as far as it got. */
  ghost predicate Ran(r: Route, w0: World, moves: seq<Move>, w: World) {
    AllFair(r, moves) && w == MovedAll(Ends(r), w0, moves)
  }

  lemma RanOn(r: Route, w0: World, moves: seq<Move>, w: World, move: Move)
    requires Ran(r, w0, moves, w) && Fair(r, move)
    ensures Ran(r, w0, moves + [move], Moved(Ends(r), w, move))
  {
    OneMoreMove(Ends(r), w0, moves, move);
  }

  lemma TransferGoes(e: Env, c: Chain, m: Msg)
    requires CanonicalLedger(c.ledger) && m.TransferMsg? && Endpoint(BANK_PORT, m.channel) in c.channels
    requires m.coin.amount > 0 && Has(c.ledger, m.sender, m.coin.denom) >= m.coin.amount
    ensures Handle(e, c, m).Ok?
  {
    SendOne(c.ledger, m.sender, e.lock, m.coin.denom, m.coin.amount);
    assert m.coin == Coin(m.coin.denom, m.coin.amount);
  }

  const HOLDER: Addr := [1]
  const FRIEND: Addr := [2]
  const LOCK: Addr := [3]
  const SOON := Timeout(Some(100), None)
  const PAST := Timeout(Some(0), None)
  const YES := Reply(true, None, None)

  lemma Opens() returns (r: Route, w: World)
    ensures Proper(r) && Start(r, w) && Backed(r, w)
    ensures r.ca == Channel(0) == r.cb && r.ea.lock == LOCK == r.eb.lock && r.eb.valid(FRIEND)
    ensures Has(w.a.ledger, HOLDER, r.d) == 1 && w.b.received == map[] && w.b.height == 0 && w.b.time == 0
    ensures Ends(r).atA in w.a.channels && w.a.channels[Ends(r).atA].order == Unordered && r.ea.valid(HOLDER)
    ensures w.a == ConnectedChain(Ends(r).atA, Ends(r).atB, w.a.ledger) && CanonicalLedger(w.a.ledger)
    ensures w.b == ConnectedChain(Ends(r).atB, Ends(r).atA, map[])
  {
    r := CodedRoute((_: Addr) => true, LOCK, [1], Channel(0), Channel(0));
    CodedRouteIsProper((_: Addr) => true, LOCK, [1], Channel(0), Channel(0));
    var none: Ledger<Addr> := map[];
    var l: Ledger<Addr> := map[HOLDER := [Coin(r.d, 1)]];
    HoldsOnly(HOLDER, r.d, 1);
    StartFrom(r, HOLDER, 1);
    w := World(ConnectedChain(Ends(r).atA, Ends(r).atB, l), ConnectedChain(Ends(r).atB, Ends(r).atA, none));
    StartIsBacked(r, w);
  }

  lemma OutSent(r: Route, a: Chain, a': Chain, n: nat)
    requires Proper(r) && HomeFine(r, a) && Has(a.ledger, HOLDER, r.d) == 1 && Ends(r).atA in a.channels
    requires Handle(r.ea, a, TransferMsg(HOLDER, r.ca, FRIEND, Coin(r.d, 1), SOON)) == Ok(a')
    requires n == a.channels[Ends(r).atA].next
    ensures Ends(r).atA in a'.channels && a'.channels[Ends(r).atA].order == a.channels[Ends(r).atA].order
    ensures var id := PacketId(Ends(r).atA, n);
      && id in a'.sent && Carries(a'.sent[id], r.d) == 1
      && a'.sent[id].data.receiver == FRIEND && a'.sent[id].timeout == SOON
  {
    TransferIs(r.ea, a, HOLDER, r.ca, FRIEND, Coin(r.d, 1), SOON, a');
    HoldersHaveSupply(a.ledger, HOLDER, r.d);
    HomeDenom(r, a, r.d);
  }

  /** `HOLDER` sends its `d` to `FRIEND` on B. */
  lemma GoesOut(r: Route, w: World) returns (m: Msg, w': World, n: nat)
    requires Proper(r) && HomeFine(r, w.a) && r.ea.lock == LOCK && Has(w.a.ledger, HOLDER, r.d) == 1
    requires Ends(r).atA in w.a.channels
    ensures w' == Moved(Ends(r), w, AtA(m)) && Fair(r, AtA(m)) && w'.b == w.b
    ensures Ends(r).atA in w'.a.channels && w'.a.channels[Ends(r).atA].order == w.a.channels[Ends(r).atA].order
    ensures var id := PacketId(Ends(r).atA, n);
      && id in w'.a.sent && Carries(w'.a.sent[id], r.d) == 1
      && w'.a.sent[id].data.receiver == FRIEND && w'.a.sent[id].timeout == SOON
  {
    m := TransferMsg(HOLDER, r.ca, FRIEND, Coin(r.d, 1), SOON);
    TransferGoes(r.ea, w.a, m);
    n := w.a.channels[Ends(r).atA].next;
    OutSent(r, w.a, Handle(r.ea, w.a, m).value, n);
    w' := Moved(Ends(r), w, AtA(m));
  }

  /** It arrives as a voucher. */
  lemma Arrives(r: Route, w: World, n: nat) returns (w': World)
    requires Proper(r) && AwayFine(r, w.b) && w.b.received == map[] && w.b.height == 0 && w.b.time == 0
    requires UnderWay(w.a, Ends(r).atA, w.b, Ends(r).atB, n) && Ends(r).atB in w.b.channels && r.eb.valid(FRIEND)
    requires var p := w.a.sent[PacketId(Ends(r).atA, n)];
      Carries(p, r.d) == 1 && p.data.receiver == FRIEND && p.timeout == SOON
    ensures w' == Moved(Ends(r), w, Deliver(true, n, YES)) && w'.a == w.a
    ensures Has(w'.b.ledger, FRIEND, VoucherOf(r)) >= 1 && Unwrapped(w'.b, VoucherOf(r), r.cb) == r.d
  {
    VoucherMinted(r, w.b, w.a.sent[PacketId(Ends(r).atA, n)], YES);
    w' := Moved(Ends(r), w, Deliver(true, n, YES));
  }

  /** `FRIEND` sends it home, with a timeout already passed. */
  lemma GoesHome(r: Route, w: World) returns (m: Msg, w': World, n: nat)
    requires CanonicalLedger(w.b.ledger) && r.eb.lock == LOCK && Has(w.b.ledger, FRIEND, VoucherOf(r)) >= 1
    requires Unwrapped(w.b, VoucherOf(r), r.cb) == r.d && Ends(r).atB in w.b.channels
    ensures w' == Moved(Ends(r), w, AtB(m)) && Fair(r, AtB(m)) && w'.a == w.a
    ensures n == w.b.channels[Ends(r).atB].next && w'.b.timedOut == w.b.timedOut
    ensures var id := PacketId(Ends(r).atB, n);
      id in w'.b.sent && Carries(w'.b.sent[id], r.d) == 1 && w'.b.sent[id].timeout == PAST
  {
    m := TransferMsg(FRIEND, r.cb, HOLDER, Coin(VoucherOf(r), 1), PAST);
    TransferGoes(r.eb, w.b, m);
    w' := Moved(Ends(r), w, AtB(m));
    n := w.b.channels[Ends(r).atB].next;
    TransferIs(r.eb, w.b, m.sender, m.channel, m.to, m.coin, m.timeout, w'.b);
  }

  /** The next packet of an end is unknown to both chains. */
  lemma NextIsUnknown(k: Link, w: World, n: nat)
    requires WorldFine(k, w) && n == w.b.channels[k.atB].next
    ensures PacketId(k.atB, n) !in w.b.timedOut && PacketId(k.atA, n) !in w.a.received
  {
    assert AgreeOn(w.b, k.atB, w.a, k.atA, n);
  }

  lemma ArrivesLate(r: Route, w: World, n: nat) returns (w': World)
    requires PacketId(Ends(r).atB, n) in w.b.sent && PacketId(Ends(r).atA, n) !in w.a.received
    requires Ends(r).atA in w.a.channels && w.a.channels[Ends(r).atA].order == Unordered
    requires var p := w.b.sent[PacketId(Ends(r).atB, n)];
      p.dest == Ends(r).atA && p.sequence == n && p.timeout == PAST
    ensures w' == Moved(Ends(r), w, Deliver(false, n, YES)) && w'.b == w.b
    ensures PacketId(Ends(r).atA, n) in w'.a.received && w'.a.received[PacketId(Ends(r).atA, n)].timedOut
  {
    w' := Moved(Ends(r), w, Deliver(false, n, YES));
  }

  /** A fair run after which packet `n` home is late and its timeout refused. */
  ghost predicate Stranded(r: Route, w0: World, moves: seq<Move>, n: nat, reply: Reply) {
    var w := MovedAll(Ends(r), w0, moves);
    && Proper(r) && Start(r, w0) && AllFair(r, moves)
    && LateWith(r, w, false, n) && TimeoutOf(r, w, false, n, reply) == Refused
  }

  /** Out and arrived. */
  lemma OutAndThere() returns (r: Route, w0: World, moves: seq<Move>, w: World)
    ensures Proper(r) && Start(r, w0) && Ran(r, w0, moves, w) && Backed(r, w) && r.eb.lock == LOCK
    ensures Has(w.b.ledger, FRIEND, VoucherOf(r)) >= 1 && Unwrapped(w.b, VoucherOf(r), r.cb) == r.d
    ensures Ends(r).atA in w.a.channels && w.a.channels[Ends(r).atA].order == Unordered
  {
    r, w0 := Opens();
    var out, w1, n := GoesOut(r, w0);
    w := Arrives0(r, w0, out, w1, n);
    RanOn(r, w0, [], w0, AtA(out));
    RanOn(r, w0, [] + [AtA(out)], w1, Deliver(true, n, YES));
    moves := [] + [AtA(out)] + [Deliver(true, n, YES)];
  }

  lemma Arrives0(r: Route, w0: World, out: Msg, w1: World, n: nat) returns (w: World)
    requires Proper(r) && Backed(r, w0) && w1 == Moved(Ends(r), w0, AtA(out)) && Fair(r, AtA(out))
    requires w1.b.received == map[] && w1.b.height == 0 && w1.b.time == 0 && r.eb.valid(FRIEND)
    requires var id := PacketId(Ends(r).atA, n);
      && id in w1.a.sent && Carries(w1.a.sent[id], r.d) == 1
      && w1.a.sent[id].data.receiver == FRIEND && w1.a.sent[id].timeout == SOON
    ensures w == Moved(Ends(r), w1, Deliver(true, n, YES)) && w.a == w1.a && Backed(r, w)
    ensures Has(w.b.ledger, FRIEND, VoucherOf(r)) >= 1 && Unwrapped(w.b, VoucherOf(r), r.cb) == r.d
  {
    MoveBacked(r, w0, AtA(out));
    TransferIsUnderWay(r, w1, n);
    w := Arrives(r, w1, n);
    MoveBacked(r, w1, Deliver(true, n, YES));
  }

  /** And on its way home. */
  lemma OnTheWayHome() returns (r: Route, w0: World, moves: seq<Move>, w: World, n: nat)
    ensures Proper(r) && Start(r, w0) && Ran(r, w0, moves, w) && Backed(r, w)
    ensures PacketId(Ends(r).atA, n) !in w.a.received && PacketId(Ends(r).atB, n) !in w.b.timedOut
    ensures Ends(r).atA in w.a.channels && w.a.channels[Ends(r).atA].order == Unordered
    ensures var id := PacketId(Ends(r).atB, n);
      id in w.b.sent && Carries(w.b.sent[id], r.d) == 1 && w.b.sent[id].timeout == PAST
  {
    var before, w1, m;
    r, w0, before, w1 := OutAndThere();
    m, w, n := GoesHome(r, w1);
    NextIsUnknown(Ends(r), w1, n);
    MoveBacked(r, w1, AtB(m));
    RanOn(r, w0, before, w1, AtB(m));
    moves := before + [AtB(m)];
  }

  lemma LateAtLast(r: Route, w: World, n: nat, reply: Reply) returns (w': World)
    requires Proper(r) && Backed(r, w)
    requires PacketId(Ends(r).atA, n) !in w.a.received && PacketId(Ends(r).atB, n) !in w.b.timedOut
    requires Ends(r).atA in w.a.channels && w.a.channels[Ends(r).atA].order == Unordered
    requires var id := PacketId(Ends(r).atB, n);
      id in w.b.sent && Carries(w.b.sent[id], r.d) == 1 && w.b.sent[id].timeout == PAST
    ensures w' == Moved(Ends(r), w, Deliver(false, n, YES))
    ensures LateWith(r, w', false, n) && TimeoutOf(r, w', false, n, reply) == Refused
  {
    SentFits(w.b, Ends(r).atB, w.a, Ends(r).atA, n);
    w' := ArrivesLate(r, w, n);
    MoveBacked(r, w, Deliver(false, n, YES));
    LateReturnsAreNotRefunded(r, w', n, reply);
  }

  lemma IsStranded(r: Route, w0: World, moves: seq<Move>, w: World, n: nat, reply: Reply)
    requires Proper(r) && Start(r, w0) && Ran(r, w0, moves, w)
    requires LateWith(r, w, false, n) && TimeoutOf(r, w, false, n, reply) == Refused
    ensures Stranded(r, w0, moves, n, reply)
  {
  }

  lemma StrandsAVoucher(reply: Reply) returns (r: Route, w0: World, moves: seq<Move>, n: nat)
    ensures Stranded(r, w0, moves, n, reply)
  {
    var before, w;
    r, w0, before, w, n := OnTheWayHome();
    var w' := LateAtLast(r, w, n, reply);
    RanOn(r, w0, before, w, Deliver(false, n, YES));
    moves := before + [Deliver(false, n, YES)];
    IsStranded(r, w0, moves, w', n, reply);
  }

  /** It happens: one of `d` goes to B, its voucher comes home too late, and
      nobody can be refunded. */
  lemma AVoucherCanBeStranded(reply: Reply)
    ensures exists r, w0, moves, n :: Stranded(r, w0, moves, n, reply)
  {
    var r, w0, moves, n := StrandsAVoucher(reply);
  }

  // ---- When both chains have `d` ----

  /** A fair run from a channel between two chains that both have `d`, after which
      packet `n` from A carries `d`, is late and unsettled, names a valid sender who
      sent no voucher, and is refused nevertheless. */
  ghost predicate Outspent(r: Route, w0: World, m: Msg, moves: seq<Move>, n: nat, reply: Reply) {
    var w := MovedAll(Ends(r), w0, [AtA(m)] + moves);
    && Proper(r) && JointStart(r, w0) && AllJointFair(r, [AtA(m)] + moves)
    && m.TransferMsg? && m.channel == r.ca && NotAVoucher(w0.a, m) && r.ea.valid(m.sender)
    && LateWith(r, w, true, n) && PacketId(Ends(r).atA, n) !in w.a.acked
    && w.a.sent[PacketId(Ends(r).atA, n)].data.sender == m.sender
    && TimeoutOf(r, w, true, n, reply) == Refused
  }

  /** Sends one `d` of its own. */
  lemma SendsNative(e: Env, c: Chain, at: Endpoint, sender: Addr, to: Addr, d: Denom, timeout: Timeout)
    returns (c': Chain)
    requires CanonicalLedger(c.ledger) && at.port == BANK_PORT && at in c.channels && d !in c.vouchers
    requires Has(c.ledger, sender, d) >= 1
    ensures Handle(e, c, TransferMsg(sender, at.channel, to, Coin(d, 1), timeout)) == Ok(c')
    ensures MovedOne(c.ledger, c'.ledger, sender, e.lock, d, 1)
    ensures c'.acked == c.acked && c'.timedOut == c.timedOut && c'.received == c.received
    ensures c'.height == c.height && c'.time == c.time
    ensures at in c'.channels && c'.channels[at].order == c.channels[at].order
    ensures c'.sent == c.sent[PacketId(at, c.channels[at].next) :=
      Packet(Transfer20(d, 1, sender, to), at, c.channels[at].remote, c.channels[at].next, timeout)]
  {
    var m := TransferMsg(sender, at.channel, to, Coin(d, 1), timeout);
    TransferGoes(e, c, m);
    c' := Handle(e, c, m).value;
    TransferIs(e, c, sender, at.channel, to, Coin(d, 1), timeout, c');
  }

  /** One `d` on either chain, and a channel between them. */
  lemma BothOpen() returns (r: Route, w: World)
    ensures Proper(r) && JointStart(r, w) && r.ea.lock == LOCK == r.eb.lock && r.ea.valid(HOLDER)
    ensures Has(w.a.ledger, HOLDER, r.d) == 1 && Has(w.a.ledger, LOCK, r.d) == 0 && Has(w.b.ledger, FRIEND, r.d) == 1
    ensures w.a == ConnectedChain(Ends(r).atA, Ends(r).atB, w.a.ledger)
    ensures w.b == ConnectedChain(Ends(r).atB, Ends(r).atA, w.b.ledger)
  {
    r := CodedRoute((_: Addr) => true, LOCK, [1], Channel(0), Channel(0));
    CodedRouteIsProper((_: Addr) => true, LOCK, [1], Channel(0), Channel(0));
    var la: Ledger<Addr>, lb: Ledger<Addr> := map[HOLDER := [Coin(r.d, 1)]], map[FRIEND := [Coin(r.d, 1)]];
    HoldsOnly(HOLDER, r.d, 1);
    HoldsOnly(FRIEND, r.d, 1);
    ConnectedIsFine(Ends(r).atA, Ends(r).atB, la);
    ConnectedIsFine(Ends(r).atB, Ends(r).atA, lb);
    w := World(ConnectedChain(Ends(r).atA, Ends(r).atB, la), ConnectedChain(Ends(r).atB, Ends(r).atA, lb));
  }

  /** B's own `d` arrives on A and is paid out of A's lock account. */
  lemma TakesFromLock(e: Env, a: Chain, p: Packet) returns (a': Chain)
    requires CanonicalLedger(a.ledger) && p.dest.port == BANK_PORT && p.dest in a.channels
    requires PacketId(p.dest, p.sequence) !in a.received && !HasPassed(p.timeout, a.height, a.time)
    requires p.data.Transfer20? && p.data.amount == 1 == Has(a.ledger, e.lock, p.data.denom)
    requires e.valid(p.data.receiver) && p.data.receiver != e.lock
    ensures ReceivePacket(e, a, p, YES).Ok? && a' == ReceivePacket(e, a, p, YES).value.1
    ensures Has(a'.ledger, e.lock, p.data.denom) == 0 && CanonicalLedger(a'.ledger)
    ensures a'.sent == a.sent && a'.timedOut == a.timedOut && a'.acked == a.acked && a'.channels == a.channels
  {
    LandsOnA(e, a, p, YES);
    a' := ReceivePacket(e, a, p, YES).value.1;
    ReceiveAtBankIs(e, a, p, YES, ReceivePacket(e, a, p, YES).value.0, a');
    DeliveryIs(e, a, p, YES);
  }

  lemma ThreeMore(k: Link, w: World, m: Move, m1: Move, m2: Move, m3: Move)
    ensures MovedAll(k, w, [m] + [m1, m2, m3]) == Moved(k, Moved(k, Moved(k, Moved(k, w, m), m1), m2), m3)
  {
    OneMoreMove(k, w, [], m);
    OneMoreMove(k, w, [m], m1);
    OneMoreMove(k, w, [m, m1], m2);
    OneMoreMove(k, w, [m, m1, m2], m3);
    assert [] + [m] == [m] && [m] + [m1] == [m, m1] && [m, m1] + [m2] == [m, m1, m2];
    assert [m, m1, m2] + [m3] == [m] + [m1, m2, m3];
  }

  /** One `d` leaves A, and one leaves B. */
  lemma BothLeave() returns (r: Route, w0: World, m: Msg, m1: Msg, w: World)
    ensures Proper(r) && JointStart(r, w0) && JointFair(r, AtA(m)) && JointFair(r, AtB(m1))
    ensures m.TransferMsg? && m.channel == r.ca && NotAVoucher(w0.a, m) && m.sender == HOLDER && r.ea.valid(HOLDER)
    ensures w == Moved(Ends(r), Moved(Ends(r), w0, AtA(m)), AtB(m1)) && r.ea.lock == LOCK
    ensures CanonicalLedger(w.a.ledger) && Has(w.a.ledger, LOCK, r.d) == 1
    ensures Ends(r).atA in w.a.channels && w.a.acked == map[] && w.a.timedOut == {} && w.a.received == map[]
    ensures w.a.height == 0 && w.a.time == 0
    ensures var id := PacketId(Ends(r).atA, 1);
      id in w.a.sent && w.a.sent[id] == Packet(Transfer20(r.d, 1, HOLDER, FRIEND), Ends(r).atA, Ends(r).atB, 1, PAST)
    ensures var jd := PacketId(Ends(r).atB, 1);
      jd in w.b.sent && w.b.sent[jd] == Packet(Transfer20(r.d, 1, FRIEND, HOLDER), Ends(r).atB, Ends(r).atA, 1, SOON)
    ensures Ends(r).atB in w.b.channels && w.b.channels[Ends(r).atB].order == Unordered && w.b.received == map[]
  {
    r, w0 := BothOpen();
    m := TransferMsg(HOLDER, r.ca, FRIEND, Coin(r.d, 1), PAST);
    m1 := TransferMsg(FRIEND, r.cb, HOLDER, Coin(r.d, 1), SOON);
    var a := SendsNative(r.ea, w0.a, Ends(r).atA, HOLDER, FRIEND, r.d, PAST);
    var b := SendsNative(r.eb, w0.b, Ends(r).atB, FRIEND, HOLDER, r.d, SOON);
    w := World(a, b);
    TwoLocals(r, w0, m, m1, a, b);
  }

  lemma TwoLocals(r: Route, w: World, m: Msg, m1: Msg, a: Chain, b: Chain)
    requires Handle(r.ea, w.a, m) == Ok(a) && Handle(r.eb, w.b, m1) == Ok(b)
    ensures Moved(Ends(r), Moved(Ends(r), w, AtA(m)), AtB(m1)) == World(a, b)
  {
  }

  /** B's comes in and is paid out of A's lock account. */
  lemma ComesIn(r: Route, w: World) returns (w': World)
    requires CanonicalLedger(w.a.ledger) && Has(w.a.ledger, r.ea.lock, r.d) == 1 && r.ea.lock == LOCK
    requires r.ea.valid(HOLDER) && Ends(r).atA in w.a.channels && w.a.received == map[]
    requires w.a.height == 0 && w.a.time == 0
    requires var jd := PacketId(Ends(r).atB, 1);
      jd in w.b.sent && w.b.sent[jd] == Packet(Transfer20(r.d, 1, FRIEND, HOLDER), Ends(r).atB, Ends(r).atA, 1, SOON)
    ensures w' == Moved(Ends(r), w, Deliver(false, 1, YES)) && w'.b == w.b
    ensures CanonicalLedger(w'.a.ledger) && Has(w'.a.ledger, r.ea.lock, r.d) == 0
    ensures w'.a.sent == w.a.sent && w'.a.timedOut == w.a.timedOut && w'.a.acked == w.a.acked
    ensures w'.a.channels == w.a.channels
  {
    var a := TakesFromLock(r.ea, w.a, w.b.sent[PacketId(Ends(r).atB, 1)]);
    w' := World(a, w.b);
  }

  /** The packet that is too late, with nothing left in the lock account. */
  lemma RefusedAtLast(r: Route, w: World, reply: Reply)
    requires CanonicalLedger(w.a.ledger) && Has(w.a.ledger, r.ea.lock, r.d) == 0
    requires Ends(r).atA in w.a.channels && w.a.acked == map[] && w.a.timedOut == {}
    requires var id := PacketId(Ends(r).atA, 1);
      id in w.a.sent && w.a.sent[id] == Packet(Transfer20(r.d, 1, HOLDER, FRIEND), Ends(r).atA, Ends(r).atB, 1, PAST)
    requires var jd := PacketId(Ends(r).atB, 1); jd in w.b.received && w.b.received[jd].timedOut
    ensures LateWith(r, w, true, 1) && TimeoutOf(r, w, true, 1, reply) == Refused
  {
    RefundedExactly(r.ea, w.a, PacketId(Ends(r).atA, 1), reply);
  }

  /** The whole run. */
  lemma OutspentRun(r: Route, m: Msg, m1: Msg, back: Move, late: Move) returns (moves: seq<Move>)
    requires JointFair(r, AtA(m)) && JointFair(r, AtB(m1)) && Relaying(back) && Relaying(late)
    ensures moves == [AtB(m1), back, late] && AllJointFair(r, [AtA(m)] + moves)
  {
    moves := [AtB(m1), back, late];
    assert JointFair(r, back) && JointFair(r, late);
  }

  lemma Outspends(reply: Reply) returns (r: Route, w0: World, m: Msg, moves: seq<Move>)
    ensures Outspent(r, w0, m, moves, 1, reply)
  {
    var m1, w2;
    r, w0, m, m1, w2 := BothLeave();
    var w := ComesIn(r, w2);
    var back, late := Deliver(false, 1, YES), Deliver(true, 1, YES);
    moves := OutspentRun(r, m, m1, back, late);
    ThreeMore(Ends(r), w0, AtA(m), AtB(m1), back, late);
    TurnedAround(r, w, late);
    var w' := ArrivesLate(Turned(r), Around(w), 1);
    RefusedAtLast(r, Around(w'), reply);
  }

  /** With `d` on both chains the refund of a native coin can fail: another chain's
      own `d`, coming in, has been paid out of the lock account. */
  lemma ANativeCoinCanBeStranded(reply: Reply)
    ensures exists r, w0, m, moves, n :: Outspent(r, w0, m, moves, n, reply)
  {
    var r, w0, m, moves := Outspends(reply);
  }

  // ---- Late by the clock ----

  const BY_CLOCK := Timeout(None, Some(100))

  /** A fair run after which packet `n`, with a timestamp for its only bound, is late and
      is refunded to its sender; before the other chain's clock reached the bound the
      same packet would have been acknowledged. */
  ghost predicate LateByTheClock(r: Route, w0: World, before: seq<Move>, tick: Move, n: nat, reply: Reply) {
    var w1, w := MovedAll(Ends(r), w0, before), MovedAll(Ends(r), w0, before + [tick, Deliver(true, n, YES)]);
    var id := PacketId(Ends(r).atA, n);
    && Proper(r) && Start(r, w0) && AllFair(r, before + [tick, Deliver(true, n, YES)])
    && id in w1.a.sent && w1.a.sent[id].timeout == BY_CLOCK && tick == AtB(BlockMsg(1, 200))
    && ReceivePacket(r.eb, w1.b, w1.a.sent[id], YES).Ok?
    && ReceivePacket(r.eb, w1.b, w1.a.sent[id], YES).value.0 == Acknowledged(Some(r.eb.success))
    && LateWith(r, w, true, n) && TimeoutOf(r, w, true, n, reply).Ok?
    && MovedOne(w.a.ledger, TimeoutOf(r, w, true, n, reply).value.ledger, r.ea.lock, HOLDER, r.d, 1)
  }

  /** `HOLDER`'s one `d` on its way to `FRIEND`, and the other chain as it was. */
  ghost predicate ClockSent(r: Route, w: World) {
    var id := PacketId(Ends(r).atA, 1);
    && id in w.a.sent && id !in w.a.timedOut && w.b == ConnectedChain(Ends(r).atB, Ends(r).atA, map[])
    && w.a.sent[id] == Packet(Transfer20(r.d, 1, HOLDER, FRIEND), Ends(r).atA, Ends(r).atB, 1, BY_CLOCK)
  }

  lemma SendingIsFair(r: Route, m: Msg)
    requires m.TransferMsg? && m.channel == r.ca && m.sender != r.ea.lock
    ensures Fair(r, AtA(m))
  {
  }

  lemma ClockSendsFrom(r: Route, a: Chain, m: Msg) returns (a': Chain)
    requires a == ConnectedChain(Ends(r).atA, Ends(r).atB, a.ledger) && CanonicalLedger(a.ledger)
    requires Has(a.ledger, HOLDER, r.d) == 1 && m == TransferMsg(HOLDER, r.ca, FRIEND, Coin(r.d, 1), BY_CLOCK)
    ensures Handle(r.ea, a, m) == Ok(a')
    ensures ClockSent(r, World(a', ConnectedChain(Ends(r).atB, Ends(r).atA, map[])))
  {
    a' := SendsNative(r.ea, a, Ends(r).atA, HOLDER, FRIEND, r.d, BY_CLOCK);
  }

  lemma ClockSends() returns (r: Route, w0: World, m: Msg, w: World)
    ensures Proper(r) && Start(r, w0) && Backed(r, w0) && Fair(r, AtA(m)) && w == Moved(Ends(r), w0, AtA(m))
    ensures r.eb.valid(FRIEND) && r.ea.valid(HOLDER) && ClockSent(r, w)
  {
    r, w0 := Opens();
    m := TransferMsg(HOLDER, r.ca, FRIEND, Coin(r.d, 1), BY_CLOCK);
    SendingIsFair(r, m);
    var a := ClockSendsFrom(r, w0.a, m);
    w := World(a, w0.b);
  }

  /** In time it is answered. */
  lemma ClockArrival(r: Route, w: World)
    requires Proper(r) && Backed(r, w) && r.eb.valid(FRIEND) && ClockSent(r, w)
    ensures var got := ReceivePacket(r.eb, w.b, w.a.sent[PacketId(Ends(r).atA, 1)], YES);
      got.Ok? && got.value.0 == Acknowledged(Some(r.eb.success))
  {
    SupplyBounds(w.b.ledger, r.d);
    MintsOnB(r.eb, w.b, w.a.sent[PacketId(Ends(r).atA, 1)], YES);
  }

  /** The clock moves on, and the packet comes too late. */
  lemma ClockPasses(r: Route, w: World, tick: Move) returns (w': World)
    requires tick == AtB(BlockMsg(1, 200)) && ClockSent(r, w)
    ensures w' == Moved(Ends(r), Moved(Ends(r), w, tick), Deliver(true, 1, YES)) && w'.a == w.a
    ensures var jd := PacketId(Ends(r).atB, 1); jd in w'.b.received && w'.b.received[jd].timedOut
  {
    w' := Moved(Ends(r), Moved(Ends(r), w, tick), Deliver(true, 1, YES));
  }

  lemma ClockRefund(r: Route, w: World, reply: Reply)
    requires Proper(r) && Backed(r, w) && r.ea.valid(HOLDER)
    requires var id := PacketId(Ends(r).atA, 1);
      && id in w.a.sent && id !in w.a.timedOut
      && w.a.sent[id] == Packet(Transfer20(r.d, 1, HOLDER, FRIEND), Ends(r).atA, Ends(r).atB, 1, BY_CLOCK)
    requires var jd := PacketId(Ends(r).atB, 1); jd in w.b.received && w.b.received[jd].timedOut
    ensures LateWith(r, w, true, 1) && TimeoutOf(r, w, true, 1, reply).Ok?
    ensures MovedOne(w.a.ledger, TimeoutOf(r, w, true, 1, reply).value.ledger, r.ea.lock, HOLDER, r.d, 1)
  {
    LateTransfersAreRefunded(r, w, 1, reply);
  }

  lemma TwoMore(k: Link, w: World, m: Move, m1: Move, m2: Move)
    ensures MovedAll(k, w, [m]) == Moved(k, w, m)
    ensures MovedAll(k, w, [m] + [m1, m2]) == Moved(k, Moved(k, Moved(k, w, m), m1), m2)
  {
    OneMoreMove(k, w, [], m);
    OneMoreMove(k, w, [m], m1);
    OneMoreMove(k, w, [m, m1], m2);
    assert [] + [m] == [m] && [m] + [m1] == [m, m1] && [m, m1] + [m2] == [m] + [m1, m2];
  }

  lemma ClockRun(r: Route, m: Msg, tick: Move)
    requires Fair(r, AtA(m)) && tick == AtB(BlockMsg(1, 200))
    ensures AllFair(r, [AtA(m)] + [tick, Deliver(true, 1, YES)])
  {
    assert Fair(r, tick) && Fair(r, Deliver(true, 1, YES));
  }

  lemma RunsOutOfTime(reply: Reply) returns (r: Route, w0: World, before: seq<Move>, tick: Move)
    ensures LateByTheClock(r, w0, before, tick, 1, reply)
  {
    var m, w1;
    r, w0, m, w1 := ClockSends();
    tick, before := AtB(BlockMsg(1, 200)), [AtA(m)];
    var late := Deliver(true, 1, YES);
    ClockRun(r, m, tick);
    TwoMore(Ends(r), w0, AtA(m), tick, late);
    MoveBacked(r, w0, AtA(m));
    ClockArrival(r, w1);
    var w := ClockPasses(r, w1, tick);
    RunBacked(r, w0, before + [tick, late]);
    ClockRefund(r, w, reply);
  }

  /** A timestamp alone is enough to be late, and late is refunded. */
  lemma TheClockAloneIsEnough(reply: Reply)
    ensures exists r, w0, before, tick, n :: LateByTheClock(r, w0, before, tick, n, reply)
  {
    var r, w0, before, tick := RunsOutOfTime(reply);
  }
}
