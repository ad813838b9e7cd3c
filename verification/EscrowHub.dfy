/**
 One lock account for many channels: a chain whose denomination `d` travels to any
 number of other chains, each over a channel of its own.
 */
module EscrowHub {
  import opened Bytes
  import opened Bank
  import opened Results
  import opened Ibc
  import opened IbcLaws
  import opened IbcWorld
  import opened Escrow
  import opened EscrowLaws
  import opened EscrowRuns

  /** The chain in the middle and the ones around it. */
  datatype Hub = Hub(a: Chain, spokes: seq<Chain>)

  /** A move over, or at either end of, one of the channels. */
  datatype HubMove = HubMove(spoke: nat, move: Move)

  /** One route each, from different channels of the same chain, for the same `d`. */
  ghost predicate ProperHub(rs: seq<Route>) {
    && (forall i :: 0 <= i < |rs| ==> Proper(rs[i]))
    && (forall i, j :: 0 <= i < |rs| && 0 <= j < |rs| ==> rs[i].ea == rs[j].ea && rs[i].d == rs[j].d)
    && (forall i, j :: 0 <= i < j < |rs| ==> rs[i].ca != rs[j].ca)
  }

  ghost function Pair(h: Hub, i: nat): World
    requires i < |h.spokes|
  {
    World(h.a, h.spokes[i])
  }

  ghost function HubMoved(rs: seq<Route>, h: Hub, m: HubMove): Hub
    requires |rs| == |h.spokes| && m.spoke < |rs|
  {
    var w := Moved(Ends(rs[m.spoke]), Pair(h, m.spoke), m.move);
    Hub(w.a, h.spokes[m.spoke := w.b])
  }

  // ---- What is owed ----

  /** What the lock account answers for on one channel. */
  ghost function Owed(r: Route, w: World): int { Forward(r, w) + Circulating(r, w.b) + Returning(r, w) }

  ghost function OwedList(rs: seq<Route>, h: Hub): (s: seq<int>)
    requires |rs| == |h.spokes|
    ensures |s| == |rs|
  {
    seq(|rs|, i requires 0 <= i < |rs| => Owed(rs[i], Pair(h, i)))
  }

  ghost function Total(s: seq<int>): int { if s == [] then 0 else s[0] + Total(s[1..]) }

  /** On all of them. */
  ghost function AllOwed(rs: seq<Route>, h: Hub): int
    requires |rs| == |h.spokes|
  {
    Total(OwedList(rs, h))
  }

  lemma {:induction false} TotalPut(s: seq<int>, i: nat, x: int)
    requires i < |s|
    ensures Total(s[i := x]) == Total(s) - s[i] + x
  {
    if i == 0 {
      assert s[i := x][1..] == s[1..];
    } else {
      assert s[i := x][1..] == s[1..][i - 1 := x];
      TotalPut(s[1..], i - 1, x);
    }
  }

  lemma {:induction false} TotalCovers(s: seq<int>, i: nat)
    requires forall j :: 0 <= j < |s| ==> s[j] >= 0
    ensures Total(s) >= 0 && (i < |s| ==> s[i] <= Total(s))
  {
    if s != [] { TotalCovers(s[1..], if i == 0 then 0 else i - 1); }
  }

  lemma OwedIsSome(r: Route, w: World)
    requires CanonicalLedger(w.b.ledger)
    ensures Owed(r, w) >= 0
  {
    OutstandingCovers(Ends(r).atA, r.d, GoneOut(r, w), w.a.sent);
    OutstandingCovers(Ends(r).atB, r.d, GoneBack(r, w), w.b.sent);
    SupplyBounds(w.b.ledger, VoucherOf(r));
  }

  // ---- A message of another channel ----

  /** A message that concerns `r`'s chain A but not `r`'s channel. */
  ghost predicate Foreign(r: Route, a: Chain, m: Msg) {
    && Local(m, Ends(r).atA)
    && (m.SendMsg? ==> m.at.port != BANK_PORT)
    && (m.TransferMsg? ==> m.channel != r.ca)
    && (m.PayMsg? ==> m.sender != r.ea.lock)
    && MintsNone(m, VoucherOf(r), r.ea.wrap(r.ca, r.d), r.ea.wrap(r.ca, VoucherOf(r)))
    && (m.ReceiveMsg? && m.packet.dest.port == BANK_PORT ==>
          && m.packet.data.Transfer20?
          && (m.packet.data.denom == r.d ==> Has(a.ledger, r.ea.lock, r.d) > 0))
    && (m.TimeoutMsg? && m.packet.src.port == BANK_PORT ==>
          var id := PacketId(m.packet.src, m.packet.sequence); id in a.sent ==> a.sent[id].data.Transfer20?)
  }

  lemma ForeignTransfer(r: Route, a: Chain, m: Msg, a': Chain)
    requires HomeFine(r, a) && m.TransferMsg? && m.channel != r.ca && Handle(r.ea, a, m) == Ok(a')
    requires NextUnusedAt(a, Endpoint(BANK_PORT, m.channel))
    ensures HomeFine(r, a') && Beside(a, a', Ends(r).atA)
  {
    TransferIs(r.ea, a, m.sender, m.channel, m.to, m.coin, m.timeout, a');
    var at := Endpoint(BANK_PORT, m.channel);
    var id := PacketId(at, a.channels[at].next);
    assert id in a'.sent && a'.sent == a.sent[id := a'.sent[id]];
  }

  ghost predicate NextUnusedAt(a: Chain, at: Endpoint) {
    at in a.channels ==> PacketId(at, a.channels[at].next) !in a.sent
  }

  lemma ForeignArrival(r: Route, a: Chain, p: Packet, reply: Reply, delivery: Delivery, a': Chain)
    requires Proper(r) && HomeFine(r, a) && p.dest != Ends(r).atA && p.dest.port == BANK_PORT && p.data.Transfer20?
    requires p.data.denom == r.d ==> Has(a.ledger, r.ea.lock, r.d) > 0
    requires ReceivePacket(r.ea, a, p, reply) == Ok((delivery, a'))
    ensures HomeFine(r, a') && Beside(a, a', Ends(r).atA)
  {
    ReceiveAtBankIs(r.ea, a, p, reply, delivery, a');
    assert p.dest.channel != r.ca;
  }

  lemma ForeignRefund(r: Route, a: Chain, p: Packet, reply: Reply, a': Chain)
    requires HomeFine(r, a) && p.src != Ends(r).atA && p.src.port == BANK_PORT
    requires PacketId(p.src, p.sequence) in a.sent ==> a.sent[PacketId(p.src, p.sequence)].data.Transfer20?
    requires TimeoutPacket(r.ea, a, p, reply) == Ok(a')
    ensures HomeFine(r, a') && Beside(a, a', Ends(r).atA)
  {
    TimeoutAtBankIs(r.ea, a, p, reply, a');
  }

  /** It leaves A's books for `r` in order and `r`'s packets alone. */
  lemma ForeignKeeps(r: Route, a: Chain, m: Msg, a': Chain)
    requires Proper(r) && HomeFine(r, a) && Fine(a) && Foreign(r, a, m) && Handle(r.ea, a, m) == Ok(a')
    ensures HomeFine(r, a') && Beside(a, a', Ends(r).atA)
  {
    if m.TransferMsg? {
      ForeignTransfer(r, a, m, a');
    } else if m.PayMsg? {
      HomePays(r, a, m, a');
    } else if m.MintMsg? {
      HomeMints(r, a, m, a');
    } else if m.ReceiveMsg? && m.packet.dest.port == BANK_PORT {
      ForeignArrival(r, a, m.packet, m.reply, ReceivePacket(r.ea, a, m.packet, m.reply).value.0, a');
    } else if m.TimeoutMsg? && m.packet.src.port == BANK_PORT {
      ForeignRefund(r, a, m.packet, m.reply, a');
    } else {
      OthersAside(r.ea, a, m, Ends(r).atA, a');
    }
  }

  /** So nothing about `r` has changed but the lock account's balance. */
  lemma ForeignMove(r: Route, w: World, m: Msg)
    requires Proper(r) && WorldFine(Ends(r), w) && HomeFine(r, w.a) && Foreign(r, w.a, m)
    ensures var w' := Moved(Ends(r), w, AtA(m));
      WorldFine(Ends(r), w') && HomeFine(r, w'.a) && w'.b == w.b && Owed(r, w') == Owed(r, w)
  {
    var w' := Moved(Ends(r), w, AtA(m));
    MoveKeeps(Ends(r), w, AtA(m));
    if Handle(r.ea, w.a, m).Ok? {
      ForeignKeeps(r, w.a, m, w'.a);
      ForwardAside(r, w, w'.a);
      ReturningSame(r, w, w');
    }
  }

  // ---- A move of one channel, seen from another ----

  const NOTHING := BlockMsg(0, 0)

  /** What a move over one channel is to its A end: a message. */
  ghost function SeenOnA(k: Link, w: World, move: Move): Msg {
    match move
    case AtA(m) => m
    case Deliver(false, n, reply) =>
      if PacketId(k.atB, n) in w.b.sent then ReceiveMsg(w.b.sent[PacketId(k.atB, n)], reply) else NOTHING
    case ReturnAck(true, n, reply) =>
      var id, jd := PacketId(k.atA, n), PacketId(k.atB, n);
      if id in w.a.sent && jd in w.b.acks && w.b.acks[jd].Some?
      then AcknowledgeMsg(w.a.sent[id], w.b.acks[jd].value, reply) else NOTHING
    case ReturnTimeout(true, n, reply) =>
      var id, jd := PacketId(k.atA, n), PacketId(k.atB, n);
      if id in w.a.sent && jd in w.b.received && w.b.received[jd].timedOut
      then TimeoutMsg(w.a.sent[id], reply) else NOTHING
    case _ => NOTHING
  }

  lemma NothingHappens(e: Env, c: Chain)
    ensures Handled(e, c, NOTHING) == c
  {
    assert c.(height := c.height + 0, time := c.time + 0) == c;
  }

  lemma SeenOnAIs(k: Link, w: World, move: Move)
    ensures Moved(k, w, move).a == Handled(k.ea, w.a, SeenOnA(k, w, move))
  {
    NothingHappens(k.ea, w.a);
  }

  /** What arrives on A over `r`: a transfer, of something that is there if it is `d`. */
  lemma ArrivalIs(r: Route, w: World, n: nat)
    requires WorldFine(Ends(r), w) && Spare(r, w) >= 0 && PacketsPure(w.b.sent, Ends(r).atB, VoucherOf(r), r.eb.lock)
    requires PacketId(Ends(r).atB, n) in w.b.sent && PacketId(Ends(r).atA, n) !in w.a.received
    ensures var p := w.b.sent[PacketId(Ends(r).atB, n)];
      && p.dest == Ends(r).atA && p.data.Transfer20?
      && (p.data.denom == r.d ==> Has(w.a.ledger, r.ea.lock, r.d) > 0)
  {
    SentFits(w.b, Ends(r).atB, w.a, Ends(r).atA, n);
    ReturnIsUnderWay(r, w, n);
    ReturningIsLocked(r, w, n);
    assert PurePacket(w.b.sent[PacketId(Ends(r).atB, n)], VoucherOf(r), r.eb.lock);
  }

  lemma ReceiptIsForeign(q: Route, a: Chain, p: Packet, reply: Reply)
    requires p.dest != Ends(q).atA && p.data.Transfer20?
    requires p.data.denom == q.d ==> Has(a.ledger, q.ea.lock, q.d) > 0
    ensures Foreign(q, a, ReceiveMsg(p, reply))
  {
  }

  lemma ArrivalIsForeign(r: Route, w: World, n: nat, reply: Reply, q: Route)
    requires WorldFine(Ends(r), w) && Spare(r, w) >= 0 && PacketsPure(w.b.sent, Ends(r).atB, VoucherOf(r), r.eb.lock)
    requires q.ea == r.ea && q.d == r.d && q.ca != r.ca
    requires DeliverTo(r.ea, w.b, Ends(r).atB, w.a, n, reply) != w.a
    ensures PacketId(Ends(r).atB, n) in w.b.sent
    ensures Foreign(q, w.a, ReceiveMsg(w.b.sent[PacketId(Ends(r).atB, n)], reply))
  {
    var p := w.b.sent[PacketId(Ends(r).atB, n)];
    SentFits(w.b, Ends(r).atB, w.a, Ends(r).atA, n);
    ReceivingIs(r.ea, w.a, p, reply);
    ArrivalIs(r, w, n);
    ReceiptIsForeign(q, w.a, p, reply);
  }

  /** An outcome of a packet sent over `r`. */
  lemma OutcomeIsForeign(r: Route, w: World, m: Msg, n: nat, q: Route)
    requires Fine(w.a) && Linked(w.a, Ends(r).atA, w.b, Ends(r).atB) && q.ca != r.ca
    requires PacketsPure(w.a.sent, Ends(r).atA, VoucherOf(r), r.ea.lock) && PacketId(Ends(r).atA, n) in w.a.sent
    requires (m.AcknowledgeMsg? || m.TimeoutMsg?) && m.packet == w.a.sent[PacketId(Ends(r).atA, n)]
    ensures Foreign(q, w.a, m)
  {
    SentFits(w.a, Ends(r).atA, w.b, Ends(r).atB, n);
  }

  /** A message of A's own that hands in nothing of `q`'s channel and mints none of
      the denominations `q` stands on. */
  ghost predicate Spares(q: Route, m: Msg) {
    Local(m, Ends(q).atA) && MintsNone(m, VoucherOf(q), q.ea.wrap(q.ca, q.d), q.ea.wrap(q.ca, VoucherOf(q)))
  }

  lemma LocalIsForeign(r: Route, a: Chain, m: Msg, q: Route)
    requires SoleChannel(m, r.ca, r.ea.lock) && Spares(q, m) && q.ea == r.ea && q.ca != r.ca
    ensures Foreign(q, a, m)
  {
  }

  lemma ReturnIsForeign(r: Route, w: World, move: Move, q: Route)
    requires Fine(w.a) && Linked(w.a, Ends(r).atA, w.b, Ends(r).atB) && q.ca != r.ca
    requires PacketsPure(w.a.sent, Ends(r).atA, VoucherOf(r), r.ea.lock)
    requires (move.ReturnAck? || move.ReturnTimeout?) && Moved(Ends(r), w, move).a != w.a
    ensures Foreign(q, w.a, SeenOnA(Ends(r), w, move))
  {
    OutcomeIsForeign(r, w, SeenOnA(Ends(r), w, move), move.sequence, q);
  }

  /** A fair move over one channel is foreign to every other. */
  lemma OthersAreForeign(r: Route, w: World, move: Move, q: Route)
    requires WorldFine(Ends(r), w) && Spare(r, w) >= 0
    requires PacketsPure(w.a.sent, Ends(r).atA, VoucherOf(r), r.ea.lock)
    requires PacketsPure(w.b.sent, Ends(r).atB, VoucherOf(r), r.eb.lock)
    requires Fair(r, move) && q.ea == r.ea && q.d == r.d && q.ca != r.ca && (move.AtA? ==> Spares(q, move.m))
    requires Moved(Ends(r), w, move).a != w.a
    ensures Foreign(q, w.a, SeenOnA(Ends(r), w, move))
  {
    match move
    case AtA(m) => LocalIsForeign(r, w.a, m, q);
    case Deliver(_, n, reply) => ArrivalIsForeign(r, w, n, reply, q);
    case _ => ReturnIsForeign(r, w, move, q);
  }

  /** Another channel's books after a move over this one. */
  lemma OtherKept(r: Route, w: World, move: Move, q: Route, b: Chain)
    requires Backed(r, w) && Fair(r, move) && q.ea == r.ea && q.d == r.d && q.ca != r.ca
    requires move.AtA? ==> Spares(q, move.m)
    requires Proper(q) && WorldFine(Ends(q), World(w.a, b)) && HomeFine(q, w.a)
    ensures var w' := World(Moved(Ends(r), w, move).a, b);
      WorldFine(Ends(q), w') && HomeFine(q, w'.a) && Owed(q, w') == Owed(q, World(w.a, b))
  {
    var a' := Moved(Ends(r), w, move).a;
    if a' != w.a {
      OthersAreForeign(r, w, move, q);
      SeenOnAIs(Ends(r), w, move);
      ForeignMove(q, World(w.a, b), SeenOnA(Ends(r), w, move));
    }
  }

  // ---- The whole hub ----

  ghost predicate ChannelFine(r: Route, w: World) { WorldFine(Ends(r), w) && HomeFine(r, w.a) && AwayFine(r, w.b) }

  /** What the lock account holds of `d` beyond all it answers for. */
  ghost function HubSpare(rs: seq<Route>, h: Hub): int
    requires |rs| == |h.spokes| > 0
  {
    Has(h.a.ledger, rs[0].ea.lock, rs[0].d) - AllOwed(rs, h)
  }

  ghost predicate HubFine(rs: seq<Route>, h: Hub) {
    && |rs| == |h.spokes| > 0 && (forall i :: 0 <= i < |rs| ==> ChannelFine(rs[i], Pair(h, i)))
    && HubSpare(rs, h) >= 0
  }

  /** Fair on its own channel, and at A's end out of the way of the others. */
  ghost predicate HubFair(rs: seq<Route>, m: HubMove) {
    && m.spoke < |rs| && Fair(rs[m.spoke], m.move)
    && (m.move.AtA? ==> forall j :: 0 <= j < |rs| ==> Spares(rs[j], m.move.m))
  }

  /** The lock account covers each channel alone when it covers all. */
  lemma EachIsBacked(rs: seq<Route>, h: Hub, i: nat)
    requires ProperHub(rs) && HubFine(rs, h) && i < |rs|
    ensures Backed(rs[i], Pair(h, i))
  {
    forall j | 0 <= j < |rs| ensures OwedList(rs, h)[j] >= 0 {
      assert ChannelFine(rs[j], Pair(h, j));
      OwedIsSome(rs[j], Pair(h, j));
    }
    TotalCovers(OwedList(rs, h), i);
    assert ChannelFine(rs[i], Pair(h, i));
  }

  lemma OthersKept(rs: seq<Route>, h: Hub, m: HubMove, j: nat)
    requires ProperHub(rs) && HubFine(rs, h) && HubFair(rs, m) && j < |rs| && j != m.spoke
    ensures var h' := HubMoved(rs, h, m);
      ChannelFine(rs[j], Pair(h', j)) && Owed(rs[j], Pair(h', j)) == Owed(rs[j], Pair(h, j))
  {
    EachIsBacked(rs, h, m.spoke);
    assert ChannelFine(rs[j], Pair(h, j));
    assert m.move.AtA? ==> Spares(rs[j], m.move.m);
    OtherKept(rs[m.spoke], Pair(h, m.spoke), m.move, rs[j], h.spokes[j]);
  }

  ghost predicate HubDirect(rs: seq<Route>, h: Hub, m: HubMove)
    requires |rs| == |h.spokes| && m.spoke < |rs|
  {
    Direct(rs[m.spoke], Pair(h, m.spoke), m.move)
  }

  /** One channel's debt changes, the others' do not. */
  lemma OneDebtChanges(rs: seq<Route>, h: Hub, h': Hub, i: nat)
    requires |rs| == |h.spokes| == |h'.spokes| && i < |rs|
    requires forall j :: 0 <= j < |rs| && j != i ==> Owed(rs[j], Pair(h', j)) == Owed(rs[j], Pair(h, j))
    ensures AllOwed(rs, h') == AllOwed(rs, h) - Owed(rs[i], Pair(h, i)) + Owed(rs[i], Pair(h', i))
  {
    assert OwedList(rs, h') == OwedList(rs, h)[i := Owed(rs[i], Pair(h', i))];
    TotalPut(OwedList(rs, h), i, Owed(rs[i], Pair(h', i)));
  }

  lemma AllChannelsKept(rs: seq<Route>, h: Hub, m: HubMove)
    requires ProperHub(rs) && HubFine(rs, h) && HubFair(rs, m)
    ensures var h' := HubMoved(rs, h, m);
      && (forall j :: 0 <= j < |rs| ==> ChannelFine(rs[j], Pair(h', j)))
      && (forall j :: 0 <= j < |rs| && j != m.spoke ==> Owed(rs[j], Pair(h', j)) == Owed(rs[j], Pair(h, j)))
      && Keeps(Spare(rs[m.spoke], Pair(h, m.spoke)), Spare(rs[m.spoke], Pair(h', m.spoke)), HubDirect(rs, h, m))
  {
    var h', i := HubMoved(rs, h, m), m.spoke;
    EachIsBacked(rs, h, i);
    MoveBacked(rs[i], Pair(h, i), m.move);
    assert Pair(h', i) == Moved(Ends(rs[i]), Pair(h, i), m.move);
    forall j | 0 <= j < |rs|
      ensures ChannelFine(rs[j], Pair(h', j))
      ensures j != i ==> Owed(rs[j], Pair(h', j)) == Owed(rs[j], Pair(h, j))
    {
      if j != i { OthersKept(rs, h, m, j); }
    }
  }

  /** The hub's spare amount, from one channel's. */
  lemma SpareBy(rs: seq<Route>, h: Hub, i: nat)
    requires ProperHub(rs) && |rs| == |h.spokes| && i < |rs|
    ensures HubSpare(rs, h) == Spare(rs[i], Pair(h, i)) + Owed(rs[i], Pair(h, i)) - AllOwed(rs, h)
  {
    assert rs[i].ea == rs[0].ea && rs[i].d == rs[0].d;
  }

  /** What every move keeps. */
  lemma HubMoveKeeps(rs: seq<Route>, h: Hub, m: HubMove)
    requires ProperHub(rs) && HubFine(rs, h) && HubFair(rs, m)
    ensures var h' := HubMoved(rs, h, m);
      HubFine(rs, h') && Keeps(HubSpare(rs, h), HubSpare(rs, h'), HubDirect(rs, h, m))
  {
    var h' := HubMoved(rs, h, m);
    AllChannelsKept(rs, h, m);
    OneDebtChanges(rs, h, h', m.spoke);
    SpareBy(rs, h, m.spoke);
    SpareBy(rs, h', m.spoke);
  }

  // ---- Every run ----

  ghost predicate AllHubFair(rs: seq<Route>, ms: seq<HubMove>) { forall i :: 0 <= i < |ms| ==> HubFair(rs, ms[i]) }

  ghost function HubMovedAll(rs: seq<Route>, h: Hub, ms: seq<HubMove>): (h': Hub)
    requires |rs| == |h.spokes| && AllHubFair(rs, ms)
    ensures |h'.spokes| == |rs|
    decreases ms
  {
    if ms == [] then h else HubMovedAll(rs, HubMoved(rs, h, ms[0]), ms[1..])
  }

  /** Somewhere along the run a lock account is paid directly. */
  ghost predicate EverPaid(rs: seq<Route>, h: Hub, ms: seq<HubMove>)
    requires |rs| == |h.spokes| && AllHubFair(rs, ms)
    decreases ms
  {
    ms != [] && (HubDirect(rs, h, ms[0]) || EverPaid(rs, HubMoved(rs, h, ms[0]), ms[1..]))
  }

  lemma {:induction false} HubRun(rs: seq<Route>, h: Hub, ms: seq<HubMove>)
    requires ProperHub(rs) && HubFine(rs, h) && AllHubFair(rs, ms)
    ensures HubFine(rs, HubMovedAll(rs, h, ms))
    ensures Keeps(HubSpare(rs, h), HubSpare(rs, HubMovedAll(rs, h, ms)), EverPaid(rs, h, ms))
    decreases ms
  {
    if ms != [] {
      HubMoveKeeps(rs, h, ms[0]);
      HubRun(rs, HubMoved(rs, h, ms[0]), ms[1..]);
    }
  }

  ghost predicate HubStart(rs: seq<Route>, h: Hub) {
    |rs| == |h.spokes| > 0 && forall i :: 0 <= i < |rs| ==> Start(rs[i], Pair(h, i))
  }

  lemma {:induction false} NothingOwed(s: seq<int>)
    requires forall i :: 0 <= i < |s| ==> s[i] == 0
    ensures Total(s) == 0
  {
    if s != [] { NothingOwed(s[1..]); }
  }

  lemma StartOwesNothing(r: Route, w: World)
    requires Start(r, w)
    ensures ChannelFine(r, w) && Owed(r, w) == 0
  {
    StartIsBacked(r, w);
  }

  lemma HubStartIsFine(rs: seq<Route>, h: Hub)
    requires HubStart(rs, h)
    ensures HubFine(rs, h) && HubSpare(rs, h) == Has(h.a.ledger, rs[0].ea.lock, rs[0].d)
  {
    forall i | 0 <= i < |rs| ensures OwedList(rs, h)[i] == 0 && ChannelFine(rs[i], Pair(h, i)) {
      StartOwesNothing(rs[i], Pair(h, i));
    }
    NothingOwed(OwedList(rs, h));
  }

  /** However many channels share the lock account, and whatever happens on all of
      them in whatever order: it holds `d` for the sum, over the channels, of what is
      under way, what circulates as vouchers and what is on its way back; exactly so,
      on top of what it began with, unless a lock account is paid directly. And so it
      covers each channel alone. */
  lemma HubBacking(rs: seq<Route>, h: Hub, ms: seq<HubMove>)
    requires ProperHub(rs) && HubStart(rs, h) && AllHubFair(rs, ms)
    ensures var h', e, d := HubMovedAll(rs, h, ms), rs[0].ea, rs[0].d;
      && Has(h'.a.ledger, e.lock, d) >= Has(h.a.ledger, e.lock, d) + AllOwed(rs, h')
      && (!EverPaid(rs, h, ms) ==> Has(h'.a.ledger, e.lock, d) == Has(h.a.ledger, e.lock, d) + AllOwed(rs, h'))
      && forall i :: 0 <= i < |rs| ==> Backed(rs[i], Pair(h', i))
  {
    HubStartIsFine(rs, h);
    HubRun(rs, h, ms);
    forall i | 0 <= i < |rs| ensures Backed(rs[i], Pair(HubMovedAll(rs, h, ms), i)) {
      EachIsBacked(rs, HubMovedAll(rs, h, ms), i);
    }
  }

  // ---- Channels that come later ----

  lemma {:induction false} TotalAppend(s: seq<int>, x: int)
    ensures Total(s + [x]) == Total(s) + x
  {
    if s == [] {
      assert s + [x] == [x] && [x][1..] == [];
    } else {
      assert (s + [x])[1..] == s[1..] + [x];
      TotalAppend(s[1..], x);
    }
  }

  lemma JoinedOwes(rs: seq<Route>, h: Hub, r: Route, b: Chain)
    requires |rs| == |h.spokes| && Owed(r, World(h.a, b)) == 0
    ensures AllOwed(rs + [r], Hub(h.a, h.spokes + [b])) == AllOwed(rs, h)
  {
    assert OwedList(rs + [r], Hub(h.a, h.spokes + [b])) == OwedList(rs, h) + [0];
    TotalAppend(OwedList(rs, h), 0);
  }

  lemma JoinedIsFine(rs: seq<Route>, h: Hub, r: Route, b: Chain, i: nat)
    requires |rs| == |h.spokes| && (i < |rs| ==> ChannelFine(rs[i], Pair(h, i))) && i <= |rs|
    requires ChannelFine(r, World(h.a, b))
    ensures ChannelFine((rs + [r])[i], Pair(Hub(h.a, h.spokes + [b]), i))
  {
    assert Pair(Hub(h.a, h.spokes + [b]), i) == if i < |rs| then Pair(h, i) else World(h.a, b);
  }

  lemma AllJoinedFine(rs: seq<Route>, h: Hub, r: Route, b: Chain)
    requires |rs| == |h.spokes| && ChannelFine(r, World(h.a, b))
    requires forall i :: 0 <= i < |rs| ==> ChannelFine(rs[i], Pair(h, i))
    ensures forall i :: 0 <= i < |rs| + 1 ==> ChannelFine((rs + [r])[i], Pair(Hub(h.a, h.spokes + [b]), i))
  {
    forall i | 0 <= i < |rs| + 1 ensures ChannelFine((rs + [r])[i], Pair(Hub(h.a, h.spokes + [b]), i)) {
      JoinedIsFine(rs, h, r, b, i);
    }
  }

  lemma JoinedSpare(rs: seq<Route>, h: Hub, r: Route, b: Chain)
    requires |rs| == |h.spokes| > 0 && Owed(r, World(h.a, b)) == 0
    ensures HubSpare(rs + [r], Hub(h.a, h.spokes + [b])) == HubSpare(rs, h)
  {
    JoinedOwes(rs, h, r, b);
  }

  lemma JoinedHub(rs: seq<Route>, h: Hub, r: Route, b: Chain)
    requires HubFine(rs, h) && ChannelFine(r, World(h.a, b)) && Owed(r, World(h.a, b)) == 0
    ensures var h' := Hub(h.a, h.spokes + [b]);
      HubFine(rs + [r], h') && HubSpare(rs + [r], h') == HubSpare(rs, h)
  {
    JoinedSpare(rs, h, r, b);
    AllJoinedFine(rs, h, r, b);
  }

  /** A channel connected at any later time joins in, owing nothing yet. */
  lemma ChannelJoins(rs: seq<Route>, h: Hub, r: Route, b: Chain)
    requires HubFine(rs, h) && Start(r, World(h.a, b))
    ensures var h' := Hub(h.a, h.spokes + [b]);
      HubFine(rs + [r], h') && HubSpare(rs + [r], h') == HubSpare(rs, h)
  {
    StartOwesNothing(r, World(h.a, b));
    JoinedHub(rs, h, r, b);
  }

  // ---- Hubs exist ----

  /** A chain with `n` transfer channels, each to the first one of another chain. */
  ghost function ManyConnected(n: nat, ledger: Ledger<Addr>): Chain {
    var channels := map i: nat | i < n ::
      Endpoint(BANK_PORT, Channel(i)) := ChannelInfo(1, Endpoint(BANK_PORT, Channel(0)), Unordered, "ics20-1", 0, true);
    Chain(Registry(map[], map[BANK_PORT := n], map[], channels),
          Mail(map[], map[], {}, map[], map[]), Vault(ledger, map[]), 0, 0)
  }

  lemma ManyAreFine(n: nat, ledger: Ledger<Addr>)
    ensures var c := ManyConnected(n, ledger); Fine(c) && forall i: nat :: i < n ==>
      var at := Endpoint(BANK_PORT, Channel(i));
      Unused(c, at) && at in c.channels && c.channels[at].next == 1
      && c.channels[at].remote == Endpoint(BANK_PORT, Channel(0))
  {
  }

  lemma HubOpens(r: Route, n: nat, i: nat, ledger: Ledger<Addr>, amount: nat)
    requires Proper(r) && r.ca == Channel(i) && r.cb == Channel(0) && i < n && CanonicalLedger(ledger)
    requires forall y :: Supply(ledger, y) == if y == r.d then amount else 0
    ensures var none: Ledger<Addr> := map[];
      Start(r, World(ManyConnected(n, ledger), ConnectedChain(Ends(r).atB, Ends(r).atA, none)))
  {
    var none: Ledger<Addr> := map[];
    ManyAreFine(n, ledger);
    ConnectedIsFine(Ends(r).atB, Ends(r).atA, none);
    NoSupply(none);
  }

  lemma CodedHub(n: nat, valid: Addr -> bool, lock: Addr, success: bytes) returns (rs: seq<Route>)
    ensures |rs| == n && ProperHub(rs)
    ensures forall i :: 0 <= i < n ==> rs[i].ca == Channel(i) && rs[i].cb == Channel(0)
  {
    rs := seq(n, i requires 0 <= i < n => CodedRoute(valid, lock, success, Channel(i), Channel(0)));
    forall i | 0 <= i < n ensures Proper(rs[i]) { CodedRouteIsProper(valid, lock, success, Channel(i), Channel(0)); }
  }

  lemma HubFrom(rs: seq<Route>, holder: Addr, amount: nat) returns (h: Hub)
    requires |rs| > 0 && amount > 0 && ProperHub(rs)
    requires forall i :: 0 <= i < |rs| ==> rs[i].ca == Channel(i) && rs[i].cb == Channel(0)
    ensures HubStart(rs, h) && Has(h.a.ledger, holder, rs[0].d) == amount
  {
    var d, none: Ledger<Addr> := rs[0].d, map[];
    var ledger: Ledger<Addr> := map[holder := [Coin(d, amount)]];
    var spokes := seq(|rs|, i requires 0 <= i < |rs| => ConnectedChain(Ends(rs[i]).atB, Ends(rs[i]).atA, none));
    h := Hub(ManyConnected(|rs|, ledger), spokes);
    HoldsOnly(holder, d, amount);
    forall i | 0 <= i < |rs| ensures Start(rs[i], Pair(h, i)) {
      assert rs[i].d == d;
      HubOpens(rs[i], |rs|, i, ledger, amount);
    }
  }

  /** Hubs of any size meet the assumptions, with any amount of `d` to begin with. */
  lemma HubStartsExist(n: nat, holder: Addr, amount: nat, valid: Addr -> bool, lock: Addr, success: bytes)
    requires n > 0 && amount > 0
    ensures exists rs: seq<Route>, h: Hub ::
      |rs| == n && ProperHub(rs) && HubStart(rs, h) && Has(h.a.ledger, holder, rs[0].d) == amount
  {
    var rs := CodedHub(n, valid, lock, success);
    var h := HubFrom(rs, holder, amount);
  }
}
