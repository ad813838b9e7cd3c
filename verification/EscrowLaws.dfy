/**
 What each message does to the escrow of one denomination: the invariant of
 either chain, the amount under way, and the step lemmas the runs are built from.
 */
module EscrowLaws {
  import opened Bytes
  import opened Bank
  import opened Results
  import opened Ibc
  import opened IbcLaws
  import opened IbcWorld
  import opened Escrow

  // ---- The invariant ----

  ghost predicate VouchersFine(e: Env, m: map<Denom, Voucher>) {
    forall x :: x in m ==> x == e.wrap(m[x].channel, m[x].original)
  }

  ghost predicate PurePacket(p: Packet, v: Denom, lock: Addr) {
    p.data.Transfer20? && p.data.amount > 0 && p.data.denom != v && p.data.sender != lock
  }

  /** Transfers of something, by somebody, and never of `d`'s voucher by name. */
  ghost predicate PacketsPure(sent: map<PacketId, Packet>, at: Endpoint, v: Denom, lock: Addr) {
    forall id :: id in sent && id.at == at ==> PurePacket(sent[id], v, lock)
  }

  ghost predicate Absent(l: Ledger<Addr>, x: Denom, y: Denom, z: Denom) {
    Supply(l, x) == 0 && Supply(l, y) == 0 && Supply(l, z) == 0
  }

  /** On A there are no vouchers of `d`, in either disguise. */
  ghost predicate HomeFine(r: Route, a: Chain) {
    && CanonicalLedger(a.ledger) && VouchersFine(r.ea, a.vouchers)
    && Absent(a.ledger, VoucherOf(r), r.ea.wrap(r.ca, r.d), r.ea.wrap(r.ca, VoucherOf(r)))
    && PacketsPure(a.sent, Ends(r).atA, VoucherOf(r), r.ea.lock)
  }

  /** On B `d` itself does not exist, and its voucher is known as such. */
  ghost predicate AwayFine(r: Route, b: Chain) {
    && CanonicalLedger(b.ledger) && VouchersFine(r.eb, b.vouchers)
    && Supply(b.ledger, r.d) == 0 && Supply(b.ledger, r.eb.wrap(r.cb, VoucherOf(r))) == 0
    && (Supply(b.ledger, VoucherOf(r)) > 0 ==> VoucherOf(r) in b.vouchers)
    && PacketsPure(b.sent, Ends(r).atB, VoucherOf(r), r.eb.lock)
  }

  /** Packets from A neither answered in time nor refunded. */
  ghost function GoneOut(r: Route, w: World): set<PacketId> {
    Answered(w.a, Ends(r).atA, w.b, Ends(r).atB) + w.a.timedOut
  }

  ghost function GoneBack(r: Route, w: World): set<PacketId> { Answered(w.b, Ends(r).atB, w.a, Ends(r).atA) }

  ghost function Forward(r: Route, w: World): int { Outstanding(Ends(r).atA, r.d, GoneOut(r, w), w.a.sent) }

  ghost function Returning(r: Route, w: World): int { Outstanding(Ends(r).atB, r.d, GoneBack(r, w), w.b.sent) }

  /** Vouchers on B that are not locked there themselves. */
  ghost function Circulating(r: Route, b: Chain): int {
    Supply(b.ledger, VoucherOf(r)) - Has(b.ledger, r.eb.lock, VoucherOf(r))
  }

  /** What the lock account on A holds of `d` beyond what it answers for. */
  ghost function Spare(r: Route, w: World): int {
    Has(w.a.ledger, r.ea.lock, r.d) - Forward(r, w) - Circulating(r, w.b) - Returning(r, w)
  }

  ghost predicate Backed(r: Route, w: World) {
    WorldFine(Ends(r), w) && HomeFine(r, w.a) && AwayFine(r, w.b) && Spare(r, w) >= 0
  }

  // ---- The moves ----

  /** Nothing is sent or received on a transfer port but through this channel. */
  ghost predicate SoleChannel(m: Msg, channel: ChannelId, lock: Addr) {
    && (m.SendMsg? ==> m.at.port != BANK_PORT)
    && (m.ReceiveMsg? ==> m.packet.dest.port != BANK_PORT)
    && (m.TimeoutMsg? ==> m.packet.src.port != BANK_PORT)
    && (m.TransferMsg? ==> m.channel == channel && m.sender != lock)
    && (m.PayMsg? ==> m.sender != lock)
  }

  ghost predicate MintsNone(m: Msg, x: Denom, y: Denom, z: Denom) {
    m.MintMsg? ==> Amount(m.coins, x) == 0 && Amount(m.coins, y) == 0 && Amount(m.coins, z) == 0
  }

  /** Otherwise both chains and the relayer do as they like; vouchers are minted
      by transfers only, and `d` on A only. */
  ghost predicate Fair(r: Route, move: Move) {
    && Honest(Ends(r), move)
    && (move.AtA? ==> SoleChannel(move.m, r.ca, r.ea.lock)
                      && MintsNone(move.m, VoucherOf(r), r.ea.wrap(r.ca, r.d), r.ea.wrap(r.ca, VoucherOf(r))))
    && (move.AtB? ==> SoleChannel(move.m, r.cb, r.eb.lock)
                      && MintsNone(move.m, r.d, VoucherOf(r), r.eb.wrap(r.cb, VoucherOf(r))))
  }

  /** Payments into the lock accounts that are not transfers. */
  ghost predicate Direct(r: Route, w: World, move: Move) {
    match move
    case AtA(m) => (m.PayMsg? && m.to == r.ea.lock) || (m.MintMsg? && m.to == r.ea.lock)
    case AtB(m) => m.PayMsg? && m.to == r.eb.lock
    case Deliver(fromA, n, _) =>
      if fromA then PacketId(Ends(r).atA, n) in w.a.sent && SendsTo(w.a.sent[PacketId(Ends(r).atA, n)], r.eb.lock)
      else PacketId(Ends(r).atB, n) in w.b.sent && SendsTo(w.b.sent[PacketId(Ends(r).atB, n)], r.ea.lock)
    case _ => false
  }

  ghost predicate SendsTo(p: Packet, lock: Addr) { p.data.Transfer20? && p.data.receiver == lock }

  /** How one step leaves the spare amount. */
  ghost predicate Keeps(spare: int, spare': int, direct: bool) { spare' >= spare && (!direct ==> spare' == spare) }

  // ---- Transfers ----

  lemma HoldersHaveSupply(l: Ledger<Addr>, k: Addr, x: Denom)
    requires Has(l, k, x) > 0
    ensures Supply(l, x) > 0
  {
    SupplyBounds(l, x);
  }

  /** On A only `d` itself is sent as `d`, and nothing as its voucher. */
  lemma HomeDenom(r: Route, a: Chain, x: Denom)
    requires Proper(r) && HomeFine(r, a) && Supply(a.ledger, x) > 0
    ensures Unwrapped(a, x, r.ca) == r.d <==> x == r.d
    ensures Unwrapped(a, x, r.ca) != VoucherOf(r)
  {
  }

  /** On B exactly the voucher is sent as `d`. */
  lemma AwayDenom(r: Route, b: Chain, x: Denom)
    requires Proper(r) && AwayFine(r, b) && Supply(b.ledger, x) > 0
    ensures Unwrapped(b, x, r.cb) == r.d <==> x == VoucherOf(r)
    ensures Unwrapped(b, x, r.cb) != VoucherOf(r)
  {
  }

  /** The next packet has not been sent, and so not been answered. */
  ghost predicate NextUnused(from: Chain, at: Endpoint, to: Chain, there: Endpoint) {
    && from.timedOut <= from.sent.Keys
    && (at in from.channels ==>
          PacketId(at, from.channels[at].next) !in from.sent && PacketId(there, from.channels[at].next) !in to.acks)
  }

  lemma NextIsUnused(from: Chain, at: Endpoint, to: Chain, there: Endpoint)
    requires Fine(from) && ReceivedFine(to.mail) && Agree(from, at, to, there)
    ensures NextUnused(from, at, to, there)
  {
    if at in from.channels { assert AgreeOn(from, at, to, there, from.channels[at].next); }
  }

  ghost function Carries(p: Packet, d: Denom): nat {
    if p.data.Transfer20? && p.data.denom == d then p.data.amount else 0
  }

  lemma ForwardSends(r: Route, w: World, a': Chain, id: PacketId, p: Packet)
    requires id !in w.a.sent && a'.sent == w.a.sent[id := p] && a'.timedOut == w.a.timedOut <= w.a.sent.Keys
    requires id.at == Ends(r).atA ==> PacketId(Ends(r).atB, id.sequence) !in w.b.acks
    ensures Forward(r, w.(a := a')) == Forward(r, w) + if id.at == Ends(r).atA then Carries(p, r.d) else 0
  {
    var at, w' := Ends(r).atA, w.(a := a');
    OutstandingSend(at, r.d, GoneOut(r, w'), w.a.sent, id, p);
    OutstandingSame(at, r.d, GoneOut(r, w), GoneOut(r, w'), w.a.sent);
  }

  lemma ReturningSends(r: Route, w: World, b': Chain, id: PacketId, p: Packet)
    requires id !in w.b.sent && b'.sent == w.b.sent[id := p]
    requires id.at == Ends(r).atB ==> PacketId(Ends(r).atA, id.sequence) !in w.a.acks
    ensures Returning(r, w.(b := b')) == Returning(r, w) + if id.at == Ends(r).atB then Carries(p, r.d) else 0
  {
    var at, w' := Ends(r).atB, w.(b := b');
    OutstandingSend(at, r.d, GoneBack(r, w'), w.b.sent, id, p);
    OutstandingSame(at, r.d, GoneBack(r, w), GoneBack(r, w'), w.b.sent);
  }

  /** The same packets are outstanding when nothing about them has changed. */
  lemma ForwardSame(r: Route, w: World, w': World)
    requires w'.a.sent == w.a.sent
    requires forall n: nat :: PacketId(Ends(r).atB, n) in w'.b.acks <==> PacketId(Ends(r).atB, n) in w.b.acks
    requires forall n: nat :: PacketId(Ends(r).atA, n) in w'.a.timedOut <==> PacketId(Ends(r).atA, n) in w.a.timedOut
    ensures Forward(r, w') == Forward(r, w)
  {
    forall id | id in w.a.sent && id.at == Ends(r).atA ensures id in GoneOut(r, w) <==> id in GoneOut(r, w') {
      assert id == PacketId(Ends(r).atA, id.sequence);
    }
    OutstandingSame(Ends(r).atA, r.d, GoneOut(r, w), GoneOut(r, w'), w.a.sent);
  }

  lemma ReturningSame(r: Route, w: World, w': World)
    requires w'.b.sent == w.b.sent
    requires forall n: nat :: PacketId(Ends(r).atA, n) in w'.a.acks <==> PacketId(Ends(r).atA, n) in w.a.acks
    ensures Returning(r, w') == Returning(r, w)
  {
    OutstandingSame(Ends(r).atB, r.d, GoneBack(r, w), GoneBack(r, w'), w.b.sent);
  }

  lemma PureWith(sent: map<PacketId, Packet>, at: Endpoint, v: Denom, lock: Addr, id: PacketId, p: Packet)
    requires PacketsPure(sent, at, v, lock) && PurePacket(p, v, lock)
    ensures PacketsPure(sent[id := p], at, v, lock)
  {
  }

  /** Sending a pure packet leaves A fine when only its lock account has gained. */
  lemma HomeLocked(r: Route, a: Chain, id: PacketId, p: Packet, a': Chain, x: Denom)
    requires HomeFine(r, a) && PurePacket(p, VoucherOf(r), r.ea.lock)
    requires MovedOne(a.ledger, a'.ledger, p.data.sender, r.ea.lock, x, p.data.amount)
    requires a'.vouchers == a.vouchers && a'.sent == a.sent[id := p]
    requires x == r.d <==> p.data.denom == r.d
    ensures HomeFine(r, a')
    ensures Has(a'.ledger, r.ea.lock, r.d) == Has(a.ledger, r.ea.lock, r.d) + Carries(p, r.d)
  {
    PureWith(a.sent, Ends(r).atA, VoucherOf(r), r.ea.lock, id, p);
  }

  lemma HomeLocks(r: Route, a: Chain, m: Msg, a': Chain)
    requires Proper(r) && HomeFine(r, a) && m.TransferMsg? && m.channel == r.ca && m.sender != r.ea.lock
    requires Handle(r.ea, a, m) == Ok(a')
    ensures var at := Ends(r).atA;
      at in a.channels && var id := PacketId(at, a.channels[at].next);
      && a'.acks == a.acks && a'.timedOut == a.timedOut
      && id in a'.sent && a'.sent == a.sent[id := a'.sent[id]]
      && HomeFine(r, a')
      && Has(a'.ledger, r.ea.lock, r.d) == Has(a.ledger, r.ea.lock, r.d) + Carries(a'.sent[id], r.d)
  {
    TransferIs(r.ea, a, m.sender, m.channel, m.to, m.coin, m.timeout, a');
    HoldersHaveSupply(a.ledger, m.sender, m.coin.denom);
    HomeDenom(r, a, m.coin.denom);
    var id := PacketId(Ends(r).atA, a.channels[Ends(r).atA].next);
    HomeLocked(r, a, id, a'.sent[id], a', m.coin.denom);
  }

  lemma HomeTransfers(r: Route, w: World, m: Msg, a': Chain)
    requires Proper(r) && HomeFine(r, w.a) && NextUnused(w.a, Ends(r).atA, w.b, Ends(r).atB)
    requires m.TransferMsg? && m.channel == r.ca && m.sender != r.ea.lock && Handle(r.ea, w.a, m) == Ok(a')
    ensures HomeFine(r, a') && Spare(r, w.(a := a')) == Spare(r, w)
  {
    var at := Ends(r).atA;
    HomeLocks(r, w.a, m, a');
    var id := PacketId(at, w.a.channels[at].next);
    ForwardSends(r, w, a', id, a'.sent[id]);
    ReturningSame(r, w, w.(a := a'));
  }

  /** Sending a pure packet leaves B fine when only its lock account has gained. */
  lemma AwayLocked(r: Route, b: Chain, id: PacketId, p: Packet, b': Chain, x: Denom)
    requires AwayFine(r, b) && PurePacket(p, VoucherOf(r), r.eb.lock)
    requires MovedOne(b.ledger, b'.ledger, p.data.sender, r.eb.lock, x, p.data.amount)
    requires b'.vouchers == b.vouchers && b'.sent == b.sent[id := p]
    requires x == VoucherOf(r) <==> p.data.denom == r.d
    ensures AwayFine(r, b')
    ensures Circulating(r, b') == Circulating(r, b) - Carries(p, r.d)
  {
    PureWith(b.sent, Ends(r).atB, VoucherOf(r), r.eb.lock, id, p);
  }

  lemma AwayLocks(r: Route, b: Chain, m: Msg, b': Chain)
    requires Proper(r) && AwayFine(r, b) && m.TransferMsg? && m.channel == r.cb && m.sender != r.eb.lock
    requires Handle(r.eb, b, m) == Ok(b')
    ensures var at := Ends(r).atB;
      at in b.channels && var id := PacketId(at, b.channels[at].next);
      && b'.acks == b.acks && b'.timedOut == b.timedOut
      && id in b'.sent && b'.sent == b.sent[id := b'.sent[id]]
      && AwayFine(r, b')
      && Circulating(r, b') == Circulating(r, b) - Carries(b'.sent[id], r.d)
  {
    TransferIs(r.eb, b, m.sender, m.channel, m.to, m.coin, m.timeout, b');
    HoldersHaveSupply(b.ledger, m.sender, m.coin.denom);
    AwayDenom(r, b, m.coin.denom);
    var id := PacketId(Ends(r).atB, b.channels[Ends(r).atB].next);
    AwayLocked(r, b, id, b'.sent[id], b', m.coin.denom);
  }

  lemma AwayTransfers(r: Route, w: World, m: Msg, b': Chain)
    requires Proper(r) && AwayFine(r, w.b) && NextUnused(w.b, Ends(r).atB, w.a, Ends(r).atA)
    requires m.TransferMsg? && m.channel == r.cb && m.sender != r.eb.lock && Handle(r.eb, w.b, m) == Ok(b')
    ensures AwayFine(r, b') && Spare(r, w.(b := b')) == Spare(r, w)
  {
    var at := Ends(r).atB;
    AwayLocks(r, w.b, m, b');
    var id := PacketId(at, w.b.channels[at].next);
    ReturningSends(r, w, b', id, b'.sent[id]);
    ForwardSame(r, w, w.(b := b'));
  }

  // ---- Deliveries ----

  lemma HomeReceives(r: Route, a: Chain, p: Packet, reply: Reply, delivery: Delivery, a': Chain)
    requires Proper(r) && HomeFine(r, a) && PurePacket(p, VoucherOf(r), r.eb.lock) && p.dest == Ends(r).atA
    requires ReceivePacket(r.ea, a, p, reply) == Ok((delivery, a'))
    requires p.data.denom == r.d ==> Has(a.ledger, r.ea.lock, r.d) > 0
    ensures HomeFine(r, a') && a'.sent == a.sent && a'.timedOut == a.timedOut
    ensures delivery.Late? ==> a'.acks == a.acks && Has(a'.ledger, r.ea.lock, r.d) == Has(a.ledger, r.ea.lock, r.d)
    ensures delivery.Acknowledged? ==>
      && a'.acks == a.acks[PacketId(p.dest, p.sequence) := Some(r.ea.success)]
      && Has(a'.ledger, r.ea.lock, r.d)
         == Has(a.ledger, r.ea.lock, r.d) - if p.data.receiver == r.ea.lock then 0 else Carries(p, r.d)
  {
    ReceiveAtBankIs(r.ea, a, p, reply, delivery, a');
  }

  lemma AwayReceives(r: Route, b: Chain, p: Packet, reply: Reply, delivery: Delivery, b': Chain)
    requires Proper(r) && AwayFine(r, b) && PurePacket(p, VoucherOf(r), r.ea.lock) && p.dest == Ends(r).atB
    requires ReceivePacket(r.eb, b, p, reply) == Ok((delivery, b'))
    ensures AwayFine(r, b') && b'.sent == b.sent && b'.timedOut == b.timedOut
    ensures delivery.Late? ==> b'.acks == b.acks && Circulating(r, b') == Circulating(r, b)
    ensures delivery.Acknowledged? ==>
      && b'.acks == b.acks[PacketId(p.dest, p.sequence) := Some(r.eb.success)]
      && Circulating(r, b') == Circulating(r, b) + if p.data.receiver == r.eb.lock then 0 else Carries(p, r.d)
  {
    ReceiveAtBankIs(r.eb, b, p, reply, delivery, b');
    SupplyBounds(b.ledger, r.d);
  }

  // ---- Refunds ----

  lemma HomeRefunds(r: Route, a: Chain, p: Packet, reply: Reply, a': Chain)
    requires HomeFine(r, a) && p.src == Ends(r).atA && TimeoutPacket(r.ea, a, p, reply) == Ok(a')
    ensures var id := PacketId(p.src, p.sequence);
      && id in a.sent && id !in a.timedOut && a'.sent == a.sent && a'.acks == a.acks && a'.timedOut == a.timedOut + {id}
      && HomeFine(r, a')
      && Has(a'.ledger, r.ea.lock, r.d) == Has(a.ledger, r.ea.lock, r.d) - Carries(a.sent[id], r.d)
  {
    TimeoutAtBankIs(r.ea, a, p, reply, a');
  }

  lemma AwayRefunds(r: Route, b: Chain, p: Packet, reply: Reply, b': Chain)
    requires AwayFine(r, b) && p.src == Ends(r).atB && TimeoutPacket(r.eb, b, p, reply) == Ok(b')
    ensures b'.sent == b.sent && b'.acks == b.acks && AwayFine(r, b') && Circulating(r, b') == Circulating(r, b)
  {
    TimeoutAtBankIs(r.eb, b, p, reply, b');
    SupplyBounds(b.ledger, r.d);
  }

  // ---- Payments and minting ----

  lemma HomePays(r: Route, a: Chain, m: Msg, a': Chain)
    requires HomeFine(r, a) && m.PayMsg? && m.sender != r.ea.lock && Handle(r.ea, a, m) == Ok(a')
    ensures a'.mail == a.mail && HomeFine(r, a')
    ensures Keeps(Has(a.ledger, r.ea.lock, r.d), Has(a'.ledger, r.ea.lock, r.d), m.to == r.ea.lock)
  {
    SendEffect(a.ledger, m.sender, m.to, m.coins);
  }

  lemma HomeMints(r: Route, a: Chain, m: Msg, a': Chain)
    requires HomeFine(r, a) && m.MintMsg? && Handle(r.ea, a, m) == Ok(a')
    requires MintsNone(m, VoucherOf(r), r.ea.wrap(r.ca, r.d), r.ea.wrap(r.ca, VoucherOf(r)))
    ensures a'.mail == a.mail && HomeFine(r, a')
    ensures Keeps(Has(a.ledger, r.ea.lock, r.d), Has(a'.ledger, r.ea.lock, r.d), m.to == r.ea.lock)
  {
    MintEffect(a.ledger, m.to, m.coins);
  }

  lemma AwayPays(r: Route, b: Chain, m: Msg, b': Chain)
    requires AwayFine(r, b) && m.PayMsg? && m.sender != r.eb.lock && Handle(r.eb, b, m) == Ok(b')
    ensures b'.mail == b.mail && AwayFine(r, b')
    ensures Keeps(-Circulating(r, b), -Circulating(r, b'), m.to == r.eb.lock)
  {
    SendEffect(b.ledger, m.sender, m.to, m.coins);
  }

  lemma AwayMints(r: Route, b: Chain, m: Msg, b': Chain)
    requires AwayFine(r, b) && m.MintMsg? && Handle(r.eb, b, m) == Ok(b')
    requires MintsNone(m, r.d, VoucherOf(r), r.eb.wrap(r.cb, VoucherOf(r)))
    ensures b'.mail == b.mail && AwayFine(r, b') && Circulating(r, b') == Circulating(r, b)
  {
    MintEffect(b.ledger, m.to, m.coins);
  }

  // ---- Everything else ----

  /** No packet of `at` is sent, answered or timed out. */
  ghost predicate Beside(c: Chain, c': Chain, at: Endpoint) {
    && (forall n: nat :: PacketId(at, n) in c'.acks <==> PacketId(at, n) in c.acks)
    && (forall n: nat :: PacketId(at, n) in c'.timedOut <==> PacketId(at, n) in c.timedOut)
    && (c'.sent == c.sent
        || exists id :: id in c'.sent && id !in c.sent && id.at != at && c'.sent == c.sent[id := c'.sent[id]])
  }

  /** And no funds move. */
  ghost predicate Aside(c: Chain, c': Chain, at: Endpoint) { c'.vault == c.vault && Beside(c, c', at) }

  lemma ReceivingAside(e: Env, c: Chain, p: Packet, reply: Reply, at: Endpoint)
    requires p.dest.port != BANK_PORT && at.port == BANK_PORT && ReceivePacket(e, c, p, reply).Ok?
    ensures Aside(c, ReceivePacket(e, c, p, reply).value.1, at)
  {
  }

  lemma TimingOutAside(e: Env, c: Chain, p: Packet, reply: Reply, at: Endpoint)
    requires p.src.port != BANK_PORT && at.port == BANK_PORT && TimeoutPacket(e, c, p, reply).Ok?
    ensures Aside(c, TimeoutPacket(e, c, p, reply).value, at)
  {
  }

  lemma SendingAside(c: Chain, from: Endpoint, data: Payload, timeout: Timeout, at: Endpoint)
    requires from.port != BANK_PORT && at.port == BANK_PORT && SendPacket(c, from, data, timeout).Ok?
    requires from in c.channels ==> PacketId(from, c.channels[from].next) !in c.sent
    ensures Aside(c, SendPacket(c, from, data, timeout).value.1, at)
  {
    var id, c' := PacketId(from, c.channels[from].next), SendPacket(c, from, data, timeout).value.1;
    assert id in c'.sent && c'.sent == c.sent[id := c'.sent[id]];
  }

  lemma OthersAside(e: Env, c: Chain, m: Msg, at: Endpoint, c': Chain)
    requires Fine(c) && at.port == BANK_PORT && Handle(e, c, m) == Ok(c')
    requires SoleChannel(m, at.channel, e.lock) && !m.TransferMsg? && !m.PayMsg? && !m.MintMsg?
    ensures Aside(c, c', at)
  {
    if m.SendMsg? {
      SendingAside(c, m.at, m.data, m.timeout, at);
    } else if m.ReceiveMsg? {
      ReceivingAside(e, c, m.packet, m.reply, at);
    } else if m.TimeoutMsg? {
      TimingOutAside(e, c, m.packet, m.reply, at);
    }
  }

  lemma HomeAside(r: Route, w: World, a': Chain)
    requires HomeFine(r, w.a) && Aside(w.a, a', Ends(r).atA)
    ensures HomeFine(r, a') && Spare(r, w.(a := a')) == Spare(r, w)
  {
    var w' := w.(a := a');
    ReturningSame(r, w, w');
    ForwardAside(r, w, a');
  }

  lemma ForwardAside(r: Route, w: World, a': Chain)
    requires Beside(w.a, a', Ends(r).atA)
    ensures Forward(r, w.(a := a')) == Forward(r, w)
  {
    var at, w' := Ends(r).atA, w.(a := a');
    if a'.sent != w.a.sent {
      var id :| id in a'.sent && id !in w.a.sent && id.at != at && a'.sent == w.a.sent[id := a'.sent[id]];
      OutstandingSend(at, r.d, GoneOut(r, w'), w.a.sent, id, a'.sent[id]);
    }
    forall id | id in w.a.sent && id.at == at ensures id in GoneOut(r, w) <==> id in GoneOut(r, w') {
      assert id == PacketId(at, id.sequence);
    }
    OutstandingSame(at, r.d, GoneOut(r, w), GoneOut(r, w'), w.a.sent);
  }

  lemma ReturningAside(r: Route, w: World, b': Chain)
    requires Aside(w.b, b', Ends(r).atB)
    ensures Returning(r, w.(b := b')) == Returning(r, w)
  {
    var at, w' := Ends(r).atB, w.(b := b');
    if b'.sent != w.b.sent {
      var id :| id in b'.sent && id !in w.b.sent && id.at != at && b'.sent == w.b.sent[id := b'.sent[id]];
      OutstandingSend(at, r.d, GoneBack(r, w'), w.b.sent, id, b'.sent[id]);
    }
    OutstandingSame(at, r.d, GoneBack(r, w), GoneBack(r, w'), w.b.sent);
  }

  lemma AwayAside(r: Route, w: World, b': Chain)
    requires AwayFine(r, w.b) && Aside(w.b, b', Ends(r).atB)
    ensures AwayFine(r, b') && Spare(r, w.(b := b')) == Spare(r, w)
  {
    var w' := w.(b := b');
    ReturningAside(r, w, b');
    ForwardSame(r, w, w');
  }
}
