/**
 What holds of one chain's IBC module on every run: the channel handshake, the
 life of a packet, and the printed form of ports.
 */
module IbcLaws {
  import opened Bytes
  import opened Bank
  import opened Results
  import opened Ibc

  // ---- Invariants ----

  ghost predicate Issued(ports: map<string, nat>, at: Endpoint) {
    at.channel.Channel? && at.port in ports && at.channel.number < ports[at.port]
  }

  /** Connections are numbered below their count, channels below their port's next
      number; a channel is in its handshake or through it, not both, and a
      handshake is only ever stored as `Init` or `Try`. */
  ghost predicate NetFine(n: Registry) {
    && (forall i :: i in n.connections ==> i < |n.connections|)
    && (forall at :: at in n.handshakes ==>
          Issued(n.ports, at) && (n.handshakes[at].state == Init || n.handshakes[at].state == Try))
    && (forall at :: at in n.channels ==> Issued(n.ports, at) && n.channels[at].next >= 1 && at !in n.handshakes)
  }

  ghost predicate Numbered(channels: map<Endpoint, ChannelInfo>, id: PacketId, p: Packet) {
    && id.at in channels && 1 <= id.sequence < channels[id.at].next
    && p.src == id.at && p.sequence == id.sequence && p.dest == channels[id.at].remote
  }

  /** A packet was sent for exactly the sequences 1 to next - 1 of each channel, to
      its counterparty; none is both acknowledged and timed out. */
  ghost predicate SentFine(channels: map<Endpoint, ChannelInfo>, m: Mail) {
    && (forall id :: id in m.sent ==> Numbered(channels, id, m.sent[id]))
    && (forall at, n: nat :: at in channels && 1 <= n < channels[at].next ==> PacketId(at, n) in m.sent)
    && m.acked.Keys <= m.sent.Keys && m.timedOut <= m.sent.Keys && m.acked.Keys !! m.timedOut
  }

  /** Received packets are kept under their own name, and exactly those in time
      have been answered. */
  ghost predicate ReceivedFine(m: Mail) {
    && (forall id :: id in m.received ==>
          m.received[id].packet.dest == id.at && m.received[id].packet.sequence == id.sequence)
    && (forall id :: id in m.acks <==> id in m.received && !m.received[id].timedOut)
  }

  /** Nothing is received at an end that is not connected. */
  ghost predicate ReceivedHere(channels: map<Endpoint, ChannelInfo>, m: Mail) {
    forall id :: id in m.received ==> id.at in channels
  }

  ghost predicate Fine(c: Chain) {
    && NetFine(c.net) && SentFine(c.net.channels, c.mail)
    && ReceivedFine(c.mail) && ReceivedHere(c.net.channels, c.mail)
  }

  // ---- What never changes back ----

  ghost predicate Grows<K, V>(m: map<K, V>, m': map<K, V>) { forall k :: k in m ==> k in m' && m'[k] == m[k] }

  /** An open channel can only send, and close for good. */
  ghost predicate Continues(i: ChannelInfo, j: ChannelInfo) {
    j == i.(next := j.next, open := j.open) && i.next <= j.next && (j.open ==> i.open)
  }

  /** Channels continue; new ones come out of a handshake under way or a name not
      issued yet, and so do new handshakes. */
  ghost predicate NetEvolves(n: Registry, n': Registry) {
    && (forall at :: Issued(n.ports, at) ==> Issued(n'.ports, at))
    && (forall at :: at in n.channels ==> at in n'.channels && Continues(n.channels[at], n'.channels[at]))
    && (forall at :: at in n'.channels && at !in n.channels && Issued(n.ports, at) ==> at in n.handshakes)
    && (forall at :: at in n'.handshakes && Issued(n.ports, at) ==>
          at in n.handshakes && n'.handshakes[at] == n.handshakes[at])
  }

  ghost predicate MailEvolves(m: Mail, m': Mail) {
    && Grows(m.sent, m'.sent) && Grows(m.acked, m'.acked) && m.timedOut <= m'.timedOut
    && Grows(m.received, m'.received) && Grows(m.acks, m'.acks)
  }

  ghost predicate Evolves(c: Chain, c': Chain) { NetEvolves(c.net, c'.net) && MailEvolves(c.mail, c'.mail) }

  lemma EvolvesFurther(c: Chain, c1: Chain, c2: Chain)
    requires Evolves(c, c1) && Evolves(c1, c2)
    ensures Evolves(c, c2)
  {
    NetEvolvesFurther(c.net, c1.net, c2.net);
    MailEvolvesFurther(c.mail, c1.mail, c2.mail);
  }

  lemma NetEvolvesFurther(n: Registry, n1: Registry, n2: Registry)
    requires NetEvolves(n, n1) && NetEvolves(n1, n2)
    ensures NetEvolves(n, n2)
  {
  }

  lemma MailEvolvesFurther(m: Mail, m1: Mail, m2: Mail)
    requires MailEvolves(m, m1) && MailEvolves(m1, m2)
    ensures MailEvolves(m, m2)
  {
  }

  // ---- Part by part ----

  lemma SizeAfter<K, V>(m: map<K, V>, k: K, v: V)
    ensures |m[k := v]| == if k in m then |m| else |m| + 1
  {
    var m' := m[k := v];
    assert m'.Keys == m.Keys + {k};
    assert |m'.Keys| == |m'| && |m.Keys| == |m|;
    if k in m { assert m.Keys + {k} == m.Keys; }
  }

  lemma ConnectionSaved(n: Registry, i: nat, x: Connection)
    requires NetFine(n) && i <= |n.connections|
    ensures var n' := n.(connections := n.connections[i := x]); NetFine(n') && NetEvolves(n, n')
  {
    SizeAfter(n.connections, i, x);
  }

  lemma HandshakeStarted(n: Registry, at: Endpoint, h: Handshake)
    requires NetFine(n) && (h.state == Init || h.state == Try)
    requires at.channel == Channel(if at.port in n.ports then n.ports[at.port] else 0)
    ensures var n' := n.(ports := n.ports[at.port := at.channel.number + 1], handshakes := n.handshakes[at := h]);
      NetFine(n') && NetEvolves(n, n')
  {
  }

  lemma HandshakeFinished(n: Registry, at: Endpoint, info: ChannelInfo)
    requires NetFine(n) && at in n.handshakes && info.next == 1
    ensures var n' := n.(handshakes := n.handshakes - {at}, channels := n.channels[at := info]);
      NetFine(n') && NetEvolves(n, n')
  {
  }

  lemma ChannelContinued(n: Registry, at: Endpoint, info: ChannelInfo)
    requires NetFine(n) && at in n.channels && Continues(n.channels[at], info)
    ensures var n' := n.(channels := n.channels[at := info]); NetFine(n') && NetEvolves(n, n')
  {
  }

  /** A new channel has sent nothing: no packet has its name. */
  lemma NothingSentYet(channels: map<Endpoint, ChannelInfo>, m: Mail, at: Endpoint, info: ChannelInfo)
    requires SentFine(channels, m) && at !in channels && info.next == 1
    ensures SentFine(channels[at := info], m)
  {
  }

  lemma ClosedLater(channels: map<Endpoint, ChannelInfo>, m: Mail, at: Endpoint)
    requires SentFine(channels, m) && at in channels
    ensures SentFine(channels[at := channels[at].(open := false)], m)
  {
  }

  lemma PacketSent(channels: map<Endpoint, ChannelInfo>, m: Mail, at: Endpoint, packet: Packet)
    requires SentFine(channels, m) && at in channels && channels[at].next >= 1
    requires packet.src == at && packet.dest == channels[at].remote && packet.sequence == channels[at].next
    ensures var id, info := PacketId(at, channels[at].next), channels[at];
      var m' := m.(sent := m.sent[id := packet]);
      SentFine(channels[at := info.(next := info.next + 1)], m') && MailEvolves(m, m')
  {
  }

  lemma PacketAcked(channels: map<Endpoint, ChannelInfo>, m: Mail, id: PacketId, ack: bytes)
    requires SentFine(channels, m) && id in m.sent && id !in m.acked && id !in m.timedOut
    ensures var m' := m.(acked := m.acked[id := ack]); SentFine(channels, m') && MailEvolves(m, m')
  {
  }

  lemma PacketTimedOut(channels: map<Endpoint, ChannelInfo>, m: Mail, id: PacketId)
    requires SentFine(channels, m) && id in m.sent && id !in m.acked
    ensures var m' := m.(timedOut := m.timedOut + {id}); SentFine(channels, m') && MailEvolves(m, m')
  {
  }

  lemma PacketLate(m: Mail, id: PacketId, receipt: Receipt)
    requires ReceivedFine(m) && id !in m.received && receipt.timedOut
    requires receipt.packet.dest == id.at && receipt.packet.sequence == id.sequence
    ensures var m' := m.(received := m.received[id := receipt]); ReceivedFine(m') && MailEvolves(m, m')
  {
  }

  lemma PacketInTime(m: Mail, id: PacketId, receipt: Receipt, ack: Option<bytes>)
    requires ReceivedFine(m) && id !in m.received && !receipt.timedOut
    requires receipt.packet.dest == id.at && receipt.packet.sequence == id.sequence
    ensures var m' := m.(received := m.received[id := receipt], acks := m.acks[id := ack]);
      ReceivedFine(m') && MailEvolves(m, m')
  {
  }

  // ---- Operation by operation ----

  ghost predicate OnlyBank(c: Chain, c': Chain) { c' == c.(vault := c'.vault) }

  lemma ReceivingIsBanking(e: Env, c: Chain, packet: Packet)
    requires BankReceive(e, c, packet).Ok?
    ensures OnlyBank(c, BankReceive(e, c, packet).value)
  {
  }

  lemma RefundingIsBanking(e: Env, c: Chain, packet: Packet)
    requires BankTimeout(e, c, packet).Ok?
    ensures OnlyBank(c, BankTimeout(e, c, packet).value)
  {
  }

  ghost predicate Steps(c: Chain, c': Chain) { Fine(c) ==> Fine(c') && Evolves(c, c') }

  lemma BankingSteps(c: Chain, c': Chain)
    requires c'.net == c.net && c'.mail == c.mail
    ensures Steps(c, c')
  {
  }

  lemma ConnectionSteps(c: Chain, remoteChain: string, id: Option<nat>, remote: Option<nat>)
    requires Fine(c) && CreateConnection(c, remoteChain, id, remote).Ok?
    ensures Steps(c, CreateConnection(c, remoteChain, id, remote).value.1)
  {
    var (n, c') := CreateConnection(c, remoteChain, id, remote).value;
    ConnectionSaved(c.net, n, c'.connections[n]);
  }

  lemma OpenSteps(c: Chain, connection: nat, port: string, version: string, order: Ordering, remote: Endpoint,
                  remoteVersion: Option<string>, reply: Reply)
    requires Fine(c) && OpenChannel(c, connection, port, version, order, remote, remoteVersion, reply).Ok?
    ensures Steps(c, OpenChannel(c, connection, port, version, order, remote, remoteVersion, reply).value.2)
  {
    var c' := OpenChannel(c, connection, port, version, order, remote, remoteVersion, reply).value.2;
    var at := Endpoint(port, Channel(NextChannel(c, port)));
    HandshakeStarted(c.net, at, c'.handshakes[at]);
  }

  lemma ConnectSteps(c: Chain, at: Endpoint, remote: Endpoint, remoteVersion: Option<string>, reply: Reply)
    requires Fine(c) && ConnectChannel(c, at, remote, remoteVersion, reply).Ok?
    ensures Steps(c, ConnectChannel(c, at, remote, remoteVersion, reply).value)
  {
    var c' := ConnectChannel(c, at, remote, remoteVersion, reply).value;
    HandshakeFinished(c.net, at, c'.channels[at]);
    NothingSentYet(c.net.channels, c.mail, at, c'.channels[at]);
  }

  lemma CloseSteps(c: Chain, at: Endpoint, reply: Reply)
    requires Fine(c) && CloseChannel(c, at, reply).Ok?
    ensures Steps(c, CloseChannel(c, at, reply).value)
  {
    ChannelContinued(c.net, at, c.net.channels[at].(open := false));
    ClosedLater(c.net.channels, c.mail, at);
  }

  lemma PartsStep(c: Chain, c': Chain)
    requires NetFine(c'.net) && SentFine(c'.net.channels, c'.mail)
    requires ReceivedFine(c'.mail) && ReceivedHere(c'.net.channels, c'.mail)
    requires NetEvolves(c.net, c'.net) && MailEvolves(c.mail, c'.mail)
    ensures Fine(c') && Evolves(c, c')
  {
  }

  lemma SentStep(n: Registry, m: Mail, at: Endpoint, packet: Packet)
    requires NetFine(n) && SentFine(n.channels, m) && at in n.channels
    requires packet.src == at && packet.dest == n.channels[at].remote && packet.sequence == n.channels[at].next
    ensures var info := n.channels[at];
      var n' := n.(channels := n.channels[at := info.(next := info.next + 1)]);
      var m' := m.(sent := m.sent[PacketId(at, info.next) := packet]);
      NetFine(n') && SentFine(n'.channels, m') && NetEvolves(n, n') && MailEvolves(m, m')
  {
    PacketSent(n.channels, m, at, packet);
    ChannelContinued(n, at, n.channels[at].(next := n.channels[at].next + 1));
  }

  lemma SentHere(n: Registry, m: Mail, at: Endpoint, info: ChannelInfo, sent: map<PacketId, Packet>)
    requires ReceivedFine(m) && ReceivedHere(n.channels, m)
    ensures ReceivedFine(m.(sent := sent)) && ReceivedHere(n.channels[at := info], m.(sent := sent))
  {
  }

  lemma SendSteps(c: Chain, at: Endpoint, data: Payload, timeout: Timeout)
    requires Fine(c) && SendPacket(c, at, data, timeout).Ok?
    ensures Fine(SendPacket(c, at, data, timeout).value.1) && Evolves(c, SendPacket(c, at, data, timeout).value.1)
  {
    var info := c.net.channels[at];
    var packet := Packet(data, at, info.remote, info.next, timeout);
    SentStep(c.net, c.mail, at, packet);
    SentHere(c.net, c.mail, at, info.(next := info.next + 1), c.sent[PacketId(at, info.next) := packet]);
    PartsStep(c, SendPacket(c, at, data, timeout).value.1);
  }

  /** The three ways a delivery can go through. */
  lemma DeliveryIs(e: Env, c: Chain, packet: Packet, reply: Reply)
    requires ReceivePacket(e, c, packet, reply).Ok?
    ensures packet.dest in c.channels && PacketId(packet.dest, packet.sequence) !in c.received
    ensures var (delivery, c') := ReceivePacket(e, c, packet, reply).value;
      var id := PacketId(packet.dest, packet.sequence);
      var late := (packet.timeout.height.Some? && packet.timeout.height.value <= c.height)
                  || (packet.timeout.time.Some? && packet.timeout.time.value <= c.time);
      var m := c.mail.(received := c.received[id := Receipt(packet, late)]);
      && (late <==> delivery.Late?)
      && (delivery.Late? ==> delivery.closes == (c.channels[packet.dest].order == Ordered))
      && (delivery == Late(false) ==> c' == c.(mail := m))
      && (delivery == Late(true) ==> CloseChannel(c.(mail := m), packet.dest, reply) == Ok(c'))
      && (delivery.Acknowledged? ==> OnlyBank(c.(mail := m.(acks := c.acks[id := delivery.ack])), c'))
  {
    var id := PacketId(packet.dest, packet.sequence);
    var c1 := c.(mail := c.mail.(received := c.received[id := Receipt(packet, false)]));
    if !HasPassed(packet.timeout, c.height, c.time) && ParsePort(packet.dest.port) == Some(BankPort) {
      ReceivingIsBanking(e, c1, packet);
    }
  }

  lemma LateSteps(c: Chain, packet: Packet, reply: Reply, c': Chain)
    requires Fine(c) && packet.dest in c.channels && PacketId(packet.dest, packet.sequence) !in c.received
    requires var id := PacketId(packet.dest, packet.sequence);
      var c1 := c.(mail := c.mail.(received := c.received[id := Receipt(packet, true)]));
      c' == c1 || CloseChannel(c1, packet.dest, reply) == Ok(c')
    ensures Steps(c, c')
  {
    var id, receipt := PacketId(packet.dest, packet.sequence), Receipt(packet, true);
    PacketLate(c.mail, id, receipt);
    var c1 := c.(mail := c.mail.(received := c.received[id := receipt]));
    assert SentFine(c.net.channels, c1.mail);
    if c' != c1 {
      CloseSteps(c1, packet.dest, reply);
      EvolvesFurther(c, c1, c');
    }
  }

  lemma TimelySteps(c: Chain, packet: Packet, ack: Option<bytes>, c': Chain)
    requires Fine(c) && packet.dest in c.channels && PacketId(packet.dest, packet.sequence) !in c.received
    requires c'.net == c.net
    requires var id := PacketId(packet.dest, packet.sequence);
      c'.mail == c.mail.(received := c.received[id := Receipt(packet, false)], acks := c.acks[id := ack])
    ensures Steps(c, c')
  {
    PacketInTime(c.mail, PacketId(packet.dest, packet.sequence), Receipt(packet, false), ack);
  }

  lemma ReceiveSteps(e: Env, c: Chain, packet: Packet, reply: Reply)
    requires Fine(c) && ReceivePacket(e, c, packet, reply).Ok?
    ensures Steps(c, ReceivePacket(e, c, packet, reply).value.1)
  {
    DeliveryIs(e, c, packet, reply);
    var (delivery, c') := ReceivePacket(e, c, packet, reply).value;
    if delivery.Late? { LateSteps(c, packet, reply, c'); } else { TimelySteps(c, packet, delivery.ack, c'); }
  }

  lemma AcknowledgeSteps(c: Chain, packet: Packet, ack: bytes, reply: Reply)
    requires Fine(c) && AcknowledgePacket(c, packet, ack, reply).Ok?
    ensures Steps(c, AcknowledgePacket(c, packet, ack, reply).value)
  {
    PacketAcked(c.net.channels, c.mail, PacketId(packet.src, packet.sequence), ack);
  }

  lemma TimeoutIs(e: Env, c: Chain, packet: Packet, reply: Reply)
    requires TimeoutPacket(e, c, packet, reply).Ok?
    ensures var id := PacketId(packet.src, packet.sequence);
      && id in c.sent && id !in c.acked && id !in c.timedOut
      && OnlyBank(c.(mail := c.mail.(timedOut := c.timedOut + {id})), TimeoutPacket(e, c, packet, reply).value)
  {
    var id := PacketId(packet.src, packet.sequence);
    if packet.src.port == BANK_PORT {
      RefundingIsBanking(e, c.(mail := c.mail.(timedOut := c.timedOut + {id})), c.sent[id]);
    }
  }

  lemma TimeoutSteps(e: Env, c: Chain, packet: Packet, reply: Reply)
    requires Fine(c) && TimeoutPacket(e, c, packet, reply).Ok?
    ensures Steps(c, TimeoutPacket(e, c, packet, reply).value)
  {
    TimeoutIs(e, c, packet, reply);
    PacketTimedOut(c.net.channels, c.mail, PacketId(packet.src, packet.sequence));
  }

  lemma TransferSteps(e: Env, c: Chain, sender: Addr, channel: ChannelId, to: Addr, coin: Coin, timeout: Timeout)
    requires Fine(c) && Transfer(e, c, sender, channel, to, coin, timeout).Ok?
    ensures Steps(c, Transfer(e, c, sender, channel, to, coin, timeout).value.1)
  {
    var c1 := c.(vault := c.vault.(ledger := Send(c.ledger, sender, e.lock, [coin]).value));
    var data := Transfer20(Unwrapped(c, coin.denom, channel), coin.amount, sender, to);
    SendSteps(c1, Endpoint(BANK_PORT, channel), data, timeout);
  }

  /** Any message whatever keeps the invariants and undoes nothing. */
  lemma MessageSteps(e: Env, c: Chain, m: Msg)
    requires Fine(c)
    ensures Fine(Handled(e, c, m)) && Evolves(c, Handled(e, c, m))
  {
    var r := Handle(e, c, m);
    if r.Ok? {
      match m
      case ConnectionMsg(remoteChain, id, remote) => ConnectionSteps(c, remoteChain, id, remote);
      case OpenMsg(connection, port, version, order, remote, remoteVersion, reply) =>
        OpenSteps(c, connection, port, version, order, remote, remoteVersion, reply);
      case ConnectMsg(at, remote, remoteVersion, reply) => ConnectSteps(c, at, remote, remoteVersion, reply);
      case CloseMsg(at, reply) => CloseSteps(c, at, reply);
      case SendMsg(at, data, timeout) => SendSteps(c, at, data, timeout);
      case ReceiveMsg(packet, reply) => ReceiveSteps(e, c, packet, reply);
      case AcknowledgeMsg(packet, ack, reply) => AcknowledgeSteps(c, packet, ack, reply);
      case TimeoutMsg(packet, reply) => TimeoutSteps(e, c, packet, reply);
      case TransferMsg(sender, channel, to, coin, timeout) => TransferSteps(e, c, sender, channel, to, coin, timeout);
      case PayMsg(_, _, _) => BankingSteps(c, r.value);
      case MintMsg(_, _) => BankingSteps(c, r.value);
      case BlockMsg(_, _) => BankingSteps(c, r.value);
    }
  }

  // ---- Every run ----

  ghost function HandledAll(e: Env, c: Chain, ms: seq<Msg>): Chain
    decreases ms
  {
    if ms == [] then c else HandledAll(e, Handled(e, c, ms[0]), ms[1..])
  }

  ghost function Fresh(ledger: Ledger<Addr>, height: nat, time: nat): Chain {
    Chain(Registry(map[], map[], map[], map[]), Mail(map[], map[], {}, map[], map[]), Vault(ledger, map[]),
          height, time)
  }

  lemma FreshIsFine(ledger: Ledger<Addr>, height: nat, time: nat)
    ensures Fine(Fresh(ledger, height, time))
  {
  }

  lemma {:induction false} RunSteps(e: Env, c: Chain, ms: seq<Msg>)
    requires Fine(c)
    ensures Fine(HandledAll(e, c, ms)) && Evolves(c, HandledAll(e, c, ms))
    decreases ms
  {
    if ms != [] {
      var c1 := Handled(e, c, ms[0]);
      MessageSteps(e, c, ms[0]);
      RunSteps(e, c1, ms[1..]);
      EvolvesFurther(c, c1, HandledAll(e, c1, ms[1..]));
    }
  }

  /** Whatever a chain is sent from its first block on: handshakes are `Init` or
      `Try`; the sent sequences of each channel are exactly 1 to next - 1; no packet
      is both acknowledged and timed out, or either without being sent; packets are
      received at connected ends only, under their own names, and exactly those in
      time are answered. */
  lemma LifeCycle(e: Env, ledger: Ledger<Addr>, height: nat, time: nat, ms: seq<Msg>)
    ensures var c := HandledAll(e, Fresh(ledger, height, time), ms);
      && (forall at :: at in c.handshakes ==>
            (c.handshakes[at].state == Init || c.handshakes[at].state == Try) && at !in c.channels)
      && (forall id: PacketId :: id in c.sent <==> id.at in c.channels && 1 <= id.sequence < c.channels[id.at].next)
      && c.acked.Keys <= c.sent.Keys && c.timedOut <= c.sent.Keys && c.acked.Keys !! c.timedOut
      && (forall id :: id in c.received ==>
            id.at in c.channels && c.received[id].packet.dest == id.at && c.received[id].packet.sequence == id.sequence)
      && (forall id :: id in c.acks <==> id in c.received && !c.received[id].timedOut)
  {
    FreshIsFine(ledger, height, time);
    RunSteps(e, Fresh(ledger, height, time), ms);
    FineMeans(HandledAll(e, Fresh(ledger, height, time), ms));
  }

  lemma FineMeans(c: Chain)
    requires Fine(c)
    ensures forall at :: at in c.handshakes ==>
      (c.handshakes[at].state == Init || c.handshakes[at].state == Try) && at !in c.channels
    ensures forall id: PacketId :: id in c.sent <==> id.at in c.channels && 1 <= id.sequence < c.channels[id.at].next
    ensures c.acked.Keys <= c.sent.Keys && c.timedOut <= c.sent.Keys && c.acked.Keys !! c.timedOut
    ensures forall id :: id in c.received ==>
      id.at in c.channels && c.received[id].packet.dest == id.at && c.received[id].packet.sequence == id.sequence
    ensures forall id :: id in c.acks <==> id in c.received && !c.received[id].timedOut
  {
    forall id: PacketId ensures id in c.sent <==> id.at in c.channels && 1 <= id.sequence < c.channels[id.at].next {
      assert id == PacketId(id.at, id.sequence);
    }
  }

  /** The branch for any other state is never taken: connecting refuses only an
      unknown handshake or an unwilling application. */
  lemma HandshakeBranchUnreachable(c: Chain, at: Endpoint, remote: Endpoint, version: string, reply: Reply)
    requires Fine(c)
    ensures ConnectChannel(c, at, remote, Some(version), reply).Ok? <==> at in c.handshakes && Accepts(at.port, reply)
    ensures ConnectChannel(c, at, remote, Some(version), reply) != Panicked
  {
  }

  /** Once an end is connected it stays, is never initialised again, and once
      closed stays closed, whatever comes after. */
  lemma ChannelForGood(e: Env, c: Chain, ms: seq<Msg>, at: Endpoint)
    requires Fine(c) && at in c.channels
    ensures var c' := HandledAll(e, c, ms);
      && at in c'.channels && at !in c'.handshakes
      && c'.channels[at].remote == c.channels[at].remote && c'.channels[at].order == c.channels[at].order
      && c'.channels[at].version == c.channels[at].version
      && (!c.channels[at].open ==> !c'.channels[at].open)
  {
    RunSteps(e, c, ms);
  }

  /** A channel identifier is never issued twice: whatever opens gets a name that
      no handshake or channel of the port has, or ever had. */
  lemma IdentifiersAreFresh(e: Env, c0: Chain, ms: seq<Msg>, connection: nat, port: string, version: string,
                            order: Ordering, remote: Endpoint, remoteVersion: Option<string>, reply: Reply)
    requires Fine(c0)
    requires OpenChannel(HandledAll(e, c0, ms), connection, port, version, order, remote, remoteVersion, reply).Ok?
    ensures var c := HandledAll(e, c0, ms);
      var at := Endpoint(port, OpenChannel(c, connection, port, version, order, remote, remoteVersion, reply).value.0);
      at !in c.handshakes && at !in c.channels && at !in c0.handshakes && at !in c0.channels
  {
    RunSteps(e, c0, ms);
  }

  /** A packet is received once: what was first recorded stays, and a second
      delivery is refused. */
  lemma ReceivedOnce(e: Env, c: Chain, ms: seq<Msg>, packet: Packet, reply: Reply)
    requires Fine(c) && PacketId(packet.dest, packet.sequence) in c.received
    ensures var id, c' := PacketId(packet.dest, packet.sequence), HandledAll(e, c, ms);
      && id in c'.received && c'.received[id] == c.received[id]
      && ReceivePacket(e, c', packet, reply) == Refused
  {
    RunSteps(e, c, ms);
  }

  /** An acknowledged packet never times out and a timed-out one is never
      acknowledged, nor either of them twice. */
  lemma SettledOnce(e: Env, c: Chain, ms: seq<Msg>, packet: Packet, ack: bytes, reply: Reply)
    requires Fine(c)
    requires var id := PacketId(packet.src, packet.sequence); id in c.acked || id in c.timedOut
    ensures var c' := HandledAll(e, c, ms);
      AcknowledgePacket(c', packet, ack, reply) == Refused && TimeoutPacket(e, c', packet, reply) == Refused
  {
    RunSteps(e, c, ms);
  }

  // ---- Ports ----

  lemma {:induction false} PiecesOfPlain(s: string)
    ensures '.' !in s <==> |Pieces(s)| == 1
    ensures '.' !in s ==> Pieces(s) == [s]
  {
    if s != "" {
      PiecesOfPlain(s[1..]);
      assert s == [s[0]] + s[1..];
    }
  }

  lemma {:induction false} PiecesAfter(a: string, b: string)
    requires '.' !in a
    ensures Pieces(a + "." + b) == [a] + Pieces(b)
  {
    var s := a + "." + b;
    if a == "" {
      assert s == "." + b && s[1..] == b;
    } else {
      PiecesAfter(a[1..], b);
      assert s[1..] == a[1..] + "." + b;
      assert a == [a[0]] + a[1..];
    }
  }

  lemma {:induction false} PiecesJoin(s: string)
    requires |Pieces(s)| == 2
    ensures s == Pieces(s)[0] + "." + Pieces(s)[1]
  {
    if s != "" {
      var rest := Pieces(s[1..]);
      assert s == [s[0]] + s[1..];
      if s[0] == '.' {
        PiecesOfPlain(s[1..]);
        assert "" + "." + s[1..] == s;
      } else {
        PiecesJoin(s[1..]);
        assert ([s[0]] + rest[0]) + "." + rest[1] == [s[0]] + (rest[0] + "." + rest[1]);
      }
    }
  }

  /** A printed port parses back exactly when its contract's name has no dot, and
      only a port's printed form parses to it. */
  lemma PortsRoundTrip(p: Port, s: string)
    ensures ParsePort(ShowPort(p)) == Some(p) <==> (p.WasmPort? ==> '.' !in p.contract)
    ensures ParsePort(s) == Some(p) ==> s == ShowPort(p)
  {
    if p.WasmPort? {
      PiecesAfter("wasm", p.contract);
      assert ShowPort(p) == "wasm" + "." + p.contract;
      PiecesOfPlain(p.contract);
      assert ShowPort(p)[0] == 'w';
    }
    if ParsePort(s) == Some(p) && p.WasmPort? {
      PiecesJoin(s);
      assert "wasm" + "." + p.contract == ShowPort(p);
    }
  }
}
