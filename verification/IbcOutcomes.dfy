/**
 What every IBC message needs to go through and what it leaves, field by field:
 above all when a packet counts as late, and that a late one credits nobody.
 */
module IbcOutcomes {
  import opened Bytes
  import opened Bank
  import opened Results
  import opened Ibc
  import opened IbcLaws
  import opened Escrow

  // ---- Ports ----

  /** A contract's port: its name after `wasm.`, with no further dot. */
  ghost predicate WasmAt(port: string) { exists contract: string :: '.' !in contract && port == "wasm." + contract }

  lemma PortIs(port: string)
    ensures ParsePort(port) == Some(BankPort) <==> port == "transfer"
    ensures ParsePort(port).Some? && ParsePort(port).value.WasmPort? <==> WasmAt(port)
  {
    PortsRoundTrip(BankPort, port);
    PortsRoundTrip(BankPort, "transfer");
    if ParsePort(port).Some? && ParsePort(port).value.WasmPort? {
      PortsRoundTrip(ParsePort(port).value, port);
    }
    if WasmAt(port) {
      var contract: string :| '.' !in contract && port == "wasm." + contract;
      PortsRoundTrip(WasmPort(contract), port);
    }
  }

  /** There is an application behind the port, and a contract there agrees. */
  ghost predicate Willing(port: string, reply: Reply) { port == "transfer" || (WasmAt(port) && reply.ok) }

  lemma WillingAccepts(port: string, reply: Reply)
    ensures Accepts(port, reply) <==> Willing(port, reply)
  {
    PortIs(port);
  }

  // ---- Connections and channels ----

  /** A connection is created under the number of those there are, or a known one to the
      same chain gets its counterparty. */
  lemma ConnectionIs(c: Chain, remoteChain: string, id: Option<nat>, remote: Option<nat>)
    ensures var r := CreateConnection(c, remoteChain, id, remote);
      && (r.Ok? <==> id.None? || (id.value in c.connections && c.connections[id.value].remoteChain == remoteChain))
      && r != Panicked
      && (r.Ok? ==>
            var (n, c') := r.value;
            && n == (if id.Some? then id.value else |c.connections|)
            && c' == c.(net := c.net.(connections := c'.connections))
            && c'.connections.Keys == c.connections.Keys + {n}
            && (forall k :: k in c.connections && k != n ==> c'.connections[k] == c.connections[k])
            && c'.connections[n].remoteChain == remoteChain
            && c'.connections[n].remote
               == (if remote.Some? then remote else if id.Some? then c.connections[n].remote else None))
  {
  }

  /** Opening needs a known connection and a willing application. It takes the port's
      next number; a contract may name the version, the bank takes the one proposed;
      and the handshake is stored as first or as answer. */
  lemma OpeningIs(c: Chain, connection: nat, port: string, version: string, order: Ordering, remote: Endpoint,
                  remoteVersion: Option<string>, reply: Reply)
    ensures var r := OpenChannel(c, connection, port, version, order, remote, remoteVersion, reply);
      && (r.Ok? <==> connection in c.connections && Willing(port, reply)) && r != Panicked
      && (r.Ok? ==>
            var (channel, agreed, c') := r.value;
            var n, at := if port in c.ports then c.ports[port] else 0, Endpoint(port, channel);
            && channel == Channel(n) && c'.ports == c.ports[port := n + 1]
            && agreed == (if port != "transfer" && reply.version.Some? then reply.version.value else version)
            && c'.handshakes == c.handshakes[at := Handshake(connection, remote,
                                                             if remoteVersion.Some? then Try else Init, order, agreed)]
            && c' == c.(net := c.net.(ports := c'.ports, handshakes := c'.handshakes)))
  {
    PortIs(port);
  }

  /** Connecting needs a stored handshake, a version and a willing application; without
      a version it panics. */
  lemma ConnectingIs(c: Chain, at: Endpoint, remote: Endpoint, remoteVersion: Option<string>, reply: Reply)
    ensures var r := ConnectChannel(c, at, remote, remoteVersion, reply);
      var open := at in c.handshakes && (c.handshakes[at].state == Init || c.handshakes[at].state == Try);
      && (r.Ok? <==> open && remoteVersion.Some? && Willing(at.port, reply))
      && (r == Panicked <==> open && remoteVersion.None?)
      && (r.Ok? ==>
            var c', h := r.value, c.handshakes[at];
            && c'.handshakes == c.handshakes - {at}
            && c'.channels == c.channels[at := ChannelInfo(1, remote, h.order, remoteVersion.value, h.connection, true)]
            && c' == c.(net := c.net.(handshakes := c'.handshakes, channels := c'.channels)))
  {
    WillingAccepts(at.port, reply);
  }

  lemma ClosingIs(c: Chain, at: Endpoint, reply: Reply)
    ensures var r := CloseChannel(c, at, reply);
      && (r.Ok? <==> at in c.channels && Willing(at.port, reply)) && r != Panicked
      && (r.Ok? ==> r.value == c.(net := c.net.(channels := c.channels[at := c.channels[at].(open := false)])))
  {
    WillingAccepts(at.port, reply);
  }

  // ---- Packets ----

  lemma SendingIs(c: Chain, at: Endpoint, data: Payload, timeout: Timeout)
    ensures var r := SendPacket(c, at, data, timeout);
      && (r.Ok? <==> at in c.channels) && r != Panicked
      && (r.Ok? ==>
            var (n, c'), info := r.value, c.channels[at];
            && n == info.next
            && c'.sent == c.sent[PacketId(at, n) := Packet(data, at, info.remote, n, timeout)]
            && c'.channels == c.channels[at := info.(next := n + 1)]
            && c' == c.(mail := c.mail.(sent := c'.sent), net := c.net.(channels := c'.channels)))
  {
  }

  /** At or past its height, or at or past its time; either bound alone is enough. */
  ghost predicate TooLate(p: Packet, height: nat, time: nat) {
    || (p.timeout.height.Some? && p.timeout.height.value <= height)
    || (p.timeout.time.Some? && p.timeout.time.value <= time)
  }

  /** From either bound on no delivery changes the ledger, the vouchers or the
      acknowledgements: the packet is recorded as late, and that is all, but for an
      ordered channel, which closes if its application agrees. */
  lemma LateDeliveryCreditsNobody(e: Env, c: Chain, p: Packet, reply: Reply)
    requires TooLate(p, c.height, c.time)
    ensures var r, id := ReceivePacket(e, c, p, reply), PacketId(p.dest, p.sequence);
      && r != Panicked
      && (r.Ok? <==>
            && p.dest in c.channels && id !in c.received
            && (c.channels[p.dest].order == Ordered ==> Willing(p.dest.port, reply)))
      && (r.Ok? ==>
            var (delivery, c') := r.value;
            && delivery == Late(c.channels[p.dest].order == Ordered)
            && c'.vault == c.vault && c'.acks == c.acks && c'.received == c.received[id := Receipt(p, true)]
            && c'.channels == (if c.channels[p.dest].order == Unordered then c.channels
                               else c.channels[p.dest := c.channels[p.dest].(open := false)])
            && c' == c.(mail := c.mail.(received := c'.received), net := c.net.(channels := c'.channels)))
  {
    WillingAccepts(p.dest.port, reply);
  }

  /** Before both bounds a delivery is in time: the bank's part or the contract's answer
      decides whether it goes through, and what is acknowledged. */
  lemma DeliveryInTime(e: Env, c: Chain, p: Packet, reply: Reply)
    requires !TooLate(p, c.height, c.time)
    ensures var r, id := ReceivePacket(e, c, p, reply), PacketId(p.dest, p.sequence);
      var unseen, banked := p.dest in c.channels && id !in c.received, BankReceive(e, c, p);
      && (r.Ok? <==> unseen && ((p.dest.port == "transfer" && banked.Ok?) || (WasmAt(p.dest.port) && reply.ok)))
      && (r == Panicked <==> unseen && p.dest.port == "transfer" && banked == Panicked)
      && (r.Ok? ==>
            var (delivery, c') := r.value;
            var ack := if p.dest.port == "transfer" then Some(e.success) else reply.ack;
            && delivery == Acknowledged(ack)
            && c'.received == c.received[id := Receipt(p, false)] && c'.acks == c.acks[id := ack]
            && c'.vault == (if p.dest.port == "transfer" then banked.value.vault else c.vault)
            && c' == c.(mail := c.mail.(received := c'.received, acks := c'.acks), vault := c'.vault))
  {
    PortIs(p.dest.port);
    var c1 := c.(mail := c.mail.(received := c.received[PacketId(p.dest, p.sequence) := Receipt(p, false)]));
    BankingSame(e, c, c1, p);
  }

  /** The bank looks at the vault only. */
  lemma BankingSame(e: Env, c: Chain, c1: Chain, p: Packet)
    requires c1.vault == c.vault
    ensures var r, r1 := BankReceive(e, c, p), BankReceive(e, c1, p);
      && (r.Ok? <==> r1.Ok?) && (r == Panicked <==> r1 == Panicked)
      && (r.Ok? ==> r1.value.vault == r.value.vault && r1.value == c1.(vault := r1.value.vault))
  {
  }

  /** The bank takes transfers only; any other data is an error, arriving or timing out. */
  lemma BankingIsForTransfers(e: Env, c: Chain, p: Packet)
    requires p.data.Raw?
    ensures BankReceive(e, c, p) == Refused && BankTimeout(e, c, p) == Refused
  {
  }

  /** Only a sent packet, not settled yet, is acknowledged, by a willing application that
      can read it. */
  lemma AcknowledgingIs(c: Chain, p: Packet, ack: bytes, reply: Reply)
    ensures var r, id := AcknowledgePacket(c, p, ack, reply), PacketId(p.src, p.sequence);
      && r != Panicked
      && (r.Ok? <==>
            && p.src in c.channels && id in c.sent && id !in c.acked && id !in c.timedOut
            && Willing(p.src.port, reply) && (p.src.port == "transfer" ==> p.data.Transfer20?))
      && (r.Ok? ==> r.value == c.(mail := c.mail.(acked := c.acked[id := ack])))
  {
    WillingAccepts(p.src.port, reply);
  }

  /** Only a sent packet, not settled yet, times out; a contract must agree, and the bank
      refunds what was sent, not what is handed in. */
  lemma TimingOutIs(e: Env, c: Chain, p: Packet, reply: Reply)
    ensures var r, id := TimeoutPacket(e, c, p, reply), PacketId(p.src, p.sequence);
      var open := p.src in c.channels && id in c.sent && id !in c.acked && id !in c.timedOut;
      var paid := if id in c.sent then BankTimeout(e, c, c.sent[id]) else Refused;
      && (r.Ok? <==> open && if p.src.port == "transfer" then paid.Ok? else WasmAt(p.src.port) && reply.ok)
      && (r == Panicked <==> open && p.src.port == "transfer" && paid == Panicked)
      && (r.Ok? ==>
            && r.value.timedOut == c.timedOut + {id}
            && r.value.vault == (if p.src.port == "transfer" then paid.value.vault else c.vault)
            && r.value == c.(mail := c.mail.(timedOut := r.value.timedOut), vault := r.value.vault))
  {
    PortIs(p.src.port);
    WillingAccepts(p.src.port, reply);
  }

  // ---- The chain itself ----

  /** A block moves height and time by just that, and a failed message leaves everything
      as it was. */
  lemma BlockMoves(e: Env, c: Chain, heights: nat, elapsed: nat, m: Msg)
    ensures Handle(e, c, BlockMsg(heights, elapsed))
         == Ok(Chain(c.net, c.mail, c.vault, c.height + heights, c.time + elapsed))
    ensures !Handle(e, c, m).Ok? ==> Handled(e, c, m) == c
    ensures Handle(e, c, m).Ok? ==> Handled(e, c, m) == Handle(e, c, m).value
  {
  }

  /** Of every denomination, what `from` lost and `to` got is what the list says. */
  ghost predicate Moves(l: Ledger<Addr>, l': Ledger<Addr>, from: Addr, to: Addr, cs: seq<Coin>) {
    forall k, d :: Has(l', k, d)
      == Has(l, k, d) - (if k == from then Amount(cs, d) else 0) + (if k == to then Amount(cs, d) else 0)
  }

  /** A payment goes through exactly when it asks for something the sender has, and
      moves just that. */
  lemma PayingMoves(e: Env, c: Chain, sender: Addr, to: Addr, coins: seq<Coin>)
    requires CanonicalLedger(c.ledger)
    ensures var r := Handle(e, c, PayMsg(sender, to, coins));
      && r != Panicked && (r.Ok? <==> Asks(coins) && forall d :: Has(c.ledger, sender, d) >= Amount(coins, d))
      && (r.Ok? ==>
            && r.value == c.(vault := c.vault.(ledger := r.value.ledger)) && CanonicalLedger(r.value.ledger)
            && Moves(c.ledger, r.value.ledger, sender, to, coins))
  {
    AsksIsNonZero(coins);
    SendEffect(c.ledger, sender, to, coins);
  }

  lemma MintingAdds(e: Env, c: Chain, to: Addr, coins: seq<Coin>)
    requires CanonicalLedger(c.ledger)
    ensures var r := Handle(e, c, MintMsg(to, coins));
      && r != Panicked && (r.Ok? <==> Asks(coins))
      && (r.Ok? ==>
            && r.value == c.(vault := c.vault.(ledger := r.value.ledger)) && CanonicalLedger(r.value.ledger)
            && forall k, d :: Has(r.value.ledger, k, d)
                 == Has(c.ledger, k, d) + if k == to then Amount(coins, d) else 0)
  {
    AsksIsNonZero(coins);
    MintEffect(c.ledger, to, coins);
  }

  // ---- Transfers ----

  /** A transfer needs a positive amount the sender has and a connected channel. The
      sender pays the lock account, and the packet names the coin, or what it stands for
      when it is a voucher of that channel. */
  lemma TransferringIs(e: Env, c: Chain, sender: Addr, channel: ChannelId, to: Addr, coin: Coin, timeout: Timeout)
    requires CanonicalLedger(c.ledger)
    ensures var r, at := Transfer(e, c, sender, channel, to, coin, timeout), Endpoint("transfer", channel);
      && (r.Ok? <==> coin.amount > 0 && Has(c.ledger, sender, coin.denom) >= coin.amount && at in c.channels)
      && r != Panicked
      && (r.Ok? ==>
            var (n, c'), info := r.value, c.channels[at];
            var named := if coin.denom in c.vouchers && c.vouchers[coin.denom].channel == channel
                         then c.vouchers[coin.denom].original else coin.denom;
            && n == info.next && MovedOne(c.ledger, c'.ledger, sender, e.lock, coin.denom, coin.amount)
            && c'.sent == c.sent[PacketId(at, n) :=
                 Packet(Transfer20(named, coin.amount, sender, to), at, info.remote, n, timeout)]
            && c'.channels == c.channels[at := info.(next := n + 1)]
            && c' == c.(mail := c.mail.(sent := c'.sent), net := c.net.(channels := c'.channels),
                        vault := c.vault.(ledger := c'.ledger)))
  {
    SendOne(c.ledger, sender, e.lock, coin.denom, coin.amount);
    assert coin == Coin(coin.denom, coin.amount);
  }

  // ---- The message itself ----

  /** What is left of an outcome that comes with more than the new state. */
  ghost function After<T>(r: Result<(T, Chain)>): Result<Chain> {
    match r
    case Ok(x) => Ok(x.1)
    case Refused => Refused
    case Panicked => Panicked
  }

  /** Every message is handed to its own handler, with its own fields. */
  lemma MessageIs(e: Env, c: Chain, at: Endpoint, there: Endpoint, p: Packet, ack: bytes, n: nat, ids: Option<nat>,
                  other: Option<nat>, port: string, text: string, texts: Option<string>, order: Ordering, reply: Reply)
    ensures Handle(e, c, ConnectionMsg(text, ids, other)) == After(CreateConnection(c, text, ids, other))
    ensures Handle(e, c, OpenMsg(n, port, text, order, there, texts, reply))
         == match OpenChannel(c, n, port, text, order, there, texts, reply)
            case Ok(x) => Ok(x.2)
            case Refused => Refused
            case Panicked => Panicked
    ensures Handle(e, c, ConnectMsg(at, there, texts, reply)) == ConnectChannel(c, at, there, texts, reply)
    ensures Handle(e, c, CloseMsg(at, reply)) == CloseChannel(c, at, reply)
    ensures Handle(e, c, SendMsg(at, p.data, p.timeout)) == After(SendPacket(c, at, p.data, p.timeout))
    ensures Handle(e, c, ReceiveMsg(p, reply)) == After(ReceivePacket(e, c, p, reply))
    ensures Handle(e, c, AcknowledgeMsg(p, ack, reply)) == AcknowledgePacket(c, p, ack, reply)
    ensures Handle(e, c, TimeoutMsg(p, reply)) == TimeoutPacket(e, c, p, reply)
  {
  }
}
