/**
 The IBC module as it runs: every message loads, updates and saves storage in
 place, the application behind the port is called in between, and a failed
 message is rolled back. Every method is proved to do what `Ibc` says.
 */
module IbcModule {
  import opened Bytes
  import opened Bank
  import opened Results
  import opened Ibc

  datatype Outcome = Done | Error | Panic

  ghost predicate Agrees<T>(out: Outcome, expected: Result<T>) {
    match expected
    case Ok(_) => out.Done?
    case Refused => out.Error?
    case Panicked => out.Panic?
  }

  class IbcApp {
    const env: Env
    var connections: map<nat, Connection>
    var ports: map<string, nat>
    var handshakes: map<Endpoint, Handshake>
    var channels: map<Endpoint, ChannelInfo>
    var sent: map<PacketId, Packet>
    var acked: map<PacketId, bytes>
    var timedOut: set<PacketId>
    var received: map<PacketId, Receipt>
    var acks: map<PacketId, Option<bytes>>
    var ledger: Ledger<Addr>
    var vouchers: map<Denom, Voucher>
    var height: nat
    var time: nat

    function Snapshot(): Chain
      reads this
    {
      Chain(Registry(connections, ports, handshakes, channels), Mail(sent, acked, timedOut, received, acks),
            Vault(ledger, vouchers), height, time)
    }

    constructor (env: Env, ledger: Ledger<Addr>, height: nat, time: nat)
      ensures this.env == env
      ensures Snapshot() == Chain(Registry(map[], map[], map[], map[]), Mail(map[], map[], {}, map[], map[]),
                                  Vault(ledger, map[]), height, time)
    {
      this.env, this.ledger, this.height, this.time := env, ledger, height, time;
      connections, ports, handshakes, channels := map[], map[], map[], map[];
      sent, acked, timedOut, received, acks, vouchers := map[], map[], {}, map[], map[], map[];
    }

    method RestoreChannels(c: Chain)
      modifies this`connections, this`ports, this`handshakes, this`channels, this`ledger, this`vouchers
      ensures connections == c.connections && ports == c.ports && handshakes == c.handshakes && channels == c.channels
      ensures ledger == c.ledger && vouchers == c.vouchers
    {
      connections, ports, handshakes, channels := c.connections, c.ports, c.handshakes, c.channels;
      ledger, vouchers := c.ledger, c.vouchers;
    }

    method RestorePackets(c: Chain)
      modifies this`sent, this`acked, this`timedOut, this`received, this`acks, this`height, this`time
      ensures sent == c.sent && acked == c.acked && timedOut == c.timedOut && received == c.received && acks == c.acks
      ensures height == c.height && time == c.time
    {
      sent, acked, timedOut, received, acks := c.sent, c.acked, c.timedOut, c.received, c.acks;
      height, time := c.height, c.time;
    }

    /** Back to a saved state. */
    method Restore(c: Chain)
      modifies this
      ensures Snapshot() == c
    {
      RestoreChannels(c);
      RestorePackets(c);
    }

    method CreateConnection(remoteChain: string, id: Option<nat>, remote: Option<nat>) returns (out: Outcome, n: nat)
      modifies this
      ensures Agrees(out, Ibc.CreateConnection(old(Snapshot()), remoteChain, id, remote))
      ensures out.Done? ==> Ibc.CreateConnection(old(Snapshot()), remoteChain, id, remote) == Ok((n, Snapshot()))
    {
      n := 0;
      var data;
      if id.Some? {
        if id.value !in connections { return Error, 0; }
        n, data := id.value, connections[id.value];
      } else {
        n, data := |connections|, Connection(remoteChain, None);
      }
      if data.remoteChain != remoteChain { return Error, 0; }
      if remote.Some? { data := data.(remote := remote); }
      connections := connections[n := data];
      return Done, n;
    }

    method OpenChannel(connection: nat, port: string, version: string, order: Ordering, remote: Endpoint,
                       remoteVersion: Option<string>, reply: Reply)
      returns (out: Outcome, channel: ChannelId, agreed: string)
      modifies this
      ensures var r := Ibc.OpenChannel(old(Snapshot()), connection, port, version, order, remote, remoteVersion, reply);
        Agrees(out, r) && (out.Done? ==> r == Ok((channel, agreed, Snapshot())))
    {
      channel, agreed := Unnamed, version;
      if connection !in connections { return Error, channel, agreed; }
      var parsed := ParsePort(port);
      if parsed.None? { return Error, channel, agreed; }
      var n := if port in ports then ports[port] else 0;
      ports := ports[port := n + 1];
      channel := Channel(n);
      var state := if remoteVersion.Some? then Try else Init;
      if parsed.value.WasmPort? {
        if !reply.ok { return Error, channel, agreed; }
        if reply.version.Some? { agreed := reply.version.value; }
      }
      handshakes := handshakes[Endpoint(port, channel) := Handshake(connection, remote, state, order, agreed)];
      return Done, channel, agreed;
    }

    method ConnectChannel(at: Endpoint, remote: Endpoint, remoteVersion: Option<string>, reply: Reply)
      returns (out: Outcome)
      modifies this
      ensures Agrees(out, Ibc.ConnectChannel(old(Snapshot()), at, remote, remoteVersion, reply))
      ensures out.Done? ==> Ibc.ConnectChannel(old(Snapshot()), at, remote, remoteVersion, reply) == Ok(Snapshot())
      ensures out.Done? ==> at !in handshakes && at in channels && channels[at].open && channels[at].remote == remote
    {
      if at !in handshakes { return Error; }
      var h := handshakes[at];
      if h.state != Try && h.state != Init { return Error; }
      if remoteVersion.None? { return Panic; }
      handshakes := handshakes - {at};
      channels := channels[at := ChannelInfo(1, remote, h.order, remoteVersion.value, h.connection, true)];
      if !Accepts(at.port, reply) { return Error; }
      return Done;
    }

    method CloseChannel(at: Endpoint, reply: Reply) returns (out: Outcome)
      modifies this`channels
      ensures Agrees(out, Ibc.CloseChannel(old(Snapshot()), at, reply))
      ensures out.Done? ==> Ibc.CloseChannel(old(Snapshot()), at, reply) == Ok(Snapshot())
      ensures out.Done? ==> at in channels && !channels[at].open
    {
      if at !in channels { return Error; }
      channels := channels[at := channels[at].(open := false)];
      if !Accepts(at.port, reply) { return Error; }
      return Done;
    }

    method SendPacket(at: Endpoint, data: Payload, timeout: Timeout) returns (out: Outcome, sequence: nat)
      modifies this`sent, this`channels
      ensures Agrees(out, Ibc.SendPacket(old(Snapshot()), at, data, timeout))
      ensures out.Done? ==> Ibc.SendPacket(old(Snapshot()), at, data, timeout) == Ok((sequence, Snapshot()))
      ensures out.Done? ==> at in channels && PacketId(at, sequence) in sent && channels[at].next == sequence + 1
    {
      if at !in channels { return Error, 0; }
      var info := channels[at];
      sequence := info.next;
      sent := sent[PacketId(at, info.next) := Packet(data, at, info.remote, info.next, timeout)];
      info := info.(next := info.next + 1);
      channels := channels[at := info];
      return Done, sequence;
    }

    method Unlock(to: Addr, d: Denom, amount: nat) returns (out: Outcome)
      modifies this`ledger
      ensures Agrees(out, Ibc.Unlock(env, old(Snapshot()), to, d, amount))
      ensures out.Done? ==> Ibc.Unlock(env, old(Snapshot()), to, d, amount) == Ok(Snapshot())
    {
      if !env.valid(to) { return Error; }
      var l := Send(ledger, env.lock, to, [Coin(d, amount)]);
      if l.None? { return Error; }
      ledger := l.value;
      return Done;
    }

    method BankReceive(packet: Packet) returns (out: Outcome)
      modifies this`ledger, this`vouchers
      ensures Agrees(out, Ibc.BankReceive(env, old(Snapshot()), packet))
      ensures out.Done? ==> Ibc.BankReceive(env, old(Snapshot()), packet) == Ok(Snapshot())
    {
      if packet.data.Raw? { return Error; }
      var t := packet.data;
      var locked := Find(BalanceOf(ledger, env.lock), t.denom);
      if locked.Some? {
        if locked.value.amount < t.amount { return Panic; }
        out := Unlock(t.receiver, t.denom, t.amount);
      } else {
        var local := env.wrap(packet.dest.channel, t.denom);
        vouchers := vouchers[local := Voucher(packet.dest.channel, t.denom)];
        if !env.valid(t.receiver) { return Error; }
        var l := Mint(ledger, t.receiver, [Coin(local, t.amount)]);
        if l.None? { return Error; }
        ledger := l.value;
        return Done;
      }
    }

    method BankTimeout(packet: Packet) returns (out: Outcome)
      modifies this`ledger
      ensures Agrees(out, Ibc.BankTimeout(env, old(Snapshot()), packet))
      ensures out.Done? ==> Ibc.BankTimeout(env, old(Snapshot()), packet) == Ok(Snapshot())
    {
      if packet.data.Raw? { return Error; }
      var t := packet.data;
      var locked := Find(BalanceOf(ledger, env.lock), t.denom);
      if locked.None? { return Error; }
      if locked.value.amount < t.amount { return Panic; }
      out := Unlock(t.sender, t.denom, t.amount);
    }

    method ReceivePacket(packet: Packet, reply: Reply) returns (out: Outcome, delivery: Delivery)
      modifies this
      ensures Agrees(out, Ibc.ReceivePacket(env, old(Snapshot()), packet, reply))
      ensures out.Done? ==> Ibc.ReceivePacket(env, old(Snapshot()), packet, reply) == Ok((delivery, Snapshot()))
      ensures PacketId(packet.dest, packet.sequence) in old(received) ==> out.Error?
      ensures out.Done? ==> var id := PacketId(packet.dest, packet.sequence);
        && received == old(received)[id := Receipt(packet, delivery.Late?)]
        && acks == (if delivery.Late? then old(acks) else old(acks)[id := delivery.ack])
        && (delivery == Late(true) ==> !channels[packet.dest].open)
        && (delivery.Late? <==>
              || (packet.timeout.height.Some? && packet.timeout.height.value <= old(height))
              || (packet.timeout.time.Some? && packet.timeout.time.value <= old(time)))
      ensures out.Done? && delivery.Late? ==> ledger == old(ledger) && vouchers == old(vouchers) && acks == old(acks)
    {
      delivery := Late(false);
      var id := PacketId(packet.dest, packet.sequence);
      if packet.dest !in channels { return Error, delivery; }
      var info := channels[packet.dest];
      if id in received { return Error, delivery; }
      var late := false;
      if packet.timeout.height.Some? && height >= packet.timeout.height.value { late := true; }
      if packet.timeout.time.Some? && time >= packet.timeout.time.value { late := true; }
      received := received[id := Receipt(packet, late)];
      if late {
        if info.order == Ordered {
          out := CloseChannel(packet.dest, reply);
          return out, Late(true);
        }
        return Done, Late(false);
      }
      var port := ParsePort(packet.dest.port);
      if port.None? { return Error, delivery; }
      var ack := Some(env.success);
      if port.value.BankPort? {
        out := BankReceive(packet);
        if !out.Done? { return; }
      } else {
        if !reply.ok { return Error, delivery; }
        ack := reply.ack;
      }
      acks := acks[id := ack];
      return Done, Acknowledged(ack);
    }

    method AcknowledgePacket(packet: Packet, ack: bytes, reply: Reply) returns (out: Outcome)
      modifies this
      ensures Agrees(out, Ibc.AcknowledgePacket(old(Snapshot()), packet, ack, reply))
      ensures out.Done? ==> Ibc.AcknowledgePacket(old(Snapshot()), packet, ack, reply) == Ok(Snapshot())
      ensures out.Done? ==> var id := PacketId(packet.src, packet.sequence);
        id in sent && id !in old(acked) && id !in timedOut && acked == old(acked)[id := ack]
    {
      var id := PacketId(packet.src, packet.sequence);
      if packet.src !in channels || id !in sent { return Error; }
      if id in acked || id in timedOut { return Error; }
      acked := acked[id := ack];
      if !Accepts(packet.src.port, reply) || (packet.src.port == BANK_PORT && packet.data.Raw?) { return Error; }
      return Done;
    }

    method TimeoutPacket(packet: Packet, reply: Reply) returns (out: Outcome)
      modifies this
      ensures Agrees(out, Ibc.TimeoutPacket(env, old(Snapshot()), packet, reply))
      ensures out.Done? ==> Ibc.TimeoutPacket(env, old(Snapshot()), packet, reply) == Ok(Snapshot())
      ensures out.Done? ==> var id := PacketId(packet.src, packet.sequence);
        id in sent && id !in acked && id !in old(timedOut) && timedOut == old(timedOut) + {id}
    {
      var id := PacketId(packet.src, packet.sequence);
      if packet.src !in channels || id in acked || id in timedOut { return Error; }
      timedOut := timedOut + {id};
      if id !in sent { return Error; }
      if packet.src.port == BANK_PORT {
        out := BankTimeout(sent[id]);
        return;
      }
      if !Accepts(packet.src.port, reply) { return Error; }
      return Done;
    }

    method Transfer(sender: Addr, channel: ChannelId, to: Addr, coin: Coin, timeout: Timeout)
      returns (out: Outcome, sequence: nat)
      modifies this
      ensures Agrees(out, Ibc.Transfer(env, old(Snapshot()), sender, channel, to, coin, timeout))
      ensures out.Done? ==>
        Ibc.Transfer(env, old(Snapshot()), sender, channel, to, coin, timeout) == Ok((sequence, Snapshot()))
    {
      var l := Send(ledger, sender, env.lock, [coin]);
      if l.None? { return Error, 0; }
      ledger := l.value;
      var denom := coin.denom;
      if denom in vouchers && vouchers[denom].channel == channel { denom := vouchers[denom].original; }
      out, sequence := SendPacket(Endpoint(BANK_PORT, channel), Transfer20(denom, coin.amount, sender, to), timeout);
    }

    /** The ledger a bank message leaves, if it goes through. */
    method Store(l: Option<Ledger<Addr>>) returns (out: Outcome)
      modifies this`ledger
      ensures out == (if l.Some? then Done else Error) && ledger == (if l.Some? then l.value else old(ledger))
    {
      if l.None? { return Error; }
      ledger := l.value;
      return Done;
    }

    /** The messages of the connection and channel handshakes. */
    method DispatchHandshake(m: Msg) returns (out: Outcome)
      requires m.ConnectionMsg? || m.OpenMsg? || m.ConnectMsg? || m.CloseMsg?
      modifies this
      ensures Agrees(out, Handle(env, old(Snapshot()), m))
      ensures out.Done? ==> Handle(env, old(Snapshot()), m) == Ok(Snapshot())
    {
      match m {
        case ConnectionMsg(remoteChain, id, remote) =>
          var n;
          out, n := CreateConnection(remoteChain, id, remote);
        case OpenMsg(connection, port, version, order, remote, remoteVersion, reply) =>
          var channel, agreed;
          out, channel, agreed := OpenChannel(connection, port, version, order, remote, remoteVersion, reply);
        case ConnectMsg(at, remote, remoteVersion, reply) =>
          out := ConnectChannel(at, remote, remoteVersion, reply);
        case CloseMsg(at, reply) =>
          out := CloseChannel(at, reply);
      }
    }

    method Dispatch(m: Msg) returns (out: Outcome)
      modifies this
      ensures Agrees(out, Handle(env, old(Snapshot()), m))
      ensures out.Done? ==> Handle(env, old(Snapshot()), m) == Ok(Snapshot())
    {
      match m {
        case SendMsg(at, data, timeout) =>
          var sequence;
          out, sequence := SendPacket(at, data, timeout);
        case ReceiveMsg(packet, reply) =>
          var delivery;
          out, delivery := ReceivePacket(packet, reply);
        case AcknowledgeMsg(packet, ack, reply) =>
          out := AcknowledgePacket(packet, ack, reply);
        case TimeoutMsg(packet, reply) =>
          out := TimeoutPacket(packet, reply);
        case TransferMsg(sender, channel, to, coin, timeout) =>
          var sequence;
          out, sequence := Transfer(sender, channel, to, coin, timeout);
        case PayMsg(sender, to, coins) =>
          out := Store(Send(ledger, sender, to, coins));
        case MintMsg(to, coins) =>
          out := Store(Mint(ledger, to, coins));
        case BlockMsg(heights, elapsed) =>
          height, time := height + heights, time + elapsed;
          out := Done;
        case _ =>
          out := DispatchHandshake(m);
      }
    }

    /** A message as the application takes it: all or nothing. */
    method Sudo(m: Msg) returns (out: Outcome)
      modifies this
      ensures Agrees(out, Handle(env, old(Snapshot()), m))
      ensures Snapshot() == Handled(env, old(Snapshot()), m)
    {
      var before := Snapshot();
      out := Dispatch(m);
      if !out.Done? { Restore(before); }
    }

    // The same for messages whose events the relayer reads.

    method SudoConnection(remoteChain: string, id: Option<nat>, remote: Option<nat>) returns (out: Outcome, n: nat)
      modifies this
      ensures var r := Ibc.CreateConnection(old(Snapshot()), remoteChain, id, remote);
        Agrees(out, r) && if r.Ok? then r.value == (n, Snapshot()) else Snapshot() == old(Snapshot())
    {
      var before := Snapshot();
      out, n := CreateConnection(remoteChain, id, remote);
      if !out.Done? { Restore(before); }
    }

    method SudoOpen(connection: nat, port: string, version: string, order: Ordering, remote: Endpoint,
                    remoteVersion: Option<string>, reply: Reply)
      returns (out: Outcome, channel: ChannelId, agreed: string)
      modifies this
      ensures var r := Ibc.OpenChannel(old(Snapshot()), connection, port, version, order, remote, remoteVersion, reply);
        Agrees(out, r) && if r.Ok? then r.value == (channel, agreed, Snapshot()) else Snapshot() == old(Snapshot())
    {
      var before := Snapshot();
      out, channel, agreed := OpenChannel(connection, port, version, order, remote, remoteVersion, reply);
      if !out.Done? { Restore(before); }
    }

    method SudoReceive(packet: Packet, reply: Reply) returns (out: Outcome, delivery: Delivery)
      modifies this
      ensures var r := Ibc.ReceivePacket(env, old(Snapshot()), packet, reply);
        Agrees(out, r) && if r.Ok? then r.value == (delivery, Snapshot()) else Snapshot() == old(Snapshot())
    {
      var before := Snapshot();
      out, delivery := ReceivePacket(packet, reply);
      if !out.Done? { Restore(before); }
    }
  }
}
