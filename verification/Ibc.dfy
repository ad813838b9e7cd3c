/**
 One chain's IBC module and the ICS-020 application behind its `transfer`
 port: what every message does to connections, channels, packets and the bank.
 */
module Ibc {
  import opened Bytes
  import opened Bank
  import opened Results

  type Addr = bytes

  /** A channel identifier: the number behind `channel-`, or the empty string of
      a counterparty that has not opened its end yet. */
  datatype ChannelId = Unnamed | Channel(number: nat)

  datatype Endpoint = Endpoint(port: string, channel: ChannelId)

  datatype Ordering = Ordered | Unordered

  datatype Connection = Connection(remoteChain: string, remote: Option<nat>)

  datatype HandshakeState = Init | Try | Ack | Confirm

  datatype Handshake = Handshake(
    connection: nat, remote: Endpoint, state: HandshakeState, order: Ordering, version: string)

  /** `ChannelInfo`, kept under its local endpoint. */
  datatype ChannelInfo = ChannelInfo(
    next: nat, remote: Endpoint, order: Ordering, version: string, connection: nat, open: bool)

  /** Packet data: an ICS-020 transfer, or anything else. */
  datatype Payload = Transfer20(denom: Denom, amount: nat, sender: Addr, receiver: Addr) | Raw(data: bytes)

  datatype Timeout = Timeout(height: Option<nat>, time: Option<nat>)

  datatype Packet = Packet(data: Payload, src: Endpoint, dest: Endpoint, sequence: nat, timeout: Timeout)

  datatype PacketId = PacketId(at: Endpoint, sequence: nat)

  datatype Receipt = Receipt(packet: Packet, timedOut: bool)

  datatype Voucher = Voucher(channel: ChannelId, original: Denom)

  /** Connections, the next channel number of each port, and channels before and
      after they are connected. */
  datatype Registry = Registry(
    connections: map<nat, Connection>,
    ports: map<string, nat>,
    handshakes: map<Endpoint, Handshake>,
    channels: map<Endpoint, ChannelInfo>)

  /** Packets sent from here, by what became of them, and packets received here. */
  datatype Mail = Mail(
    sent: map<PacketId, Packet>,
    acked: map<PacketId, bytes>,
    timedOut: set<PacketId>,
    received: map<PacketId, Receipt>,
    acks: map<PacketId, Option<bytes>>)

  datatype Vault = Vault(ledger: Ledger<Addr>, vouchers: map<Denom, Voucher>)

  datatype Chain = Chain(net: Registry, mail: Mail, vault: Vault, height: nat, time: nat) {
    const connections: map<nat, Connection> := net.connections
    const ports: map<string, nat> := net.ports
    const handshakes: map<Endpoint, Handshake> := net.handshakes
    const channels: map<Endpoint, ChannelInfo> := net.channels
    const sent: map<PacketId, Packet> := mail.sent
    const acked: map<PacketId, bytes> := mail.acked
    const timedOut: set<PacketId> := mail.timedOut
    const received: map<PacketId, Receipt> := mail.received
    const acks: map<PacketId, Option<bytes>> := mail.acks
    const ledger: Ledger<Addr> := vault.ledger
    const vouchers: map<Denom, Voucher> := vault.vouchers
  }

  /** The denomination hash, the address rules, the lock account, and the bank's
      success acknowledgement. */
  datatype Env = Env(
    wrap: (ChannelId, Denom) -> Denom,
    valid: Addr -> bool,
    lock: Addr,
    success: bytes)

  /** What the contract behind a `wasm.` port answers. */
  datatype Reply = Reply(ok: bool, version: Option<string>, ack: Option<bytes>)

  // ---- Ports ----

  datatype Port = BankPort | WasmPort(contract: string)

  const BANK_PORT: string := "transfer"

  function ShowPort(p: Port): string {
    match p
    case BankPort => BANK_PORT
    case WasmPort(c) => "wasm." + c
  }

  /** The pieces between the dots; always at least one. */
  function Pieces(s: string): (r: seq<string>)
    ensures |r| >= 1
  {
    if s == "" then [""]
    else
      var rest := Pieces(s[1..]);
      if s[0] == '.' then [""] + rest else [[s[0]] + rest[0]] + rest[1..]
  }

  function ParsePort(s: string): Option<Port> {
    if s == BANK_PORT then Some(BankPort)
    else
      var pieces := Pieces(s);
      if |pieces| == 2 && pieces[0] == "wasm" then Some(WasmPort(pieces[1])) else None
  }

  // ---- Connections and channels ----

  function NextChannel(c: Chain, port: string): nat { if port in c.ports then c.ports[port] else 0 }

  /** The connection's identifier comes with the new state. */
  function CreateConnection(c: Chain, remoteChain: string, id: Option<nat>, remote: Option<nat>): Result<(nat, Chain)> {
    if id.Some? && id.value !in c.connections then Refused
    else
      var id' := if id.Some? then id.value else |c.connections|;
      var found := if id.Some? then c.connections[id.value] else Connection(remoteChain, None);
      if found.remoteChain != remoteChain then Refused
      else
        var saved := if remote.Some? then found.(remote := remote) else found;
        Ok((id', c.(net := c.net.(connections := c.connections[id' := saved]))))
  }

  /** `None` when the application behind the port fails. */
  function OpenReply(port: Port, reply: Reply): Option<Option<string>> {
    if port.BankPort? then Some(None) else if reply.ok then Some(reply.version) else None
  }

  /** The new channel's identifier and its version come with the new state. */
  function OpenChannel(c: Chain, connection: nat, port: string, version: string, order: Ordering,
                       remote: Endpoint, remoteVersion: Option<string>, reply: Reply)
    : Result<(ChannelId, string, Chain)>
  {
    if connection !in c.connections then Refused
    else if ParsePort(port).None? then Refused
    else
      var n := NextChannel(c, port);
      var answer := OpenReply(ParsePort(port).value, reply);
      if answer.None? then Refused
      else
        var agreed := if answer.value.Some? then answer.value.value else version;
        var h := Handshake(connection, remote, if remoteVersion.Some? then Try else Init, order, agreed);
        Ok((Channel(n), agreed,
            c.(net := c.net.(ports := c.ports[port := n + 1],
                             handshakes := c.handshakes[Endpoint(port, Channel(n)) := h]))))
  }

  predicate Accepts(port: string, reply: Reply) {
    ParsePort(port).Some? && (ParsePort(port).value.WasmPort? ==> reply.ok)
  }

  function ConnectChannel(c: Chain, at: Endpoint, remote: Endpoint, remoteVersion: Option<string>, reply: Reply)
    : Result<Chain>
  {
    if at !in c.handshakes then Refused
    else
      var h := c.handshakes[at];
      if h.state != Try && h.state != Init then Refused
      else if remoteVersion.None? then Panicked
      else if !Accepts(at.port, reply) then Refused
      else
        var info := ChannelInfo(1, remote, h.order, remoteVersion.value, h.connection, true);
        Ok(c.(net := c.net.(handshakes := c.handshakes - {at}, channels := c.channels[at := info])))
  }

  function CloseChannel(c: Chain, at: Endpoint, reply: Reply): Result<Chain> {
    if at !in c.channels || !Accepts(at.port, reply) then Refused
    else Ok(c.(net := c.net.(channels := c.channels[at := c.channels[at].(open := false)])))
  }

  // ---- Packets ----

  /** The packet's sequence comes with the new state. Nothing looks at `open`. */
  function SendPacket(c: Chain, at: Endpoint, data: Payload, timeout: Timeout): Result<(nat, Chain)> {
    if at !in c.channels then Refused
    else
      var info := c.channels[at];
      var packet := Packet(data, at, info.remote, info.next, timeout);
      Ok((info.next, c.(mail := c.mail.(sent := c.sent[PacketId(at, info.next) := packet]),
                        net := c.net.(channels := c.channels[at := info.(next := info.next + 1)]))))
  }

  predicate HasPassed(t: Timeout, height: nat, time: nat) {
    (t.height.Some? && height >= t.height.value) || (t.time.Some? && time >= t.time.value)
  }

  /** Received too late, closing the channel or not, or received and acknowledged. */
  datatype Delivery = Late(closes: bool) | Acknowledged(ack: Option<bytes>)

  function ReceivePacket(e: Env, c: Chain, packet: Packet, reply: Reply): Result<(Delivery, Chain)> {
    var id := PacketId(packet.dest, packet.sequence);
    if packet.dest !in c.channels || id in c.received then Refused
    else
      var info, late := c.channels[packet.dest], HasPassed(packet.timeout, c.height, c.time);
      var c1 := c.(mail := c.mail.(received := c.received[id := Receipt(packet, late)]));
      if late then
        if info.order == Unordered then Ok((Late(false), c1))
        else
          var c2 :- CloseChannel(c1, packet.dest, reply);
          Ok((Late(true), c2))
      else if ParsePort(packet.dest.port).None? then Refused
      else if ParsePort(packet.dest.port).value.BankPort? then
        var c2 :- BankReceive(e, c1, packet);
        Ok((Acknowledged(Some(e.success)), c2.(mail := c2.mail.(acks := c2.acks[id := Some(e.success)]))))
      else if !reply.ok then Refused
      else Ok((Acknowledged(reply.ack), c1.(mail := c1.mail.(acks := c1.acks[id := reply.ack]))))
  }

  function AcknowledgePacket(c: Chain, packet: Packet, ack: bytes, reply: Reply): Result<Chain> {
    var id := PacketId(packet.src, packet.sequence);
    if packet.src !in c.channels || id !in c.sent || id in c.acked || id in c.timedOut then Refused
    else if !Accepts(packet.src.port, reply) then Refused
    else if packet.src.port == BANK_PORT && packet.data.Raw? then Refused
    else Ok(c.(mail := c.mail.(acked := c.acked[id := ack])))
  }

  function TimeoutPacket(e: Env, c: Chain, packet: Packet, reply: Reply): Result<Chain> {
    var id := PacketId(packet.src, packet.sequence);
    if packet.src !in c.channels || id in c.acked || id in c.timedOut || id !in c.sent then Refused
    else
      var c1 := c.(mail := c.mail.(timedOut := c.timedOut + {id}));
      if packet.src.port == BANK_PORT then BankTimeout(e, c1, c.sent[id])
      else if !Accepts(packet.src.port, reply) then Refused
      else Ok(c1)
  }

  // ---- The bank behind the transfer port ----

  function Locked(e: Env, c: Chain, d: Denom): Option<Coin> { Find(BalanceOf(c.ledger, e.lock), d) }

  function Unlock(e: Env, c: Chain, to: Addr, d: Denom, amount: nat): Result<Chain> {
    if !e.valid(to) then Refused
    else
      match Send(c.ledger, e.lock, to, [Coin(d, amount)])
      case None => Refused
      case Some(l) => Ok(c.(vault := c.vault.(ledger := l)))
  }

  /** A denomination found in the lock account comes home; any other arrives as a
      voucher. */
  function BankReceive(e: Env, c: Chain, packet: Packet): Result<Chain> {
    if packet.data.Raw? then Refused
    else
      var t, locked := packet.data, Locked(e, c, packet.data.denom);
      if locked.Some? then
        if locked.value.amount < t.amount then Panicked else Unlock(e, c, t.receiver, t.denom, t.amount)
      else if !e.valid(t.receiver) then Refused
      else
        var local := e.wrap(packet.dest.channel, t.denom);
        match Mint(c.ledger, t.receiver, [Coin(local, t.amount)])
        case None => Refused
        case Some(l) =>
          var v := Voucher(packet.dest.channel, t.denom);
          Ok(c.(vault := c.vault.(ledger := l, vouchers := c.vouchers[local := v])))
  }

  function BankTimeout(e: Env, c: Chain, packet: Packet): Result<Chain> {
    if packet.data.Raw? then Refused
    else
      var t, locked := packet.data, Locked(e, c, packet.data.denom);
      if locked.None? then Refused
      else if locked.value.amount < t.amount then Panicked
      else Unlock(e, c, t.sender, t.denom, t.amount)
  }

  /** The denomination a packet names for a coin leaving on `channel`. */
  function Unwrapped(c: Chain, d: Denom, channel: ChannelId): Denom {
    if d in c.vouchers && c.vouchers[d].channel == channel then c.vouchers[d].original else d
  }

  function Transfer(e: Env, c: Chain, sender: Addr, channel: ChannelId, to: Addr, coin: Coin, timeout: Timeout)
    : Result<(nat, Chain)>
  {
    match Send(c.ledger, sender, e.lock, [coin])
    case None => Refused
    case Some(l) =>
      SendPacket(c.(vault := c.vault.(ledger := l)), Endpoint(BANK_PORT, channel),
                 Transfer20(Unwrapped(c, coin.denom, channel), coin.amount, sender, to), timeout)
  }

  // ---- Every message a chain takes ----

  datatype Msg =
    | ConnectionMsg(remoteChain: string, id: Option<nat>, remoteConnection: Option<nat>)
    | OpenMsg(connection: nat, port: string, version: string, order: Ordering, remote: Endpoint,
              remoteVersion: Option<string>, reply: Reply)
    | ConnectMsg(at: Endpoint, remote: Endpoint, remoteVersion: Option<string>, reply: Reply)
    | CloseMsg(at: Endpoint, reply: Reply)
    | SendMsg(at: Endpoint, data: Payload, timeout: Timeout)
    | ReceiveMsg(packet: Packet, reply: Reply)
    | AcknowledgeMsg(packet: Packet, ack: bytes, reply: Reply)
    | TimeoutMsg(packet: Packet, reply: Reply)
    | TransferMsg(sender: Addr, channel: ChannelId, to: Addr, coin: Coin, timeout: Timeout)
    | PayMsg(sender: Addr, to: Addr, coins: seq<Coin>)
    | MintMsg(to: Addr, coins: seq<Coin>)
    | BlockMsg(heights: nat, elapsed: nat)

  function Handle(e: Env, c: Chain, m: Msg): Result<Chain> {
    match m
    case ConnectionMsg(remoteChain, id, remote) => var r :- CreateConnection(c, remoteChain, id, remote); Ok(r.1)
    case OpenMsg(connection, port, version, order, remote, remoteVersion, reply) =>
      var r :- OpenChannel(c, connection, port, version, order, remote, remoteVersion, reply); Ok(r.2)
    case ConnectMsg(at, remote, remoteVersion, reply) => ConnectChannel(c, at, remote, remoteVersion, reply)
    case CloseMsg(at, reply) => CloseChannel(c, at, reply)
    case SendMsg(at, data, timeout) => var r :- SendPacket(c, at, data, timeout); Ok(r.1)
    case ReceiveMsg(packet, reply) => var r :- ReceivePacket(e, c, packet, reply); Ok(r.1)
    case AcknowledgeMsg(packet, ack, reply) => AcknowledgePacket(c, packet, ack, reply)
    case TimeoutMsg(packet, reply) => TimeoutPacket(e, c, packet, reply)
    case TransferMsg(sender, channel, to, coin, timeout) =>
      var r :- Transfer(e, c, sender, channel, to, coin, timeout); Ok(r.1)
    case PayMsg(sender, to, coins) =>
      (match Send(c.ledger, sender, to, coins)
       case None => Refused
       case Some(l) => Ok(c.(vault := c.vault.(ledger := l))))
    case MintMsg(to, coins) =>
      (match Mint(c.ledger, to, coins) case None => Refused case Some(l) => Ok(c.(vault := c.vault.(ledger := l))))
    case BlockMsg(heights, elapsed) => Ok(c.(height := c.height + heights, time := c.time + elapsed))
  }

  /** A failed message is rolled back. */
  function Handled(e: Env, c: Chain, m: Msg): Chain {
    var r := Handle(e, c, m);
    if r.Ok? then r.value else c
  }
}
