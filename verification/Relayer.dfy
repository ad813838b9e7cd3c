/**
 The relayer: the message sequences that open a connection and a channel
 between two applications and carry packets and their outcomes.
 */
module Relayer {
  import opened Bytes
  import opened Ibc
  import opened IbcLaws
  import opened IbcModule
  import opened IbcWorld

  /** `create_connection` */
  method ConnectChains(a: IbcApp, b: IbcApp, chainA: string, chainB: string) returns (out: Outcome, onA: nat, onB: nat)
    requires a != b && NetFine(a.Snapshot().net) && NetFine(b.Snapshot().net)
    modifies a, b
    ensures out.Done?
    ensures onA !in old(a.connections) && a.connections == old(a.connections)[onA := Connection(chainB, Some(onB))]
    ensures onB !in old(b.connections) && b.connections == old(b.connections)[onB := Connection(chainA, Some(onA))]
  {
    onB := 0;
    out, onA := a.SudoConnection(chainB, None, None);
    out, onB := b.SudoConnection(chainA, None, Some(onA));
    var again;
    out, again := a.SudoConnection(chainB, Some(onA), Some(onB));
  }

  /** The applications' answers to the four steps of a handshake. */
  datatype Answers = Answers(init: Reply, try: Reply, ack: Reply, confirm: Reply)

  ghost predicate Follows(c: Chain, c': Chain) { Fine(c') && Evolves(c, c') }

  /** A handshake at one end: `Init` for the first, `Try` for the one that answers. */
  method OpenEnd(a: IbcApp, connection: nat, port: string, version: string, order: Ordering,
                 remote: Endpoint, remoteVersion: Option<string>, reply: Reply)
    returns (out: Outcome, at: Endpoint, agreed: string)
    requires Fine(a.Snapshot())
    modifies a
    ensures Follows(old(a.Snapshot()), a.Snapshot())
    ensures out.Done? ==>
      && at.port == port && at in a.handshakes && a.handshakes[at].order == order
      && a.handshakes[at].state == (if remoteVersion.None? then Init else Try)
      && !Issued(old(a.ports), at) && connection in a.connections
  {
    ghost var a0 := a.Snapshot();
    var channel;
    at := Endpoint(port, Unnamed);
    out, channel, agreed := a.SudoOpen(connection, port, version, order, remote, remoteVersion, reply);
    if !out.Done? { return; }
    OpenSteps(a0, connection, port, version, order, remote, remoteVersion, reply);
    at := Endpoint(port, channel);
  }

  /** The first two steps: a handshake at each end. */
  method OpenEnds(a: IbcApp, b: IbcApp, connection: nat, portA: string, portB: string, version: string,
                  order: Ordering, answers: Answers)
    returns (out: Outcome, atA: Endpoint, atB: Endpoint, agreed: string)
    requires a != b && Fine(a.Snapshot()) && Fine(b.Snapshot())
    modifies a, b
    ensures Follows(old(a.Snapshot()), a.Snapshot()) && Follows(old(b.Snapshot()), b.Snapshot())
    ensures out.Done? ==>
      && atA.port == portA && atA in a.handshakes && a.handshakes[atA].order == order && a.handshakes[atA].state == Init
      && atB.port == portB && atB in b.handshakes && b.handshakes[atB].order == order && b.handshakes[atB].state == Try
      && !Issued(old(a.ports), atA) && !Issued(old(b.ports), atB)
  {
    atB := Endpoint(portB, Unnamed);
    out, atA, agreed := OpenEnd(a, connection, portA, version, order, atB, None, answers.init);
    if !out.Done? { return; }
    var counterparty := a.connections[connection].remote;
    if counterparty.None? { return Panic, atA, atB, agreed; }
    out, atB, agreed := OpenEnd(b, counterparty.value, portB, version, order, atA, Some(agreed), answers.try);
  }

  method ConnectEnd(a: IbcApp, at: Endpoint, remote: Endpoint, version: string, reply: Reply) returns (out: Outcome)
    requires Fine(a.Snapshot()) && at in a.handshakes
    modifies a
    ensures Follows(old(a.Snapshot()), a.Snapshot())
    ensures out.Done? ==> at in a.channels && at !in a.handshakes
    ensures out.Done? ==>
      a.channels[at] ==
        ChannelInfo(1, remote, old(a.handshakes[at].order), version, old(a.handshakes[at].connection), true)
    ensures Unused(a.Snapshot(), at)
  {
    ghost var a0 := a.Snapshot();
    UnconnectedIsUnused(a0, at);
    MessageSteps(a.env, a0, ConnectMsg(at, remote, Some(version), reply));
    out := a.Sudo(ConnectMsg(at, remote, Some(version), reply));
  }

  /** The last two steps: both ends connected. */
  method ConnectEnds(a: IbcApp, b: IbcApp, atA: Endpoint, atB: Endpoint, version: string, answers: Answers)
    returns (out: Outcome)
    requires a != b && Fine(a.Snapshot()) && Fine(b.Snapshot())
    requires atA in a.handshakes && atB in b.handshakes && a.handshakes[atA].order == b.handshakes[atB].order
    modifies a, b
    ensures Follows(old(a.Snapshot()), a.Snapshot()) && Follows(old(b.Snapshot()), b.Snapshot())
    ensures out.Done? ==>
      && Mirrored(a.Snapshot(), atA, b.Snapshot(), atB)
      && Unused(a.Snapshot(), atA) && Unused(b.Snapshot(), atB)
      && a.channels[atA].order == old(a.handshakes[atA].order)
      && a.channels[atA].version == version
  {
    EvolvesNothing(b.Snapshot());
    out := ConnectEnd(a, atA, atB, version, answers.ack);
    if out.Done? { out := ConnectEnd(b, atB, atA, version, answers.confirm); }
  }

  /** `create_channel` */
  method ConnectPorts(a: IbcApp, b: IbcApp, connection: nat, portA: string, portB: string, version: string,
                      order: Ordering, answers: Answers)
    returns (out: Outcome, atA: Endpoint, atB: Endpoint)
    requires a != b && Fine(a.Snapshot()) && Fine(b.Snapshot())
    modifies a, b
    ensures Follows(old(a.Snapshot()), a.Snapshot()) && Follows(old(b.Snapshot()), b.Snapshot())
    ensures out.Done? ==>
      && Mirrored(a.Snapshot(), atA, b.Snapshot(), atB)
      && Unused(a.Snapshot(), atA) && Unused(b.Snapshot(), atB)
      && AgreeForever(Link(a.env, b.env, atA, atB), World(a.Snapshot(), b.Snapshot()))
      && atA.port == portA && atB.port == portB && a.channels[atA].order == order
      && !Issued(old(a.ports), atA) && !Issued(old(b.ports), atB)
  {
    var agreed;
    ghost var a0, b0 := a.Snapshot(), b.Snapshot();
    out, atA, atB, agreed := OpenEnds(a, b, connection, portA, portB, version, order, answers);
    if !out.Done? { return; }
    ghost var a1, b1 := a.Snapshot(), b.Snapshot();
    out := ConnectEnds(a, b, atA, atB, agreed, answers);
    EvolvesFurther(a0, a1, a.Snapshot());
    EvolvesFurther(b0, b1, b.Snapshot());
    if out.Done? { UnusedAgreeForever(Link(a.env, b.env, atA, atB), World(a.Snapshot(), b.Snapshot())); }
  }

  // ---- Packets ----

  /** How a relayed packet ended. */
  datatype Relayed = Answered(ack: bytes) | Expired(closed: bool)

  /** The applications' answers to the messages a relayed packet takes. */
  datatype PacketReplies = PacketReplies(there: Reply, back: Reply, close: Reply)

  /** Both chains' records of a relayed packet. */
  ghost predicate Recorded(a: Chain, id: PacketId, b: Chain, jd: PacketId, how: Relayed) {
    match how
    case Answered(ack) => id in a.acked && a.acked[id] == ack && jd in b.acks && b.acks[jd] == Some(ack)
    case Expired(closed) =>
      && id in a.timedOut && jd in b.received && b.received[jd].timedOut
      && id.at in a.channels && jd.at in b.channels
      && (closed <==> b.channels[jd.at].order == Ordered)
      && (closed ==> !a.channels[id.at].open && !b.channels[jd.at].open)
  }

  /** What a delivery left at the receiving end. */
  ghost predicate Delivered(b: Chain, jd: PacketId, delivery: Delivery) {
    match delivery
    case Acknowledged(ack) => jd in b.acks && b.acks[jd] == ack
    case Late(closes) =>
      && jd in b.received && b.received[jd].timedOut && jd.at in b.channels
      && (closes <==> b.channels[jd.at].order == Ordered)
      && (closes ==> !b.channels[jd.at].open)
  }

  lemma DeliveryRecorded(e: Env, b: Chain, packet: Packet, reply: Reply)
    requires ReceivePacket(e, b, packet, reply).Ok?
    ensures var r := ReceivePacket(e, b, packet, reply).value;
      Delivered(r.1, PacketId(packet.dest, packet.sequence), r.0)
  {
    DeliveryIs(e, b, packet, reply);
  }

  /** Packet `n` of `at`, as `from` stored it. */
  method DeliverPacket(b: IbcApp, ghost from: Chain, ghost at: Endpoint, ghost n: nat, packet: Packet, reply: Reply)
    returns (out: Outcome, delivery: Delivery)
    requires PacketId(at, n) in from.sent && packet == from.sent[PacketId(at, n)]
    modifies b
    ensures b.Snapshot() == DeliverTo(b.env, from, at, old(b.Snapshot()), n, reply)
    ensures out.Done? ==> Delivered(b.Snapshot(), PacketId(packet.dest, packet.sequence), delivery)
  {
    ghost var b0 := b.Snapshot();
    out, delivery := b.SudoReceive(packet, reply);
    if out.Done? { DeliveryRecorded(b.env, b0, packet, reply); }
  }

  /** The source's records of its packets only gain. */
  ghost predicate Onward(m: Mail, m': Mail) {
    m'.sent == m.sent && Grows(m.acked, m'.acked) && m.timedOut <= m'.timedOut
  }

  method ReturnAnswered(a: IbcApp, packet: Packet, ack: bytes, reply: Reply) returns (out: Outcome)
    modifies a
    ensures Onward(old(a.Snapshot().mail), a.Snapshot().mail)
    ensures a.Snapshot() == Handled(a.env, old(a.Snapshot()), AcknowledgeMsg(packet, ack, reply))
    ensures var id := PacketId(packet.src, packet.sequence); out.Done? ==> id in a.acked && a.acked[id] == ack
  {
    out := a.Sudo(AcknowledgeMsg(packet, ack, reply));
  }

  method TimeOut(a: IbcApp, packet: Packet, reply: Reply) returns (out: Outcome)
    modifies a
    ensures Onward(old(a.Snapshot().mail), a.Snapshot().mail)
    ensures a.Snapshot() == Handled(a.env, old(a.Snapshot()), TimeoutMsg(packet, reply))
    ensures out.Done? ==> PacketId(packet.src, packet.sequence) in a.timedOut && packet.src in a.channels
  {
    ghost var a0 := a.Snapshot();
    out := a.Sudo(TimeoutMsg(packet, reply));
    if out.Done? { TimeoutIs(a.env, a0, packet, reply); }
  }

  method CloseEnd(a: IbcApp, at: Endpoint, reply: Reply) returns (out: Outcome)
    modifies a
    ensures a.Snapshot() == Handled(a.env, old(a.Snapshot()), CloseMsg(at, reply))
    ensures a.Snapshot().mail == old(a.Snapshot().mail)
    ensures out.Done? ==> at in a.channels && !a.channels[at].open
  {
    out := a.Sudo(CloseMsg(at, reply));
  }

  /** The source's part of a timeout: the packet first, then the channel if the
      other end has closed; `closing` says whether it came to that. */
  method ReturnExpired(a: IbcApp, packet: Packet, closes: bool, replies: PacketReplies)
    returns (out: Outcome, ghost closing: bool)
    modifies a
    ensures Onward(old(a.Snapshot().mail), a.Snapshot().mail)
    ensures var c := Handled(a.env, old(a.Snapshot()), TimeoutMsg(packet, replies.back));
      a.Snapshot() == if closing then Handled(a.env, c, CloseMsg(packet.src, replies.close)) else c
    ensures out.Done? ==> PacketId(packet.src, packet.sequence) in a.timedOut
    ensures out.Done? ==> packet.src in a.channels && (closes ==> !a.channels[packet.src].open)
  {
    out := TimeOut(a, packet, replies.back);
    closing := out.Done? && closes;
    if out.Done? && closes { out := CloseEnd(a, packet.src, replies.close); }
  }

  /** Packets are stored under their own names, as every chain stores them. */
  ghost predicate OwnNames(sent: map<PacketId, Packet>) {
    forall id :: id in sent ==> sent[id].src == id.at && sent[id].sequence == id.sequence
  }

  /** The channel of a stored packet. */
  ghost function LinkOf(a: IbcApp, b: IbcApp, at: Endpoint, sent: map<PacketId, Packet>, n: nat): Link {
    Link(a.env, b.env, at, if PacketId(at, n) in sent then sent[PacketId(at, n)].dest else at)
  }

  lemma DeliverThen(k: Link, w: World, n: nat, reply: Reply, rest: seq<Move>)
    ensures MovedAll(k, w, [Deliver(true, n, reply)] + rest) == MovedAll(k, Moved(k, w, Deliver(true, n, reply)), rest)
  {
    assert ([Deliver(true, n, reply)] + rest)[1..] == rest;
  }

  lemma OneMove(k: Link, w: World, move: Move)
    ensures MovedAll(k, w, [move]) == Moved(k, w, move)
  {
    assert [move][1..] == [];
  }

  lemma TwoMoves(k: Link, w: World, move: Move, next: Move)
    ensures MovedAll(k, w, [move, next]) == Moved(k, Moved(k, w, move), next)
  {
    assert [move, next][1..] == [next];
    OneMove(k, Moved(k, w, move), next);
  }

  /** What comes back of a packet recorded as late. */
  lemma Expiring(k: Link, w: World, packet: Packet, n: nat, closing: bool, replies: PacketReplies, w': World)
    returns (moves: seq<Move>)
    requires PacketId(k.atA, n) in w.a.sent && w.a.sent[PacketId(k.atA, n)] == packet
    requires packet.src == k.atA && packet.dest == k.atB && packet.sequence == n
    requires PacketId(k.atB, n) in w.b.received && w.b.received[PacketId(k.atB, n)].timedOut
    requires var c := Handled(k.ea, w.a, TimeoutMsg(packet, replies.back));
      w' == w.(a := if closing then Handled(k.ea, c, CloseMsg(packet.src, replies.close)) else c)
    ensures AllRelaying(moves) && w' == MovedAll(k, w, moves)
  {
    var first, close := ReturnTimeout(true, n, replies.back), AtA(CloseMsg(packet.src, replies.close));
    assert Moved(k, w, first) == w.(a := Handled(k.ea, w.a, TimeoutMsg(packet, replies.back)));
    if closing {
      TwoMoves(k, w, first, close);
      moves := [first, close];
    } else {
      OneMove(k, w, first);
      moves := [first];
    }
  }

  /** The outcome of a delivery, taken back. */
  method ReturnOutcome(a: IbcApp, ghost k: Link, ghost w: World, packet: Packet, delivery: Delivery,
                       replies: PacketReplies)
    returns (out: Outcome, how: Relayed, ghost moves: seq<Move>)
    requires a.Snapshot() == w.a && k.ea == a.env
    requires packet.src == k.atA && packet.dest == k.atB && PacketId(k.atA, packet.sequence) in a.sent
    requires a.sent[PacketId(k.atA, packet.sequence)] == packet
    requires Delivered(w.b, PacketId(k.atB, packet.sequence), delivery)
    modifies a
    ensures Onward(old(a.Snapshot().mail), a.Snapshot().mail)
    ensures out.Done? ==>
      Recorded(a.Snapshot(), PacketId(k.atA, packet.sequence), w.b, PacketId(k.atB, packet.sequence), how)
    ensures AllRelaying(moves) && World(a.Snapshot(), w.b) == MovedAll(k, w, moves)
  {
    how, moves := Expired(false), [];
    if delivery.Late? {
      how := Expired(delivery.closes);
      ghost var closing;
      out, closing := ReturnExpired(a, packet, delivery.closes, replies);
      moves := Expiring(k, w, packet, packet.sequence, closing, replies, World(a.Snapshot(), w.b));
    } else if delivery.ack.None? {
      out := Panic;
    } else {
      how := Answered(delivery.ack.value);
      out := ReturnAnswered(a, packet, delivery.ack.value, replies.back);
      moves := [ReturnAck(true, packet.sequence, replies.back)];
      OneMove(k, w, moves[0]);
    }
  }

  /** `relay_packet`: to the other chain, and its outcome back. Each message is
      rolled back when it fails, but the ones before it stand. What it does to the
      two chains are moves of the relayer's, so all that holds of runs holds of it. */
  method RelayPacket(a: IbcApp, b: IbcApp, at: Endpoint, n: nat, replies: PacketReplies)
    returns (out: Outcome, how: Relayed, ghost moves: seq<Move>)
    requires a != b && OwnNames(a.sent)
    modifies a, b
    ensures b.Snapshot() == DeliverTo(b.env, old(a.Snapshot()), at, old(b.Snapshot()), n, replies.there)
    ensures Onward(old(a.Snapshot().mail), a.Snapshot().mail)
    ensures out.Done? ==>
      && PacketId(at, n) in old(a.sent)
      && Recorded(a.Snapshot(), PacketId(at, n), b.Snapshot(), PacketId(old(a.sent)[PacketId(at, n)].dest, n), how)
    ensures AllRelaying(moves)
    ensures var k := LinkOf(a, b, at, old(a.sent), n);
      World(a.Snapshot(), b.Snapshot()) == MovedAll(k, World(old(a.Snapshot()), old(b.Snapshot())), moves)
  {
    how, moves := Expired(false), [];
    var id := PacketId(at, n);
    if id !in a.sent { return Error, how, moves; }
    var packet := a.sent[id];
    ghost var k, w := LinkOf(a, b, at, a.sent, n), World(a.Snapshot(), b.Snapshot());
    var delivery;
    out, delivery := DeliverPacket(b, a.Snapshot(), at, n, packet, replies.there);
    ghost var w1 := World(a.Snapshot(), b.Snapshot());
    assert w1 == Moved(k, w, Deliver(true, n, replies.there));
    if out.Done? { out, how, moves := ReturnOutcome(a, k, w1, packet, delivery, replies); }
    DeliverThen(k, w, n, replies.there, moves);
    moves := [Deliver(true, n, replies.there)] + moves;
  }

  ghost predicate Settled(m: Mail, id: PacketId, how: Relayed) {
    if how.Answered? then id in m.acked && m.acked[id] == how.ack else id in m.timedOut
  }

  /** Each packet as its result says. */
  ghost predicate AllSettled(m: Mail, ids: seq<PacketId>, results: seq<Relayed>) {
    |ids| == |results| && forall j :: 0 <= j < |ids| ==> Settled(m, ids[j], results[j])
  }

  lemma OneMoreSettled(m: Mail, m': Mail, ids: seq<PacketId>, results: seq<Relayed>, id: PacketId, how: Relayed)
    requires AllSettled(m, ids, results) && Onward(m, m') && Settled(m', id, how)
    ensures AllSettled(m', ids + [id], results + [how])
  {
  }

  /** One packet of several, with what the others need to know of it. */
  method RelayNext(a: IbcApp, b: IbcApp, id: PacketId, replies: PacketReplies) returns (out: Outcome, how: Relayed)
    requires a != b && OwnNames(a.sent)
    modifies a, b
    ensures OwnNames(a.sent) && Onward(old(a.Snapshot().mail), a.Snapshot().mail)
    ensures out.Done? ==> Settled(a.Snapshot().mail, id, how)
  {
    ghost var moves;
    out, how, moves := RelayPacket(a, b, id.at, id.sequence, replies);
  }

  /** `relay_packets_in_tx`: one after the other, stopping at the first failure. */
  method RelayPackets(a: IbcApp, b: IbcApp, ids: seq<PacketId>, replies: seq<PacketReplies>)
    returns (out: Outcome, results: seq<Relayed>)
    requires a != b && OwnNames(a.sent) && |replies| == |ids|
    modifies a, b
    ensures out.Done? ==> AllSettled(a.Snapshot().mail, ids, results)
  {
    results, out := [], Done;
    ghost var done: seq<PacketId> := [];
    for i := 0 to |ids|
      invariant out.Done? && OwnNames(a.sent)
      invariant done == ids[..i] && AllSettled(a.Snapshot().mail, done, results)
    {
      ghost var m := a.Snapshot().mail;
      var how;
      out, how := RelayNext(a, b, ids[i], replies[i]);
      if !out.Done? { return; }
      OneMoreSettled(m, a.Snapshot().mail, done, results, ids[i], how);
      done, results := done + [ids[i]], results + [how];
    }
  }

  lemma EvolvesNothing(c: Chain)
    ensures Evolves(c, c)
  {
  }
}
