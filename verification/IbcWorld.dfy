/**
 Two chains and the relayer between them: what the two ends of a channel record
 about a packet agrees, however local messages and relaying interleave.
 */
module IbcWorld {
  import opened Bytes
  import opened Results
  import opened Ibc
  import opened IbcLaws

  datatype World = World(a: Chain, b: Chain)

  /** The two chains' rules and the two ends of a channel between them. */
  datatype Link = Link(ea: Env, eb: Env, atA: Endpoint, atB: Endpoint)

  /** A local message does anything at all, except hand in packets of the linked
      channel: that is the relayer's part. */
  ghost predicate Local(m: Msg, at: Endpoint) {
    && (m.ReceiveMsg? ==> m.packet.dest != at)
    && (m.AcknowledgeMsg? ==> m.packet.src != at)
    && (m.TimeoutMsg? ==> m.packet.src != at)
  }

  datatype Move =
    | AtA(m: Msg)
    | AtB(m: Msg)
    | Deliver(fromA: bool, sequence: nat, reply: Reply)
    | ReturnAck(fromA: bool, sequence: nat, reply: Reply)
    | ReturnTimeout(fromA: bool, sequence: nat, reply: Reply)

  // ---- The relayer's messages ----

  /** The stored packet, taken to the other chain. */
  ghost function DeliverTo(e: Env, from: Chain, at: Endpoint, to: Chain, n: nat, reply: Reply): Chain {
    if PacketId(at, n) !in from.sent then to
    else
      var r := ReceivePacket(e, to, from.sent[PacketId(at, n)], reply);
      if r.Ok? then r.value.1 else to
  }

  /** The acknowledgement recorded there, taken back. */
  ghost function AckTo(from: Chain, at: Endpoint, to: Chain, there: Endpoint, n: nat, reply: Reply): Chain {
    var id, jd := PacketId(at, n), PacketId(there, n);
    if id !in from.sent || jd !in to.acks || to.acks[jd].None? then from
    else
      var r := AcknowledgePacket(from, from.sent[id], to.acks[jd].value, reply);
      if r.Ok? then r.value else from
  }

  /** Taken back as timed out when recorded so there. */
  ghost function TimeoutTo(e: Env, from: Chain, at: Endpoint, to: Chain, there: Endpoint, n: nat, reply: Reply): Chain {
    var id, jd := PacketId(at, n), PacketId(there, n);
    if id !in from.sent || jd !in to.received || !to.received[jd].timedOut then from
    else
      var r := TimeoutPacket(e, from, from.sent[id], reply);
      if r.Ok? then r.value else from
  }

  ghost function Moved(k: Link, w: World, move: Move): World {
    match move
    case AtA(m) => w.(a := Handled(k.ea, w.a, m))
    case AtB(m) => w.(b := Handled(k.eb, w.b, m))
    case Deliver(true, n, reply) => w.(b := DeliverTo(k.eb, w.a, k.atA, w.b, n, reply))
    case Deliver(false, n, reply) => w.(a := DeliverTo(k.ea, w.b, k.atB, w.a, n, reply))
    case ReturnAck(true, n, reply) => w.(a := AckTo(w.a, k.atA, w.b, k.atB, n, reply))
    case ReturnAck(false, n, reply) => w.(b := AckTo(w.b, k.atB, w.a, k.atA, n, reply))
    case ReturnTimeout(true, n, reply) => w.(a := TimeoutTo(k.ea, w.a, k.atA, w.b, k.atB, n, reply))
    case ReturnTimeout(false, n, reply) => w.(b := TimeoutTo(k.eb, w.b, k.atB, w.a, k.atA, n, reply))
  }

  ghost predicate Honest(k: Link, move: Move) {
    (move.AtA? ==> Local(move.m, k.atA)) && (move.AtB? ==> Local(move.m, k.atB))
  }

  /** A move of the relayer's own: a packet, its outcome, or a channel to close. */
  ghost predicate Relaying(move: Move) {
    move.Deliver? || move.ReturnAck? || move.ReturnTimeout? || (move.AtA? && move.m.CloseMsg?)
  }

  ghost predicate AllRelaying(moves: seq<Move>) { forall i :: 0 <= i < |moves| ==> Relaying(moves[i]) }

  // ---- Agreement ----

  ghost predicate Linked(from: Chain, at: Endpoint, to: Chain, there: Endpoint) {
    at in from.channels && from.channels[at].remote == there && there in to.channels && to.channels[there].remote == at
  }

  /** What both chains know of packet `n`: received there only as sent here;
      acknowledged here only in time there and with that very answer; timed out
      here only if too late there. */
  ghost predicate AgreeOn(from: Chain, at: Endpoint, to: Chain, there: Endpoint, n: nat) {
    var id, jd := PacketId(at, n), PacketId(there, n);
    && (jd in to.received ==> id in from.sent && to.received[jd].packet == from.sent[id])
    && (id in from.acked ==>
          jd in to.received && !to.received[jd].timedOut && jd in to.acks && to.acks[jd] == Some(from.acked[id]))
    && (id in from.timedOut ==> jd in to.received && to.received[jd].timedOut)
  }

  ghost predicate Agree(from: Chain, at: Endpoint, to: Chain, there: Endpoint) {
    forall n: nat :: AgreeOn(from, at, to, there, n)
  }

  /** This step settles no packet sent from `at`. */
  ghost predicate SettlesNone(c: Chain, c': Chain, at: Endpoint) {
    && Evolves(c, c')
    && forall n: nat :: var id := PacketId(at, n);
         (id in c'.acked <==> id in c.acked) && (id in c'.timedOut <==> id in c.timedOut)
  }

  /** And this one receives none at `at`. */
  ghost predicate ReceivesNone(c: Chain, c': Chain, at: Endpoint) {
    && Evolves(c, c')
    && forall n: nat :: PacketId(at, n) in c'.received <==> PacketId(at, n) in c.received
  }

  lemma OtherMessagesLeavePackets(e: Env, c: Chain, m: Msg)
    requires !m.ReceiveMsg? && !m.AcknowledgeMsg? && !m.TimeoutMsg?
    ensures var c' := Handled(e, c, m); c'.acked == c.acked && c'.timedOut == c.timedOut && c'.received == c.received
  {
  }

  /** Receiving settles nothing and records one packet. */
  lemma ReceivingIs(e: Env, c: Chain, packet: Packet, reply: Reply)
    requires ReceivePacket(e, c, packet, reply).Ok?
    ensures var c', id := ReceivePacket(e, c, packet, reply).value.1, PacketId(packet.dest, packet.sequence);
      && c'.acked == c.acked && c'.timedOut == c.timedOut && id !in c.received
      && c'.received == c.received[id := Receipt(packet, HasPassed(packet.timeout, c.height, c.time))]
  {
    DeliveryIs(e, c, packet, reply);
  }

  lemma LocalPackets(e: Env, c: Chain, m: Msg, at: Endpoint)
    requires Local(m, at)
    ensures var c' := Handled(e, c, m); forall id: PacketId :: id.at == at ==>
      && (id in c'.acked <==> id in c.acked) && (id in c'.timedOut <==> id in c.timedOut)
      && (id in c'.received <==> id in c.received)
  {
    if m.ReceiveMsg? {
      if ReceivePacket(e, c, m.packet, m.reply).Ok? { ReceivingIs(e, c, m.packet, m.reply); }
    } else if m.AcknowledgeMsg? {
    } else if m.TimeoutMsg? {
      if TimeoutPacket(e, c, m.packet, m.reply).Ok? { TimeoutIs(e, c, m.packet, m.reply); }
    } else {
      OtherMessagesLeavePackets(e, c, m);
    }
  }

  lemma LocalIsQuiet(e: Env, c: Chain, m: Msg, at: Endpoint)
    requires Fine(c) && Local(m, at)
    ensures SettlesNone(c, Handled(e, c, m), at) && ReceivesNone(c, Handled(e, c, m), at)
  {
    MessageSteps(e, c, m);
    LocalPackets(e, c, m, at);
  }

  lemma QuietKeepsAgreement(from: Chain, from': Chain, at: Endpoint, to: Chain, to': Chain, there: Endpoint)
    requires Agree(from, at, to, there) && SettlesNone(from, from', at) && ReceivesNone(to, to', there)
    ensures Agree(from', at, to', there)
  {
    forall n: nat ensures AgreeOn(from', at, to', there, n) {
      assert AgreeOn(from, at, to, there, n);
    }
  }

  lemma Nothing(c: Chain, at: Endpoint)
    ensures SettlesNone(c, c, at) && ReceivesNone(c, c, at)
  {
  }

  // ---- Relaying ----

  lemma SentFits(from: Chain, at: Endpoint, to: Chain, there: Endpoint, n: nat)
    requires Fine(from) && Linked(from, at, to, there) && PacketId(at, n) in from.sent
    ensures var packet := from.sent[PacketId(at, n)]; packet.src == at && packet.dest == there && packet.sequence == n
  {
  }

  lemma NewReceiptAgrees(from: Chain, at: Endpoint, to: Chain, to': Chain, there: Endpoint, n: nat, late: bool)
    requires Agree(from, at, to, there) && MailEvolves(to.mail, to'.mail)
    requires PacketId(at, n) in from.sent && PacketId(there, n) !in to.received
    requires to'.received == to.received[PacketId(there, n) := Receipt(from.sent[PacketId(at, n)], late)]
    ensures Agree(from, at, to', there)
  {
    forall m: nat ensures AgreeOn(from, at, to', there, m) {
      assert AgreeOn(from, at, to, there, m);
    }
  }

  lemma NewAckAgrees(from: Chain, from': Chain, at: Endpoint, to: Chain, there: Endpoint, n: nat)
    requires Agree(from, at, to, there) && ReceivedFine(to.mail)
    requires PacketId(there, n) in to.acks && to.acks[PacketId(there, n)].Some?
    requires from'.sent == from.sent && from'.timedOut == from.timedOut
    requires from'.acked == from.acked[PacketId(at, n) := to.acks[PacketId(there, n)].value]
    ensures Agree(from', at, to, there)
  {
    forall m: nat ensures AgreeOn(from', at, to, there, m) {
      assert AgreeOn(from, at, to, there, m);
    }
  }

  lemma NewTimeoutAgrees(from: Chain, from': Chain, at: Endpoint, to: Chain, there: Endpoint, n: nat)
    requires Agree(from, at, to, there)
    requires PacketId(there, n) in to.received && to.received[PacketId(there, n)].timedOut
    requires from'.sent == from.sent && from'.acked == from.acked && from'.timedOut == from.timedOut + {PacketId(at, n)}
    ensures Agree(from', at, to, there)
  {
    forall m: nat ensures AgreeOn(from', at, to, there, m) {
      assert AgreeOn(from, at, to, there, m);
    }
  }

  lemma DeliveredStep(e: Env, to: Chain, packet: Packet, reply: Reply, to': Chain)
    requires Fine(to) && ReceivePacket(e, to, packet, reply).Ok? && to' == ReceivePacket(e, to, packet, reply).value.1
    ensures var jd := PacketId(packet.dest, packet.sequence);
      && Fine(to') && SettlesNone(to, to', packet.dest) && jd !in to.received
      && to'.received == to.received[jd := Receipt(packet, HasPassed(packet.timeout, to.height, to.time))]
  {
    ReceiveSteps(e, to, packet, reply);
    ReceivingIs(e, to, packet, reply);
  }

  lemma DeliverKeeps(e: Env, from: Chain, at: Endpoint, to: Chain, there: Endpoint, n: nat, reply: Reply)
    requires Fine(from) && Fine(to) && Linked(from, at, to, there) && Agree(from, at, to, there)
    ensures var to' := DeliverTo(e, from, at, to, n, reply);
      Fine(to') && Agree(from, at, to', there) && SettlesNone(to, to', there)
  {
    var to' := DeliverTo(e, from, at, to, n, reply);
    Nothing(to, there);
    if PacketId(at, n) in from.sent {
      var packet := from.sent[PacketId(at, n)];
      SentFits(from, at, to, there, n);
      if ReceivePacket(e, to, packet, reply).Ok? {
        DeliveredStep(e, to, packet, reply, to');
        NewReceiptAgrees(from, at, to, to', there, n, HasPassed(packet.timeout, to.height, to.time));
      }
    }
  }

  lemma AckedStep(from: Chain, packet: Packet, ack: bytes, reply: Reply, from': Chain)
    requires Fine(from) && AcknowledgePacket(from, packet, ack, reply) == Ok(from')
    ensures Fine(from') && ReceivesNone(from, from', packet.src) && from'.sent == from.sent
    ensures from'.timedOut == from.timedOut
    ensures from'.acked == from.acked[PacketId(packet.src, packet.sequence) := ack]
  {
    AcknowledgeSteps(from, packet, ack, reply);
  }

  lemma AckKeeps(from: Chain, at: Endpoint, to: Chain, there: Endpoint, n: nat, reply: Reply)
    requires Fine(from) && Fine(to) && Linked(from, at, to, there) && Agree(from, at, to, there)
    ensures var from' := AckTo(from, at, to, there, n, reply);
      Fine(from') && Agree(from', at, to, there) && ReceivesNone(from, from', at)
  {
    var from' := AckTo(from, at, to, there, n, reply);
    Nothing(from, at);
    var id, jd := PacketId(at, n), PacketId(there, n);
    if id in from.sent && jd in to.acks && to.acks[jd].Some? {
      var packet, ack := from.sent[id], to.acks[jd].value;
      SentFits(from, at, to, there, n);
      if AcknowledgePacket(from, packet, ack, reply).Ok? {
        AckedStep(from, packet, ack, reply, from');
        NewAckAgrees(from, from', at, to, there, n);
      }
    }
  }

  lemma TimedOutStep(e: Env, from: Chain, packet: Packet, reply: Reply, from': Chain)
    requires Fine(from) && TimeoutPacket(e, from, packet, reply) == Ok(from')
    ensures Fine(from') && ReceivesNone(from, from', packet.src) && from'.sent == from.sent && from'.acked == from.acked
    ensures from'.timedOut == from.timedOut + {PacketId(packet.src, packet.sequence)}
  {
    TimeoutSteps(e, from, packet, reply);
    TimeoutIs(e, from, packet, reply);
  }

  lemma TimeoutKeeps(e: Env, from: Chain, at: Endpoint, to: Chain, there: Endpoint, n: nat, reply: Reply)
    requires Fine(from) && Fine(to) && Linked(from, at, to, there) && Agree(from, at, to, there)
    ensures var from' := TimeoutTo(e, from, at, to, there, n, reply);
      Fine(from') && Agree(from', at, to, there) && ReceivesNone(from, from', at)
  {
    var from' := TimeoutTo(e, from, at, to, there, n, reply);
    Nothing(from, at);
    var id, jd := PacketId(at, n), PacketId(there, n);
    if id in from.sent && jd in to.received && to.received[jd].timedOut {
      SentFits(from, at, to, there, n);
      if TimeoutPacket(e, from, from.sent[id], reply).Ok? {
        TimedOutStep(e, from, from.sent[id], reply, from');
        NewTimeoutAgrees(from, from', at, to, there, n);
      }
    }
  }

  // ---- Every run ----

  ghost predicate WorldFine(k: Link, w: World) {
    && Fine(w.a) && Fine(w.b) && Linked(w.a, k.atA, w.b, k.atB)
    && Agree(w.a, k.atA, w.b, k.atB) && Agree(w.b, k.atB, w.a, k.atA)
  }

  lemma StaysLinked(from: Chain, from': Chain, at: Endpoint, to: Chain, to': Chain, there: Endpoint)
    requires Linked(from, at, to, there) && Evolves(from, from') && Evolves(to, to')
    ensures Linked(from', at, to', there) && Linked(to', there, from', at)
  {
  }

  lemma LocalKeeps(e: Env, from: Chain, at: Endpoint, to: Chain, there: Endpoint, m: Msg)
    requires Fine(from) && Linked(from, at, to, there) && Local(m, at)
    requires Agree(from, at, to, there) && Agree(to, there, from, at)
    ensures var from' := Handled(e, from, m);
      Fine(from') && Linked(from', at, to, there) && Agree(from', at, to, there) && Agree(to, there, from', at)
  {
    var from' := Handled(e, from, m);
    LocalIsQuiet(e, from, m, at);
    MessageSteps(e, from, m);
    Nothing(to, there);
    QuietKeepsAgreement(from, from', at, to, to, there);
    QuietKeepsAgreement(to, to, there, from, from', at);
    StaysLinked(from, from', at, to, to, there);
  }

  lemma DeliveryKeeps(e: Env, from: Chain, at: Endpoint, to: Chain, there: Endpoint, n: nat, reply: Reply)
    requires Fine(from) && Fine(to) && Linked(from, at, to, there)
    requires Agree(from, at, to, there) && Agree(to, there, from, at)
    ensures var to' := DeliverTo(e, from, at, to, n, reply);
      Fine(to') && Linked(from, at, to', there) && Agree(from, at, to', there) && Agree(to', there, from, at)
  {
    var to' := DeliverTo(e, from, at, to, n, reply);
    DeliverKeeps(e, from, at, to, there, n, reply);
    Nothing(from, at);
    QuietKeepsAgreement(to, to', there, from, from, at);
    StaysLinked(from, from, at, to, to', there);
  }

  lemma ReturnKeeps(from: Chain, from': Chain, at: Endpoint, to: Chain, there: Endpoint)
    requires Linked(from, at, to, there) && Agree(to, there, from, at) && ReceivesNone(from, from', at)
    ensures Linked(from', at, to, there) && Agree(to, there, from', at)
  {
    Nothing(to, there);
    QuietKeepsAgreement(to, to, there, from, from', at);
    StaysLinked(from, from', at, to, to, there);
  }

  lemma MoveKeeps(k: Link, w: World, move: Move)
    requires WorldFine(k, w) && Honest(k, move)
    ensures WorldFine(k, Moved(k, w, move))
  {
    match move
    case AtA(m) => LocalKeeps(k.ea, w.a, k.atA, w.b, k.atB, m);
    case AtB(m) => LocalKeeps(k.eb, w.b, k.atB, w.a, k.atA, m);
    case Deliver(true, n, reply) => DeliveryKeeps(k.eb, w.a, k.atA, w.b, k.atB, n, reply);
    case Deliver(false, n, reply) => DeliveryKeeps(k.ea, w.b, k.atB, w.a, k.atA, n, reply);
    case ReturnAck(true, n, reply) =>
      AckKeeps(w.a, k.atA, w.b, k.atB, n, reply);
      ReturnKeeps(w.a, Moved(k, w, move).a, k.atA, w.b, k.atB);
    case ReturnAck(false, n, reply) =>
      AckKeeps(w.b, k.atB, w.a, k.atA, n, reply);
      ReturnKeeps(w.b, Moved(k, w, move).b, k.atB, w.a, k.atA);
    case ReturnTimeout(true, n, reply) =>
      TimeoutKeeps(k.ea, w.a, k.atA, w.b, k.atB, n, reply);
      ReturnKeeps(w.a, Moved(k, w, move).a, k.atA, w.b, k.atB);
    case ReturnTimeout(false, n, reply) =>
      TimeoutKeeps(k.eb, w.b, k.atB, w.a, k.atA, n, reply);
      ReturnKeeps(w.b, Moved(k, w, move).b, k.atB, w.a, k.atA);
  }

  /** A move takes nothing back on either chain. */
  lemma MoveEvolves(k: Link, w: World, move: Move)
    requires WorldFine(k, w)
    ensures var w' := Moved(k, w, move); Evolves(w.a, w'.a) && Evolves(w.b, w'.b)
  {
    Nothing(w.a, k.atA);
    Nothing(w.b, k.atB);
    match move
    case AtA(m) => MessageSteps(k.ea, w.a, m);
    case AtB(m) => MessageSteps(k.eb, w.b, m);
    case Deliver(true, n, reply) => DeliverKeeps(k.eb, w.a, k.atA, w.b, k.atB, n, reply);
    case Deliver(false, n, reply) => DeliverKeeps(k.ea, w.b, k.atB, w.a, k.atA, n, reply);
    case ReturnAck(true, n, reply) => AckKeeps(w.a, k.atA, w.b, k.atB, n, reply);
    case ReturnAck(false, n, reply) => AckKeeps(w.b, k.atB, w.a, k.atA, n, reply);
    case ReturnTimeout(true, n, reply) => TimeoutKeeps(k.ea, w.a, k.atA, w.b, k.atB, n, reply);
    case ReturnTimeout(false, n, reply) => TimeoutKeeps(k.eb, w.b, k.atB, w.a, k.atA, n, reply);
  }

  ghost function MovedAll(k: Link, w: World, moves: seq<Move>): World
    decreases moves
  {
    if moves == [] then w else MovedAll(k, Moved(k, w, moves[0]), moves[1..])
  }

  lemma {:induction false} RunKeeps(k: Link, w: World, moves: seq<Move>)
    requires WorldFine(k, w) && AllHonest(k, moves)
    ensures WorldFine(k, MovedAll(k, w, moves))
    decreases moves
  {
    if moves != [] {
      MoveKeeps(k, w, moves[0]);
      RunKeeps(k, Moved(k, w, moves[0]), moves[1..]);
    }
  }

  /** Whatever the relayer does, in whatever state of agreement, keeps it. */
  lemma RelayingKeeps(k: Link, w: World, moves: seq<Move>)
    requires WorldFine(k, w) && AllRelaying(moves)
    ensures WorldFine(k, MovedAll(k, w, moves))
  {
    RunKeeps(k, w, moves);
  }

  lemma {:induction false} RunEvolves(k: Link, w: World, moves: seq<Move>)
    requires WorldFine(k, w) && AllHonest(k, moves)
    ensures var w' := MovedAll(k, w, moves); Evolves(w.a, w'.a) && Evolves(w.b, w'.b)
    decreases moves
  {
    Nothing(w.a, k.atA);
    Nothing(w.b, k.atB);
    if moves != [] {
      var w1 := Moved(k, w, moves[0]);
      MoveKeeps(k, w, moves[0]);
      MoveEvolves(k, w, moves[0]);
      RunEvolves(k, w1, moves[1..]);
      EvolvesFurther(w.a, w1.a, MovedAll(k, w1, moves[1..]).a);
      EvolvesFurther(w.b, w1.b, MovedAll(k, w1, moves[1..]).b);
    }
  }

  lemma {:induction false} OneMoreMove(k: Link, w: World, moves: seq<Move>, move: Move)
    ensures MovedAll(k, w, moves + [move]) == Moved(k, MovedAll(k, w, moves), move)
    decreases moves
  {
    if moves == [] {
      assert moves + [move] == [move] && [move][1..] == [];
    } else {
      assert (moves + [move])[1..] == moves[1..] + [move];
      OneMoreMove(k, Moved(k, w, moves[0]), moves[1..], move);
    }
  }

  /** A channel just connected: nothing sent, received or settled on it. */
  ghost predicate Unused(c: Chain, at: Endpoint) {
    forall n: nat :: PacketId(at, n) !in c.received && PacketId(at, n) !in c.acked && PacketId(at, n) !in c.timedOut
  }

  /** An end not connected yet is unused. */
  lemma UnconnectedIsUnused(c: Chain, at: Endpoint)
    requires Fine(c) && at !in c.channels
    ensures Unused(c, at)
  {
  }

  ghost predicate AllHonest(k: Link, moves: seq<Move>) { forall i :: 0 <= i < |moves| ==> Honest(k, moves[i]) }

  /** Both ends connected, each naming the other, alike in order and version. */
  ghost predicate Mirrored(a: Chain, atA: Endpoint, b: Chain, atB: Endpoint) {
    && Linked(a, atA, b, atB)
    && a.channels[atA].order == b.channels[atB].order
    && a.channels[atA].version == b.channels[atB].version
    && a.channels[atA].open && b.channels[atB].open
    && a.channels[atA].next == 1 == b.channels[atB].next
    && atA !in a.handshakes && atB !in b.handshakes
  }

  /** The two ends will agree whatever happens. */
  ghost predicate AgreeForever(k: Link, w: World) {
    forall moves :: AllHonest(k, moves) ==>
      var w' := MovedAll(k, w, moves); Agree(w'.a, k.atA, w'.b, k.atB) && Agree(w'.b, k.atB, w'.a, k.atA)
  }

  lemma UnusedAgreeForever(k: Link, w: World)
    requires Fine(w.a) && Fine(w.b) && Linked(w.a, k.atA, w.b, k.atB) && Unused(w.a, k.atA) && Unused(w.b, k.atB)
    ensures AgreeForever(k, w)
  {
    assert Agree(w.a, k.atA, w.b, k.atB) && Agree(w.b, k.atB, w.a, k.atA);
    forall moves | AllHonest(k, moves)
      ensures var w' := MovedAll(k, w, moves); Agree(w'.a, k.atA, w'.b, k.atB) && Agree(w'.b, k.atB, w'.a, k.atA)
    {
      RunKeeps(k, w, moves);
    }
  }

  /** From a freshly connected channel on, whatever the two chains do and in
      whatever order packets are relayed: a packet acknowledged at one end was
      received in time at the other and answered just so; one timed out was
      received there too late; and none is ever received that was not sent. */
  lemma TheTwoEndsAgree(k: Link, w: World, moves: seq<Move>, n: nat)
    requires Fine(w.a) && Fine(w.b) && Linked(w.a, k.atA, w.b, k.atB) && Unused(w.a, k.atA) && Unused(w.b, k.atB)
    requires AllHonest(k, moves)
    ensures var w' := MovedAll(k, w, moves);
      AgreeOn(w'.a, k.atA, w'.b, k.atB, n) && AgreeOn(w'.b, k.atB, w'.a, k.atA, n)
  {
    UnusedAgreeForever(k, w);
    var w' := MovedAll(k, w, moves);
    assert Agree(w'.a, k.atA, w'.b, k.atB) && Agree(w'.b, k.atB, w'.a, k.atA);
  }
}
