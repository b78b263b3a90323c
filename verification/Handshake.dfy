/**
 Setting up the QPs: both ends post their receives, exchange one address line per QP over
 a TCP connection, and bring each QP from INIT to RTR and RTS (queue pair states, section
 10.3.1 of the InfiniBand Architecture Specification, Volume 1). Then the client posts its
 opening sends and each end enters its loop. Each TCP write is read whole here; module
 HandshakeReads lets the one read that is not framed take more. What the programs hold and
 the adapters do is the state of the protocol, from before the first receive is posted:
 messages travel and the server's loop runs while the client is still posting.
 */
module Handshake {
  import opened Basics
  import opened AddressLine
  import opened Protocol
  import opened BufferSplit

  // `read` is what the reader of an address line makes of the address printed in it.
  datatype Params = Params(c: Config, size: nat, clientAddr: seq<Address>, serverAddr: seq<Address>,
                           read: Address -> Option<Address>)
  {
    function Addr(side: Side): seq<Address> {
      if side == Client then clientAddr else serverAddr
    }
    ghost predicate Valid() {
      && |clientAddr| == |serverAddr| == c.n
      && (forall k :: 0 <= k < c.n ==> read(clientAddr[k]) == Some(clientAddr[k]))
      && (forall k :: 0 <= k < c.n ==> read(serverAddr[k]) == Some(serverAddr[k]))
    }
  }

  // The program's lines: 52 bytes are expected, and parsed.
  function ReadBack(a: Address): Option<Address> {
    if |Message(a)| == 52 then Parse(Message(a)) else None
  }

  lemma ReadBackWorks(a: Address)
    requires InRange(a) && |a.gid| == 16
    ensures ReadBack(a) == Some(a)
  {
    AddressRoundTrip(a);
    LineLength(a);
  }

  /** With the program's own text format every set of addresses in range can be exchanged. */
  lemma TextLinesWork(c: Config, size: nat, clientAddr: seq<Address>, serverAddr: seq<Address>)
    requires |clientAddr| == |serverAddr| == c.n
    requires forall k :: 0 <= k < c.n ==> InRange(clientAddr[k]) && |clientAddr[k].gid| == 16
    requires forall k :: 0 <= k < c.n ==> InRange(serverAddr[k]) && |serverAddr[k].gid| == 16
    ensures Params(c, size, clientAddr, serverAddr, ReadBack).Valid()
  {
    var p := Params(c, size, clientAddr, serverAddr, ReadBack);
    forall k | 0 <= k < c.n
      ensures p.read(clientAddr[k]) == Some(clientAddr[k])
      ensures p.read(serverAddr[k]) == Some(serverAddr[k])
    {
      ReadBackWorks(clientAddr[k]);
      ReadBackWorks(serverAddr[k]);
    }
  }

  datatype QpState = InitState | Rtr | Rts

  // Receives are posted with `recvLen` bytes; `dest` is the remote QP it is connected to.
  datatype Qp = Qp(state: QpState, recvLen: nat, dest: Option<Address>)

  // What an end does next, for QP `k`.
  datatype Pc =
    | Fill(k: nat)       // post `rx_depth` receives
    | Tell(k: nat)       // write the local address line
    | Hear(k: nat)       // read the remote address line
    | Confirm(k: nat)    // the client writes "done"
    | AwaitDone(k: nat)  // the server reads it
    | ToRtr(k: nat)
    | ToRts(k: nat)
    | Kick(k: nat)       // the client posts its opening send
    | Looping
    | Failed

  // What one write puts on the TCP connection: an address line, or the client's "done"; or
  // what is left of a line whose first bytes an earlier read has taken.
  datatype Note = Line(addr: Address) | DoneNote | Scrap

  datatype Party = Party(pc: Pc, qps: seq<Qp>, heard: Option<Address>)

  // `net` holds the counters and masks of both programs, the adapters' queues and the wire.
  datatype Setup = Setup(client: Party, server: Party, c2s: seq<Note>, s2c: seq<Note>, net: State) {
    function Of(side: Side): Party {
      if side == Client then client else server
    }
  }

  // A step of either program toward its loop, or a step of the adapters or of a loop.
  datatype SetupStep = ClientMoves | ServerMoves | Move(step: Step)

  function StartEnd(p: Params): End {
    End(Host(seq(p.c.n, i => Local(false, false, 0)), 0, 0, false),
        seq(p.c.n, i => Port(0, 0, 0, 0, 0, 0)), [], [])
  }

  function Start(p: Params): Setup {
    var qps := seq(p.c.n, i => Qp(InitState, 0, None));
    Setup(Party(Fill(0), qps, None), Party(Fill(0), qps, None), [], [],
          State(StartEnd(p), StartEnd(p)))
  }

  // QP `k` once its receives are posted, each of the slice's length.
  function Filled(p: Params, qps: seq<Qp>, k: nat): seq<Qp>
    requires k < |qps|
  {
    qps[k := qps[k].(recvLen := Share(p.size, p.c.n, k))]
  }

  function Stock(p: Params, e: End, k: nat): End
    requires k < |e.ports| == |e.host.qps|
  {
    e.(host := e.host.(qps := e.host.qps[k := e.host.qps[k].(routs := p.c.rxDepth)]),
       ports := e.ports[k := e.ports[k].(credits := p.c.rxDepth)])
  }

  // After the handshake every QP awaits a RECV.
  function AwaitRecvs(e: End): End {
    e.(host := e.host.(qps := seq(|e.host.qps|, i requires 0 <= i < |e.host.qps| =>
                                    e.host.qps[i].(recvBit := true))))
  }

  // The opening send on QP `k`.
  function KickOff(e: End, k: nat): End
    requires k < |e.ports| == |e.host.qps|
  {
    var q := e.ports[k];
    e.(host := e.host.(qps := e.host.qps[k := e.host.qps[k].(sendBit := true)]),
       ports := e.ports[k := q.(outgoing := q.outgoing + 1, sent := q.sent + 1)])
  }

  // Reading an address line; an unreadable one ends the program.
  function Heard(p: Params, e: Party, note: Note, next: Pc): Party {
    if note.Line? && p.read(note.addr).Some? then e.(pc := next, heard := p.read(note.addr))
    else e.(pc := Failed)
  }

  function QpTo(e: Party, k: nat, state: QpState, next: Pc): Party
    requires k < |e.qps|
  {
    var dest := if state == Rtr then e.heard else e.qps[k].dest;
    e.(pc := next, qps := e.qps[k := e.qps[k].(state := state, dest := dest)])
  }

  predicate Ready(p: Params, e: Party, end: End, inbox: seq<Note>) {
    && |e.qps| == p.c.n == |p.clientAddr| == |p.serverAddr|
    && Shaped(p.c, end)
    && match e.pc
       case Hear(k) => k < p.c.n && inbox != []
       case AwaitDone(k) => k < p.c.n && inbox != []
       case Looping => false
       case Failed => false
       case _ => e.pc.k < p.c.n
  }

  // `pp_client_exch_dest`, then `pp_connect_ctx_per_qp`, QP after QP; then the sends.
  function ClientNext(p: Params, s: Setup): Setup
    requires Ready(p, s.client, s.net.client, s.s2c)
  {
    var e, last := s.client, p.c.n - 1;
    match e.pc
    case Fill(k) =>
      s.(client := e.(qps := Filled(p, e.qps, k), pc := if k < last then Fill(k + 1) else Tell(0)),
         net := s.net.(client := Stock(p, s.net.client, k)))
    case Tell(k) =>
      s.(client := e.(pc := Hear(k)), c2s := s.c2s + [Line(p.clientAddr[k])])
    case Hear(k) =>
      s.(client := Heard(p, e, s.s2c[0], Confirm(k)), s2c := s.s2c[1..])
    case Confirm(k) =>
      s.(client := e.(pc := ToRtr(k)), c2s := s.c2s + [DoneNote])
    case ToRtr(k) => s.(client := QpTo(e, k, Rtr, ToRts(k)))
    case ToRts(k) =>
      if k < last then s.(client := QpTo(e, k, Rts, Tell(k + 1)))
      else s.(client := QpTo(e, k, Rts, Kick(0)), net := s.net.(client := AwaitRecvs(s.net.client)))
    case Kick(k) =>
      s.(client := e.(pc := if k < last then Kick(k + 1) else Looping),
         net := s.net.(client := KickOff(s.net.client, k)))
    case _ => s.(client := e.(pc := Failed))
  }

  // `pp_server_exch_dest`, which connects the QP before it answers.
  function ServerNext(p: Params, s: Setup): Setup
    requires Ready(p, s.server, s.net.server, s.c2s)
  {
    var e, last := s.server, p.c.n - 1;
    match e.pc
    case Fill(k) =>
      s.(server := e.(qps := Filled(p, e.qps, k), pc := if k < last then Fill(k + 1) else Hear(0)),
         net := s.net.(server := Stock(p, s.net.server, k)))
    case Hear(k) =>
      s.(server := Heard(p, e, s.c2s[0], ToRtr(k)), c2s := s.c2s[1..])
    case ToRtr(k) => s.(server := QpTo(e, k, Rtr, ToRts(k)))
    case ToRts(k) => s.(server := QpTo(e, k, Rts, Tell(k)))
    case Tell(k) =>
      s.(server := e.(pc := AwaitDone(k)), s2c := s.s2c + [Line(p.serverAddr[k])])
    case AwaitDone(k) =>
      if k < last then s.(server := e.(pc := Hear(k + 1)), c2s := s.c2s[1..])
      else s.(server := e.(pc := Looping), c2s := s.c2s[1..],
              net := s.net.(server := AwaitRecvs(s.net.server)))
    case _ => s.(server := e.(pc := Failed))
  }

  // A message on QP `k` would be taken in: the QPs are connected to each other, past INIT at
  // the receiver and in RTS at the sender, and the receives have the length of the message.
  predicate Receptive(p: Params, s: Setup, from: Side, k: nat) {
    var me, peer := s.Of(from), s.Of(from.Peer());
    && k < p.c.n == |me.qps| == |peer.qps| == |p.clientAddr| == |p.serverAddr|
    && me.qps[k].state == Rts
    && me.qps[k].dest == Some(p.Addr(from.Peer())[k])
    && peer.qps[k].state != InitState
    && peer.qps[k].dest == Some(p.Addr(from)[k])
    && peer.qps[k].recvLen == Share(p.size, p.c.n, k)
  }

  predicate SetupEnabled(p: Params, s: Setup, step: SetupStep) {
    match step
    case ClientMoves => Ready(p, s.client, s.net.client, s.s2c)
    case ServerMoves => Ready(p, s.server, s.net.server, s.c2s)
    case Move(move) =>
      && Enabled(p.c, s.net, move)
      && match move
         case Deliver(from, k) => Receptive(p, s, from, k)
         case Ack(_, _) => true
         case Poll(side, _) => s.Of(side).pc == Looping
         case Process(side) => s.Of(side).pc == Looping
  }

  function SetupApply(p: Params, s: Setup, step: SetupStep): Setup
    requires SetupEnabled(p, s, step)
  {
    match step
    case ClientMoves => ClientNext(p, s)
    case ServerMoves => ServerNext(p, s)
    case Move(move) => s.(net := Apply(p.c, s.net, move))
  }

  ghost predicate SetupLegal(p: Params, steps: seq<SetupStep>)
    decreases |steps|, 0
  {
    steps == [] ||
    (var last := |steps| - 1;
     && SetupLegal(p, steps[..last])
     && SetupEnabled(p, SetupAfter(p, steps[..last]), steps[last]))
  }

  ghost function SetupAfter(p: Params, steps: seq<SetupStep>): Setup
    requires SetupLegal(p, steps)
    decreases |steps|, 1
  {
    if steps == [] then Start(p)
    else
      var last := |steps| - 1;
      SetupApply(p, SetupAfter(p, steps[..last]), steps[last])
  }

  // The client's writes in order: line 0, done, line 1, done, ...
  ghost function ClientNote(p: Params, i: nat): Note
    requires p.Valid() && i < 2 * p.c.n
  {
    if i % 2 == 0 then Line(p.clientAddr[i / 2]) else DoneNote
  }

  // Program points each side can be at.
  predicate ClientPc(p: Params, pc: Pc) {
    && !pc.AwaitDone?
    && !pc.Failed?
    && (pc == Looping || pc.k < p.c.n)
  }

  predicate ServerPc(p: Params, pc: Pc) {
    && !pc.Confirm?
    && !pc.Kick?
    && !pc.Failed?
    && (pc == Looping || pc.k < p.c.n)
  }

  // Messages written and read so far, by program point.
  function ClientWrote(p: Params, pc: Pc): nat {
    match pc
    case Fill(_) => 0
    case Tell(k) => 2 * k
    case Hear(k) => 2 * k + 1
    case Confirm(k) => 2 * k + 1
    case ToRtr(k) => 2 * k + 2
    case ToRts(k) => 2 * k + 2
    case _ => 2 * p.c.n
  }

  function ClientRead(p: Params, pc: Pc): nat {
    match pc
    case Fill(_) => 0
    case Tell(k) => k
    case Hear(k) => k
    case Confirm(k) => k + 1
    case ToRtr(k) => k + 1
    case ToRts(k) => k + 1
    case _ => p.c.n
  }

  function ServerRead(p: Params, pc: Pc): nat {
    match pc
    case Fill(_) => 0
    case Hear(k) => 2 * k
    case ToRtr(k) => 2 * k + 1
    case ToRts(k) => 2 * k + 1
    case Tell(k) => 2 * k + 1
    case AwaitDone(k) => 2 * k + 1
    case _ => 2 * p.c.n
  }

  function ServerWrote(p: Params, pc: Pc): nat {
    match pc
    case Fill(_) => 0
    case AwaitDone(k) => k + 1
    case Looping => p.c.n
    case Failed => 0
    case _ => pc.k
  }

  // QPs that have reached RTS, and QPs whose receives are posted, by program point.
  function Joined(p: Params, side: Side, pc: Pc): nat {
    match pc
    case Fill(_) => 0
    case Tell(k) => if side == Client then k else k + 1
    case AwaitDone(k) => k + 1
    case Kick(_) => p.c.n
    case Looping => p.c.n
    case Failed => 0
    case _ => pc.k
  }

  function Stocked(p: Params, pc: Pc): nat {
    if pc.Fill? then pc.k else p.c.n
  }

  // Opening sends the client has posted.
  function Kicks(p: Params, client: Pc): nat {
    if client.Kick? then client.k else if client == Looping then p.c.n else 0
  }

  function CreditsAt(p: Params, pc: Pc, k: nat): nat {
    if k < Stocked(p, pc) then p.c.rxDepth else 0
  }

  function SetupLocal(p: Params, side: Side, pc: Pc, k: nat): Local {
    Local(pc.Kick? || pc == Looping, side == Client && k < Kicks(p, pc), CreditsAt(p, pc, k))
  }

  // What a program holds before it polls for the first time.
  function SetupHost(p: Params, side: Side, pc: Pc): Host {
    Host(seq(p.c.n, (k: nat) => SetupLocal(p, side, pc, k)), 0, 0, false)
  }

  lemma AtLoop(p: Params, side: Side)
    ensures SetupHost(p, side, Looping) == InitHost(p.c, side)
  {
    assert SetupHost(p, side, Looping).qps == InitHost(p.c, side).qps;
  }

  lemma HostIs(p: Params, side: Side, pc: Pc, h: Host)
    requires |h.qps| == p.c.n && h.scnt == h.rcnt == 0 && !h.failed
    requires forall k :: 0 <= k < p.c.n ==> h.qps[k] == SetupLocal(p, side, pc, k)
    ensures h == SetupHost(p, side, pc)
  {
    assert h.qps == SetupHost(p, side, pc).qps;
  }

  // One end of the protocol during setup: its program has not begun to poll before its
  // loop, and where no opening send has been posted nothing has happened.
  ghost predicate EndOk(p: Params, side: Side, pc: Pc, e: End, kicks: nat) {
    && Shaped(p.c, e)
    && (pc != Looping ==> e.batch == [] && e.host == SetupHost(p, side, pc))
    && (forall w :: w in e.cq || w in e.batch ==> w.qp < kicks)
    && forall k :: kicks <= k < p.c.n ==> e.ports[k] == Port(CreditsAt(p, pc, k), 0, 0, 0, 0, 0)
  }

  ghost predicate NetOk(p: Params, s: Setup) {
    var kicks := Kicks(p, s.client.pc);
    && EndOk(p, Client, s.client.pc, s.net.client, kicks)
    && EndOk(p, Server, s.server.pc, s.net.server, kicks)
  }

  ghost predicate PartyOk(p: Params, side: Side, e: Party)
    requires p.Valid()
  {
    && |e.qps| == p.c.n
    && (e.pc.Confirm? || e.pc.ToRtr? ==> e.pc.k < p.c.n && e.heard == Some(p.Addr(side.Peer())[e.pc.k]))
    && forall k :: 0 <= k < p.c.n ==> QpOk(p, side, e, k)
  }

  // QP `k`: connected to remote QP `k`, with receives of its length, as far as it has got.
  ghost predicate QpOk(p: Params, side: Side, e: Party, k: nat)
    requires p.Valid() && |e.qps| == p.c.n && k < p.c.n
  {
    var q := e.qps[k];
    && (k < Stocked(p, e.pc) ==> q.recvLen == Share(p.size, p.c.n, k))
    && (k < Joined(p, side, e.pc) ==> q.state == Rts)
    && (e.pc == ToRts(k) ==> q.state == Rtr)
    && (q.state != InitState ==>
          q.dest == Some(p.Addr(side.Peer())[k]) && Stocked(p, e.pc) == p.c.n)
  }

  // What is on the way to the server: the client's writes it has not read yet.
  ghost predicate ToServerOk(p: Params, client: Pc, server: Pc, c2s: seq<Note>)
    requires p.Valid() && ClientPc(p, client) && ServerPc(p, server)
  {
    var r, w := ServerRead(p, server), ClientWrote(p, client);
    && r <= w <= 2 * p.c.n
    && |c2s| == w - r
    && forall i :: 0 <= i < |c2s| ==> c2s[i] == ClientNote(p, r + i)
  }

  ghost predicate ToClientOk(p: Params, client: Pc, server: Pc, s2c: seq<Note>)
    requires p.Valid() && ClientPc(p, client) && ServerPc(p, server)
  {
    var r, w := ClientRead(p, client), ServerWrote(p, server);
    && r <= w <= p.c.n
    && |s2c| == w - r
    && forall i :: 0 <= i < |s2c| ==> s2c[i] == Line(p.serverAddr[r + i])
  }

  ghost predicate TalkOk(p: Params, s: Setup) {
    && p.Valid()
    && ClientPc(p, s.client.pc)
    && ServerPc(p, s.server.pc)
    && PartyOk(p, Client, s.client)
    && PartyOk(p, Server, s.server)
    && ToServerOk(p, s.client.pc, s.server.pc, s.c2s)
    && ToClientOk(p, s.client.pc, s.server.pc, s.s2c)
  }

  ghost predicate SetupInv(p: Params, s: Setup) {
    TalkOk(p, s) && NetOk(p, s)
  }

  lemma ClientHears(p: Params, s: Setup)
    requires TalkOk(p, s) && Ready(p, s.client, s.net.client, s.s2c) && s.client.pc.Hear?
    ensures var k := s.client.pc.k;
            ClientNext(p, s)
            == s.(client := s.client.(pc := Confirm(k), heard := Some(p.serverAddr[k])), s2c := s.s2c[1..])
  {
  }

  lemma NextLine(p: Params, s: Setup)
    requires TalkOk(p, s) && s.server.pc.Hear? && s.c2s != []
    ensures s.c2s[0] == Line(p.clientAddr[s.server.pc.k])
  {
    var k := s.server.pc.k;
    assert s.c2s[0] == ClientNote(p, 2 * k + 0);
    assert 2 * k / 2 == k;
  }

  lemma ServerHears(p: Params, s: Setup)
    requires TalkOk(p, s) && Ready(p, s.server, s.net.server, s.c2s) && s.server.pc.Hear?
    ensures var k := s.server.pc.k;
            ServerNext(p, s)
            == s.(server := s.server.(pc := ToRtr(k), heard := Some(p.clientAddr[k])), c2s := s.c2s[1..])
  {
    NextLine(p, s);
  }

  lemma ClientWireOk(p: Params, s: Setup)
    requires TalkOk(p, s) && Ready(p, s.client, s.net.client, s.s2c)
    ensures var t := ClientNext(p, s);
            && ClientPc(p, t.client.pc)
            && t.server == s.server
            && ToServerOk(p, t.client.pc, s.server.pc, t.c2s)
  {
    if s.client.pc.Hear? {
      ClientHears(p, s);
    }
  }

  lemma ClientReadsOk(p: Params, s: Setup)
    requires TalkOk(p, s) && Ready(p, s.client, s.net.client, s.s2c)
    requires ClientPc(p, ClientNext(p, s).client.pc)
    ensures var t := ClientNext(p, s);
            ToClientOk(p, t.client.pc, s.server.pc, t.s2c)
  {
    if s.client.pc.Hear? {
      ClientHears(p, s);
    }
  }

  lemma ClientPartyOk(p: Params, s: Setup)
    requires TalkOk(p, s) && Ready(p, s.client, s.net.client, s.s2c)
    ensures PartyOk(p, Client, ClientNext(p, s).client)
  {
    if s.client.pc.Hear? {
      ClientHears(p, s);
    }
    forall k | 0 <= k < p.c.n
      ensures |ClientNext(p, s).client.qps| == p.c.n && QpOk(p, Client, ClientNext(p, s).client, k)
    {
      assert QpOk(p, Client, s.client, k);
    }
  }

  lemma ServerWireOk(p: Params, s: Setup)
    requires TalkOk(p, s) && Ready(p, s.server, s.net.server, s.c2s)
    ensures var t := ServerNext(p, s);
            && ServerPc(p, t.server.pc)
            && t.client == s.client
            && ToClientOk(p, s.client.pc, t.server.pc, t.s2c)
  {
    if s.server.pc.Hear? {
      ServerHears(p, s);
    }
  }

  lemma ServerReadsOk(p: Params, s: Setup)
    requires TalkOk(p, s) && Ready(p, s.server, s.net.server, s.c2s)
    requires ServerPc(p, ServerNext(p, s).server.pc)
    ensures var t := ServerNext(p, s);
            ToServerOk(p, s.client.pc, t.server.pc, t.c2s)
  {
    if s.server.pc.Hear? {
      ServerHears(p, s);
    }
  }

  lemma ServerPartyOk(p: Params, s: Setup)
    requires TalkOk(p, s) && Ready(p, s.server, s.net.server, s.c2s)
    ensures PartyOk(p, Server, ServerNext(p, s).server)
  {
    if s.server.pc.Hear? {
      ServerHears(p, s);
    }
    forall k | 0 <= k < p.c.n
      ensures |ServerNext(p, s).server.qps| == p.c.n && QpOk(p, Server, ServerNext(p, s).server, k)
    {
      assert QpOk(p, Server, s.server, k);
    }
  }

  lemma StockOk(p: Params, side: Side, e: End, k: nat, next: Pc)
    requires EndOk(p, side, Fill(k), e, 0) && k < p.c.n
    requires Stocked(p, next) == k + 1 && !next.Kick? && next != Looping
    ensures EndOk(p, side, next, Stock(p, e, k), 0)
  {
    HostIs(p, side, next, Stock(p, e, k).host);
  }

  lemma AwaitRecvsOk(p: Params, side: Side, pc: Pc, e: End, kicks: nat, next: Pc)
    requires EndOk(p, side, pc, e, kicks) && Stocked(p, pc) == p.c.n && !pc.Kick? && pc != Looping
    requires if side == Client then next == Kick(0) && kicks == 0 else next == Looping
    ensures EndOk(p, side, next, AwaitRecvs(e), kicks)
    ensures next == Looping ==> AwaitRecvs(e).host == InitHost(p.c, side)
  {
    HostIs(p, side, next, AwaitRecvs(e).host);
    AtLoop(p, side);
  }

  lemma KickOffOk(p: Params, e: End, k: nat)
    requires EndOk(p, Client, Kick(k), e, k) && k < p.c.n
    ensures var next := if k < p.c.n - 1 then Kick(k + 1) else Looping;
            EndOk(p, Client, next, KickOff(e, k), k + 1)
    ensures k == p.c.n - 1 ==> KickOff(e, k).host == InitHost(p.c, Client)
  {
    HostIs(p, Client, if k < p.c.n - 1 then Kick(k + 1) else Looping, KickOff(e, k).host);
    AtLoop(p, Client);
  }

  // A move that posts nothing leaves the end of the protocol as it is.
  lemma SamePosts(p: Params, side: Side, pc: Pc, e: End, kicks: nat, next: Pc)
    requires EndOk(p, side, pc, e, kicks) && Stocked(p, next) == Stocked(p, pc)
    requires !pc.Kick? && pc != Looping && !next.Kick? && next != Looping
    ensures EndOk(p, side, next, e, kicks)
  {
    HostIs(p, side, next, e.host);
  }

  lemma ClientNetOk(p: Params, s: Setup)
    requires SetupInv(p, s) && Ready(p, s.client, s.net.client, s.s2c)
    ensures NetOk(p, ClientNext(p, s))
  {
    var e, pc, next := s.net.client, s.client.pc, ClientNext(p, s).client.pc;
    if pc.Fill? {
      StockOk(p, Client, e, pc.k, next);
    } else if pc.Kick? {
      KickOffOk(p, e, pc.k);
    } else if pc.ToRts? && pc.k == p.c.n - 1 {
      AwaitRecvsOk(p, Client, pc, e, 0, next);
    } else {
      if pc.Hear? {
        ClientHears(p, s);
      }
      SamePosts(p, Client, pc, e, 0, next);
    }
  }

  // Before the server has posted its receives the client has not sent.
  lemma ClientWaits(p: Params, s: Setup)
    requires TalkOk(p, s) && s.server.pc.Fill?
    ensures Kicks(p, s.client.pc) == 0
  {
  }

  lemma ServerNetOk(p: Params, s: Setup)
    requires SetupInv(p, s) && Ready(p, s.server, s.net.server, s.c2s)
    ensures NetOk(p, ServerNext(p, s))
  {
    var kicks := Kicks(p, s.client.pc);
    var e, pc, next := s.net.server, s.server.pc, ServerNext(p, s).server.pc;
    if pc.Fill? {
      ClientWaits(p, s);
      StockOk(p, Server, e, pc.k, next);
    } else if pc.AwaitDone? && pc.k == p.c.n - 1 {
      AwaitRecvsOk(p, Server, pc, e, kicks, next);
    } else {
      if pc.Hear? {
        ServerHears(p, s);
      }
      SamePosts(p, Server, pc, e, kicks, next);
    }
  }

  lemma ClientMoveOk(p: Params, s: Setup)
    requires SetupInv(p, s) && Ready(p, s.client, s.net.client, s.s2c)
    ensures SetupInv(p, ClientNext(p, s))
  {
    ClientWireOk(p, s);
    ClientReadsOk(p, s);
    ClientPartyOk(p, s);
    ClientNetOk(p, s);
  }

  lemma ServerMoveOk(p: Params, s: Setup)
    requires SetupInv(p, s) && Ready(p, s.server, s.net.server, s.c2s)
    ensures SetupInv(p, ServerNext(p, s))
  {
    ServerWireOk(p, s);
    ServerReadsOk(p, s);
    ServerPartyOk(p, s);
    ServerNetOk(p, s);
  }

  // Messages travel only where an opening send has been posted.
  lemma DeliverEndsOk(p: Params, side: Side, pcs: (Pc, Pc), a: End, b: End, kicks: nat, k: nat)
    requires EndOk(p, side, pcs.0, a, kicks) && EndOk(p, side.Peer(), pcs.1, b, kicks)
    requires k < p.c.n && a.ports[k].outgoing > 0 && b.ports[k].credits > 0
    ensures EndOk(p, side, pcs.0, Delivered(a, k), kicks)
    ensures EndOk(p, side.Peer(), pcs.1, Arrived(b, k), kicks)
  {
  }

  lemma AckEndOk(p: Params, side: Side, pc: Pc, e: End, kicks: nat, k: nat)
    requires EndOk(p, side, pc, e, kicks) && k < p.c.n && e.ports[k].unacked > 0
    ensures EndOk(p, side, pc, Acknowledged(e, k), kicks)
  {
  }

  lemma PollEndOk(p: Params, side: Side, e: End, kicks: nat, count: nat)
    requires EndOk(p, side, Looping, e, kicks) && count <= |e.cq|
    ensures EndOk(p, side, Looping, Polled(e, count), kicks)
  {
  }

  lemma ProcessEndOk(p: Params, side: Side, e: End, kicks: nat)
    requires EndOk(p, side, Looping, e, kicks) && e.batch != []
    ensures EndOk(p, side, Looping, Processed(p.c, e), kicks)
  {
    assert e.batch[0] in e.batch;
    assert forall w :: w in e.batch[1..] ==> w in e.batch;
  }

  lemma MoveOk(p: Params, s: Setup, move: Step)
    requires NetOk(p, s) && SetupEnabled(p, s, Move(move))
    ensures NetOk(p, SetupApply(p, s, Move(move)))
  {
    var kicks := Kicks(p, s.client.pc);
    match move
    case Deliver(from, k) =>
      DeliverEndsOk(p, from, (s.Of(from).pc, s.Of(from.Peer()).pc),
                    s.net.At(from), s.net.At(from.Peer()), kicks, k);
    case Ack(side, k) => AckEndOk(p, side, s.Of(side).pc, s.net.At(side), kicks, k);
    case Poll(side, count) => PollEndOk(p, side, s.net.At(side), kicks, count);
    case Process(side) => ProcessEndOk(p, side, s.net.At(side), kicks);
  }

  lemma SetupStepOk(p: Params, s: Setup, step: SetupStep)
    requires SetupInv(p, s) && SetupEnabled(p, s, step)
    ensures SetupInv(p, SetupApply(p, s, step))
  {
    match step
    case ClientMoves => ClientMoveOk(p, s);
    case ServerMoves => ServerMoveOk(p, s);
    case Move(move) => MoveOk(p, s, move);
  }

  lemma {:induction false} SetupInvHolds(p: Params, steps: seq<SetupStep>)
    requires p.Valid() && SetupLegal(p, steps)
    ensures SetupInv(p, SetupAfter(p, steps))
  {
    if steps == [] {
      assert StartEnd(p).host == SetupHost(p, Client, Fill(0)) == SetupHost(p, Server, Fill(0));
    } else {
      var last := |steps| - 1;
      SetupInvHolds(p, steps[..last]);
      SetupStepOk(p, SetupAfter(p, steps[..last]), steps[last]);
    }
  }

  /**
   With each write read whole neither end gives up, and unless both are in their loops one
   of them can move.
   */
  lemma HandshakeProgresses(p: Params, steps: seq<SetupStep>)
    requires p.Valid() && SetupLegal(p, steps)
    ensures var s := SetupAfter(p, steps);
            && !s.client.pc.Failed?
            && !s.server.pc.Failed?
            && (SetupEnabled(p, s, ClientMoves)
                || SetupEnabled(p, s, ServerMoves)
                || (s.client.pc == Looping && s.server.pc == Looping))
  {
    SetupInvHolds(p, steps);
  }

  // How many moves lead each end to its program point.
  function ClientMovesTo(p: Params, pc: Pc): nat {
    match pc
    case Fill(k) => k
    case Tell(k) => p.c.n + 5 * k
    case Hear(k) => p.c.n + 5 * k + 1
    case Confirm(k) => p.c.n + 5 * k + 2
    case ToRtr(k) => p.c.n + 5 * k + 3
    case ToRts(k) => p.c.n + 5 * k + 4
    case Kick(k) => 6 * p.c.n + k
    case _ => 7 * p.c.n
  }

  function ServerMovesTo(p: Params, pc: Pc): nat {
    match pc
    case Fill(k) => k
    case Hear(k) => p.c.n + 5 * k
    case ToRtr(k) => p.c.n + 5 * k + 1
    case ToRts(k) => p.c.n + 5 * k + 2
    case Tell(k) => p.c.n + 5 * k + 3
    case AwaitDone(k) => p.c.n + 5 * k + 4
    case _ => 6 * p.c.n
  }

  function CountOf(steps: seq<SetupStep>, step: SetupStep): nat {
    if steps == [] then 0
    else CountOf(steps[..|steps| - 1], step) + if steps[|steps| - 1] == step then 1 else 0
  }

  lemma ClientCounts(p: Params, s: Setup)
    requires TalkOk(p, s) && Ready(p, s.client, s.net.client, s.s2c)
    ensures ClientMovesTo(p, ClientNext(p, s).client.pc) == ClientMovesTo(p, s.client.pc) + 1
    ensures ClientNext(p, s).server == s.server
  {
    if s.client.pc.Hear? {
      ClientHears(p, s);
    }
  }

  lemma ServerCounts(p: Params, s: Setup)
    requires TalkOk(p, s) && Ready(p, s.server, s.net.server, s.c2s)
    ensures ServerMovesTo(p, ServerNext(p, s).server.pc) == ServerMovesTo(p, s.server.pc) + 1
    ensures ServerNext(p, s).client == s.client
  {
    if s.server.pc.Hear? {
      ServerHears(p, s);
    }
  }

  lemma StepCounts(p: Params, s: Setup, step: SetupStep)
    requires SetupInv(p, s) && SetupEnabled(p, s, step)
    ensures ClientMovesTo(p, SetupApply(p, s, step).client.pc)
            == ClientMovesTo(p, s.client.pc) + if step == ClientMoves then 1 else 0
    ensures ServerMovesTo(p, SetupApply(p, s, step).server.pc)
            == ServerMovesTo(p, s.server.pc) + if step == ServerMoves then 1 else 0
  {
    match step
    case ClientMoves => ClientCounts(p, s);
    case ServerMoves => ServerCounts(p, s);
    case Move(_) =>
  }

  lemma MovesBound(p: Params, s: Setup)
    requires TalkOk(p, s)
    ensures ClientMovesTo(p, s.client.pc) <= 7 * p.c.n
    ensures ServerMovesTo(p, s.server.pc) <= 6 * p.c.n
  {
  }

  /**
   The handshake is finite and loses no step: an end's moves are exactly those that lead
   to where it is, `7 * n` for a client and `6 * n` for a server that has reached its loop.
   */
  lemma {:induction false} HandshakeLength(p: Params, steps: seq<SetupStep>)
    requires p.Valid() && SetupLegal(p, steps)
    ensures CountOf(steps, ClientMoves) == ClientMovesTo(p, SetupAfter(p, steps).client.pc) <= 7 * p.c.n
    ensures CountOf(steps, ServerMoves) == ServerMovesTo(p, SetupAfter(p, steps).server.pc) <= 6 * p.c.n
  {
    SetupInvHolds(p, steps);
    MovesBound(p, SetupAfter(p, steps));
    if steps != [] {
      var last := |steps| - 1;
      HandshakeLength(p, steps[..last]);
      SetupInvHolds(p, steps[..last]);
      StepCounts(p, SetupAfter(p, steps[..last]), steps[last]);
    }
  }

  lemma {:induction false} CompletesWithin(p: Params, steps: seq<SetupStep>, bound: nat)
    returns (all: seq<SetupStep>)
    requires p.Valid() && SetupLegal(p, steps)
    requires var s := SetupAfter(p, steps);
             13 * p.c.n - ClientMovesTo(p, s.client.pc) - ServerMovesTo(p, s.server.pc) <= bound
    ensures steps <= all && SetupLegal(p, all)
    ensures SetupAfter(p, all).client.pc == SetupAfter(p, all).server.pc == Looping
    decreases bound
  {
    var s := SetupAfter(p, steps);
    HandshakeProgresses(p, steps);
    if s.client.pc == Looping && s.server.pc == Looping {
      all := steps;
    } else {
      var step := if SetupEnabled(p, s, ClientMoves) then ClientMoves else ServerMoves;
      var longer := steps + [step];
      assert longer[..|steps|] == steps;
      SetupInvHolds(p, steps);
      StepCounts(p, s, step);
      SetupInvHolds(p, longer);
      MovesBound(p, SetupAfter(p, longer));
      all := CompletesWithin(p, longer, bound - 1);
    }
  }

  /** Every run of the setup, however far it has got, can be continued until both ends are in their loops. */
  lemma HandshakeCompletes(p: Params, steps: seq<SetupStep>) returns (all: seq<SetupStep>)
    requires p.Valid() && SetupLegal(p, steps)
    ensures steps <= all && SetupLegal(p, all)
    ensures SetupAfter(p, all).client.pc == SetupAfter(p, all).server.pc == Looping
  {
    SetupInvHolds(p, steps);
    MovesBound(p, SetupAfter(p, steps));
    var s := SetupAfter(p, steps);
    all := CompletesWithin(p, steps, 13 * p.c.n - ClientMovesTo(p, s.client.pc) - ServerMovesTo(p, s.server.pc));
  }
}
