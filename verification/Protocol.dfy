/**
 The InfiniBand ping-pong protocol between one client and one server joined by
 `n` reliable queue pairs (QPs), as a state machine over the completion loop of
 `runPingPong` at both ends, the two adapters and the wire.

 - `Host` is what the program keeps: `pending_qp[]`, `routs_arr[]`, `scnt`, `rcnt`.
 - `Port` is what the adapter keeps for one QP: posted receives, undelivered and
   unacknowledged sends, plus three history counters used only in statements.
 - Adapter steps (deliver, ack) interleave freely with the program's steps (poll,
   process), also between two completions of one batch.
 - The completion queues are unbounded here. The queues the program creates can overrun;
   module CqOverrun adds their bound and shows exactly when the runs stay the same.
 */
module Protocol {

  datatype RawConfig = RawConfig(n: nat, iters: nat, rxDepth: nat)

  // Number of QPs, exchanges to make, and receives kept posted on each QP.
  type Config = c: RawConfig | 1 <= c.n && 1 <= c.iters && 1 <= c.rxDepth
    witness RawConfig(1, 1, 1)

  datatype Side = Client | Server {
    function Peer(): Side {
      if this == Client then Server else Client
    }
  }

  // The two work-request ids, PINGPONG_RECV_WRID and PINGPONG_SEND_WRID.
  datatype WrId = Recv | Send

  // A successful work completion on the QP with index `qp`.
  datatype Wc = Wc(qp: nat, id: WrId)

  // The program's two-bit mask `pending_qp[k]` and its credit count `routs_arr[k]`.
  datatype Local = Local(recvBit: bool, sendBit: bool, routs: int) {
    function Clear(id: WrId): Local {
      if id == Recv then this.(recvBit := false) else this.(sendBit := false)
    }
  }

  // `failed` is set when the program gives up with an error return.
  datatype Host = Host(qps: seq<Local>, scnt: int, rcnt: int, failed: bool)

  // A completion as the program meets it, with the adapter's answers to the
  // posts it may try: how many more receives fit, and whether a send fits.
  datatype Item = Item(qp: nat, id: WrId, recvRoom: nat, sendRoom: bool)

  datatype Outcome = Outcome(host: Host, recvs: nat, sent: bool)

  // `pp_post_recv_pQp`: receives accepted out of `wanted`, stopping at the first refusal.
  function PostedReceives(wanted: int, room: nat): nat {
    if wanted <= 0 then 0 else if wanted <= room then wanted else room
  }

  // The loop test of `runPingPong`, negated.
  predicate Done(c: Config, h: Host) {
    h.rcnt >= c.iters && h.scnt >= c.iters
  }

  // The tail of one iteration: clear the completed bit, then post a send when the
  // mask is empty and the shared send counter allows one more.
  function ClearAndSend(c: Config, h: Host, it: Item, recvs: nat): Outcome
    requires it.qp < |h.qps|
  {
    var l := h.qps[it.qp].Clear(it.id);
    if h.scnt < c.iters && !l.recvBit && !l.sendBit then
      if it.sendRoom then
        Outcome(h.(qps := h.qps[it.qp := Local(true, true, l.routs)]), recvs, true)
      else
        Outcome(h.(qps := h.qps[it.qp := l], failed := true), recvs, false)
    else
      Outcome(h.(qps := h.qps[it.qp := l]), recvs, false)
  }

  // One iteration of the loop over a polled batch.
  function Handle(c: Config, h: Host, it: Item): Outcome
    requires it.qp < |h.qps|
  {
    var l := h.qps[it.qp];
    match it.id
    case Send =>
      ClearAndSend(c, h.(scnt := h.scnt + 1), it, 0)
    case Recv =>
      var left := l.routs - 1;
      var recvs := if left <= 1 then PostedReceives(c.rxDepth - left, it.recvRoom) else 0;
      var h1 := h.(qps := h.qps[it.qp := l.(routs := left + recvs)]);
      if left <= 1 && left + recvs < c.rxDepth then
        Outcome(h1.(failed := true), recvs, false)
      else
        ClearAndSend(c, h1.(rcnt := h1.rcnt + 1), it, recvs)
  }

  // `credits`: receives posted and not yet consumed; `outgoing`: sends posted and not
  // yet delivered; `unacked`: delivered sends whose completion is not yet in the CQ.
  // `sent`, `acked`, `got` count the sends posted and the SEND and RECV completions
  // handled on this QP since the start.
  datatype Port = Port(credits: nat, outgoing: nat, unacked: nat, sent: nat, acked: nat, got: nat) {
    function Get(f: Field): nat {
      match f
      case Sent => sent
      case Acked => acked
      case Got => got
      case Outgoing => outgoing
      case Unacked => unacked
    }
  }

  datatype Field = Sent | Acked | Got | Outgoing | Unacked

  // `batch` is the part of the last poll that the program has not handled yet.
  datatype End = End(host: Host, ports: seq<Port>, cq: seq<Wc>, batch: seq<Wc>)

  datatype State = State(client: End, server: End) {
    function At(side: Side): End {
      if side == Client then client else server
    }
    function With(side: Side, e: End): State {
      if side == Client then this.(client := e) else this.(server := e)
    }
  }

  // Receives were posted on every QP before the handshake; then the client alone posts
  // one send per QP before both ends enter their loops.
  function InitHost(c: Config, side: Side): Host {
    Host(seq(c.n, i => Local(true, side == Client, c.rxDepth)), 0, 0, false)
  }

  function InitEnd(c: Config, side: Side): End {
    var k := if side == Client then 1 else 0;
    End(InitHost(c, side), seq(c.n, i => Port(c.rxDepth, k, 0, k, 0, 0)), [], [])
  }

  function Init(c: Config): State {
    State(InitEnd(c, Client), InitEnd(c, Server))
  }

  // Queue slots. A slot is free again once its completion has been polled, so the
  // queues of `rx_depth` receives and one send hold what is posted or still in the CQ.
  function RecvRoom(c: Config, e: End, k: nat): nat
    requires k < |e.ports|
  {
    var used := e.ports[k].credits + multiset(e.cq)[Wc(k, Recv)];
    if used <= c.rxDepth then c.rxDepth - used else 0
  }

  predicate SendRoom(e: End, k: nat)
    requires k < |e.ports|
  {
    e.ports[k].outgoing + e.ports[k].unacked + multiset(e.cq)[Wc(k, Send)] == 0
  }

  function ItemOf(c: Config, e: End, w: Wc): Item
    requires w.qp < |e.ports|
  {
    Item(w.qp, w.id, RecvRoom(c, e, w.qp), SendRoom(e, w.qp))
  }

  datatype Step =
    | Deliver(from: Side, k: nat)
    | Ack(side: Side, k: nat)
    | Poll(side: Side, count: nat)
    | Process(side: Side)

  predicate Shaped(c: Config, e: End) {
    && |e.host.qps| == c.n
    && |e.ports| == c.n
    && (forall w :: w in e.cq ==> w.qp < c.n)
    && (forall w :: w in e.batch ==> w.qp < c.n)
  }

  predicate Enabled(c: Config, s: State, step: Step) {
    && Shaped(c, s.client)
    && Shaped(c, s.server)
    && match step
       case Deliver(from, k) =>
         k < c.n && s.At(from).ports[k].outgoing > 0 && s.At(from.Peer()).ports[k].credits > 0
       case Ack(side, k) =>
         k < c.n && s.At(side).ports[k].unacked > 0
       case Poll(side, count) =>
         && !s.At(side).host.failed
         && !Done(c, s.At(side).host)
         && s.At(side).batch == []
         && 1 <= count <= |s.At(side).cq|
         && count <= 2 * c.n
       case Process(side) =>
         !s.At(side).host.failed && s.At(side).batch != []
  }

  function Delivered(e: End, k: nat): End
    requires k < |e.ports| && e.ports[k].outgoing > 0
  {
    var p := e.ports[k];
    e.(ports := e.ports[k := p.(outgoing := p.outgoing - 1, unacked := p.unacked + 1)])
  }

  function Arrived(e: End, k: nat): End
    requires k < |e.ports| && e.ports[k].credits > 0
  {
    var p := e.ports[k];
    e.(ports := e.ports[k := p.(credits := p.credits - 1)], cq := e.cq + [Wc(k, Recv)])
  }

  function Acknowledged(e: End, k: nat): End
    requires k < |e.ports| && e.ports[k].unacked > 0
  {
    var p := e.ports[k];
    e.(ports := e.ports[k := p.(unacked := p.unacked - 1)], cq := e.cq + [Wc(k, Send)])
  }

  function Polled(e: End, count: nat): End
    requires count <= |e.cq|
  {
    e.(cq := e.cq[count..], batch := e.cq[..count])
  }

  function Processed(c: Config, e: End): End
    requires Shaped(c, e) && e.batch != []
  {
    var w := e.batch[0];
    var o := Handle(c, e.host, ItemOf(c, e, w));
    var p := e.ports[w.qp];
    var k := if o.sent then 1 else 0;
    var q := p.(credits := p.credits + o.recvs,
                outgoing := p.outgoing + k,
                sent := p.sent + k,
                acked := p.acked + if w.id == Send then 1 else 0,
                got := p.got + if w.id == Recv then 1 else 0);
    End(o.host, e.ports[w.qp := q], e.cq, e.batch[1..])
  }

  function Apply(c: Config, s: State, step: Step): State
    requires Enabled(c, s, step)
  {
    match step
    case Deliver(from, k) =>
      s.With(from, Delivered(s.At(from), k)).With(from.Peer(), Arrived(s.At(from.Peer()), k))
    case Ack(side, k) =>
      s.With(side, Acknowledged(s.At(side), k))
    case Poll(side, count) =>
      s.With(side, Polled(s.At(side), count))
    case Process(side) =>
      s.With(side, Processed(c, s.At(side)))
  }

  // A run is the sequence of steps taken from the initial state.
  ghost predicate Legal(c: Config, steps: seq<Step>)
    decreases |steps|, 0
  {
    steps == [] ||
    (var last := |steps| - 1;
     Legal(c, steps[..last]) && Enabled(c, After(c, steps[..last]), steps[last]))
  }

  ghost function After(c: Config, steps: seq<Step>): State
    requires Legal(c, steps)
    decreases |steps|, 1
  {
    if steps == [] then Init(c)
    else
      var last := |steps| - 1;
      Apply(c, After(c, steps[..last]), steps[last])
  }

  lemma Extend(c: Config, steps: seq<Step>, step: Step)
    requires Legal(c, steps) && Enabled(c, After(c, steps), step)
    ensures Legal(c, steps + [step])
    ensures After(c, steps + [step]) == Apply(c, After(c, steps), step)
  {
    assert (steps + [step])[..|steps|] == steps;
  }
}
