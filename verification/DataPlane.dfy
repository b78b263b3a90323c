/**
 What the messages of a run carry. Receives and sends of QP `k` use the same slice of
 the end's one buffer, and slices may overlap. The adapter reads the slice into the wire
 at any time between the post and the delivery, as often as it likes.
 */
module DataPlane {
  import opened Basics
  import opened Protocol
  import opened Invariant
  import opened BufferSplit

  // The byte each end fills its buffer with before the run; the two differ by one.
  function Fill(side: Side): Byte {
    if side == Client then 0x7b else 0x7c
  }

  // One end's buffer, and for each QP what the adapter has read of the message on its way.
  datatype Mem = Mem(buf: seq<Byte>, wire: seq<Option<seq<Byte>>>)

  datatype World = World(proto: State, client: Mem, server: Mem) {
    function At(side: Side): Mem {
      if side == Client then client else server
    }
    function With(side: Side, m: Mem): World {
      if side == Client then this.(client := m) else this.(server := m)
    }
  }

  datatype WorldStep = Gather(side: Side, k: nat) | Move(step: Step)

  function InitMem(c: Config, size: nat, side: Side): Mem {
    Mem(seq(size, i => Fill(side)), seq(c.n, i => None))
  }

  function InitWorld(c: Config, size: nat): World {
    World(Init(c), InitMem(c, size, Client), InitMem(c, size, Server))
  }

  predicate Sized(c: Config, size: nat, w: World) {
    && |w.client.buf| == |w.server.buf| == size
    && |w.client.wire| == |w.server.wire| == c.n
  }

  function Slice(c: Config, size: nat, m: Mem, k: nat): seq<Byte>
    requires k < c.n && |m.buf| == size
  {
    SliceInRegion(size, c.n, k);
    m.buf[Offset(size, c.n, k)..Offset(size, c.n, k) + Share(size, c.n, k)]
  }

  predicate WorldEnabled(c: Config, size: nat, w: World, step: WorldStep) {
    && Sized(c, size, w)
    && match step
       case Gather(side, k) =>
         k < c.n && k < |w.proto.At(side).ports| && w.proto.At(side).ports[k].outgoing > 0
       case Move(move) =>
         && Enabled(c, w.proto, move)
         && (move.Deliver? ==>
               && w.At(move.from).wire[move.k].Some?
               && |w.At(move.from).wire[move.k].value| == Share(size, c.n, move.k))
  }

  // The receive lands in the slice of the same QP at the other end.
  function Written(c: Config, size: nat, m: Mem, k: nat, payload: seq<Byte>): Mem
    requires k < c.n && |m.buf| == size && |payload| == Share(size, c.n, k)
  {
    SliceInRegion(size, c.n, k);
    var from, to := Offset(size, c.n, k), Offset(size, c.n, k) + Share(size, c.n, k);
    m.(buf := m.buf[..from] + payload + m.buf[to..])
  }

  function WorldApply(c: Config, size: nat, w: World, step: WorldStep): World
    requires WorldEnabled(c, size, w, step)
  {
    match step
    case Gather(side, k) =>
      var m := w.At(side);
      w.With(side, m.(wire := m.wire[k := Some(Slice(c, size, m, k))]))
    case Move(move) =>
      var w1 := w.(proto := Apply(c, w.proto, move));
      if move.Deliver? then
        var m, to := w.At(move.from), move.from.Peer();
        w1.With(move.from, m.(wire := m.wire[move.k := None]))
          .With(to, Written(c, size, w.At(to), move.k, m.wire[move.k].value))
      else w1
  }

  ghost predicate WorldLegal(c: Config, size: nat, steps: seq<WorldStep>)
    decreases |steps|, 0
  {
    steps == [] ||
    (var last := |steps| - 1;
     && WorldLegal(c, size, steps[..last])
     && WorldEnabled(c, size, WorldAfter(c, size, steps[..last]), steps[last]))
  }

  ghost function WorldAfter(c: Config, size: nat, steps: seq<WorldStep>): World
    requires WorldLegal(c, size, steps)
    decreases |steps|, 1
  {
    if steps == [] then InitWorld(c, size)
    else
      var last := |steps| - 1;
      WorldApply(c, size, WorldAfter(c, size, steps[..last]), steps[last])
  }

  // A message of the client has arrived on QP `k`.
  predicate Reached(s: State, k: nat)
    requires k < |s.client.ports|
  {
    s.client.ports[k].sent > s.client.ports[k].outgoing
  }

  // Byte `b` of the server's buffer has been written by a message of the client.
  ghost predicate Overwritten(c: Config, size: nat, s: State, b: int) {
    exists k: nat :: k < c.n && k < |s.client.ports| && Reached(s, k) && InSlice(size, c.n, k, b)
  }

  predicate IsFill(payload: seq<Byte>) {
    forall i :: 0 <= i < |payload| ==> payload[i] == Fill(Client)
  }

  predicate WireOk(c: Config, size: nat, m: Mem) {
    forall k :: 0 <= k < |m.wire| && m.wire[k].Some? ==>
      IsFill(m.wire[k].value) && |m.wire[k].value| == Share(size, c.n, k)
  }

  ghost predicate ServerBufferOk(c: Config, size: nat, s: State, buf: seq<Byte>) {
    forall b :: 0 <= b < |buf| ==>
      buf[b] == if Overwritten(c, size, s, b) then Fill(Client) else Fill(Server)
  }

  ghost predicate WorldInv(c: Config, size: nat, w: World) {
    && Inv(c, w.proto)
    && Sized(c, size, w)
    && IsFill(w.client.buf)
    && WireOk(c, size, w.client)
    && WireOk(c, size, w.server)
    && ServerBufferOk(c, size, w.proto, w.server.buf)
  }

  // A send of the server answers a message that has arrived in the same slice.
  lemma AnswersWhatArrived(c: Config, s: State, k: nat)
    requires Inv(c, s) && k < c.n && s.server.ports[k].outgoing > 0
    ensures Reached(s, k)
  {
    assert LinkOk(c, s.client, s.server, 0, k);
  }

  lemma GatherOk(c: Config, size: nat, w: World, side: Side, k: nat)
    requires WorldInv(c, size, w) && WorldEnabled(c, size, w, Gather(side, k))
    ensures WorldInv(c, size, WorldApply(c, size, w, Gather(side, k)))
  {
    var m := w.At(side);
    SliceInRegion(size, c.n, k);
    var payload := Slice(c, size, m, k);
    var off := Offset(size, c.n, k);
    if side == Server {
      AnswersWhatArrived(c, w.proto, k);
    }
    forall i | 0 <= i < |payload|
      ensures payload[i] == Fill(Client)
    {
      assert payload[i] == m.buf[off + i];
      assert InSlice(size, c.n, k, off + i);
    }
  }

  // The client's own sends do not count as arrived.
  lemma ReachedAfterProcess(c: Config, e: End, j: nat)
    requires Shaped(c, e) && e.batch != [] && j < c.n
    ensures |Processed(c, e).ports| == c.n
    ensures Processed(c, e).ports[j].sent - Processed(c, e).ports[j].outgoing
            == e.ports[j].sent - e.ports[j].outgoing
  {
    ProcessShaped(c, e);
  }

  lemma ReachedAfterDeliver(c: Config, s: State, from: Side, k: nat, j: nat)
    requires Inv(c, s) && Enabled(c, s, Deliver(from, k)) && j < c.n
    ensures var t := Apply(c, s, Deliver(from, k));
            && |t.client.ports| == c.n
            && (Reached(t, j) <==> Reached(s, j) || (from == Client && k == j))
  {
    assert LinkOk(c, s.client, s.server, 0, j);
  }

  // Only a delivery from the client reaches a further slice of the server.
  lemma ReachedAfter(c: Config, s: State, step: Step, j: nat)
    requires Inv(c, s) && Enabled(c, s, step) && j < c.n
    ensures Inv(c, Apply(c, s, step))
    ensures Reached(Apply(c, s, step), j) <==> Reached(s, j) || step == Deliver(Client, j)
  {
    StepOk(c, s, step);
    match step
    case Deliver(from, k) => ReachedAfterDeliver(c, s, from, k, j);
    case Ack(_, _) =>
    case Poll(_, _) =>
    case Process(side) =>
      if side == Client {
        ReachedAfterProcess(c, s.client, j);
      }
  }

  lemma OverwrittenAfter(c: Config, size: nat, s: State, step: Step, b: int)
    requires Inv(c, s) && Enabled(c, s, step)
    ensures Overwritten(c, size, Apply(c, s, step), b)
            <==> Overwritten(c, size, s, b)
                 || (step.Deliver? && step.from == Client && InSlice(size, c.n, step.k, b))
  {
    forall j: nat | j < c.n
      ensures Inv(c, Apply(c, s, step))
      ensures Reached(Apply(c, s, step), j) <==> Reached(s, j) || step == Deliver(Client, j)
    {
      ReachedAfter(c, s, step, j);
    }
    StepOk(c, s, step);
    if step.Deliver? && step.from == Client && InSlice(size, c.n, step.k, b) {
      assert Reached(Apply(c, s, step), step.k);
    }
  }

  lemma QuietMoveOk(c: Config, size: nat, w: World, move: Step)
    requires WorldInv(c, size, w) && WorldEnabled(c, size, w, Move(move)) && !move.Deliver?
    ensures WorldInv(c, size, WorldApply(c, size, w, Move(move)))
  {
    StepOk(c, w.proto, move);
    forall b | 0 <= b < size
      ensures Overwritten(c, size, Apply(c, w.proto, move), b) <==> Overwritten(c, size, w.proto, b)
    {
      OverwrittenAfter(c, size, w.proto, move, b);
    }
  }

  lemma WrittenAt(c: Config, size: nat, m: Mem, k: nat, payload: seq<Byte>, b: nat)
    requires k < c.n && |m.buf| == size && |payload| == Share(size, c.n, k) && b < size
    requires IsFill(payload)
    ensures |Written(c, size, m, k, payload).buf| == size
    ensures Written(c, size, m, k, payload).buf[b]
            == if InSlice(size, c.n, k, b) then Fill(Client) else m.buf[b]
  {
    SliceInRegion(size, c.n, k);
  }

  lemma DeliverWorldOk(c: Config, size: nat, w: World, from: Side, k: nat)
    requires WorldInv(c, size, w) && WorldEnabled(c, size, w, Move(Deliver(from, k)))
    ensures WorldInv(c, size, WorldApply(c, size, w, Move(Deliver(from, k))))
  {
    var move := Deliver(from, k);
    StepOk(c, w.proto, move);
    var payload := w.At(from).wire[k].value;
    var w' := WorldApply(c, size, w, Move(move));
    SliceInRegion(size, c.n, k);
    forall b: nat | b < size
      ensures |w'.At(from.Peer()).buf| == size
      ensures w'.At(from.Peer()).buf[b]
              == if InSlice(size, c.n, k, b) then Fill(Client) else w.At(from.Peer()).buf[b]
      ensures Overwritten(c, size, w'.proto, b)
              <==> Overwritten(c, size, w.proto, b) || (from == Client && InSlice(size, c.n, k, b))
    {
      WrittenAt(c, size, w.At(from.Peer()), k, payload, b);
      OverwrittenAfter(c, size, w.proto, move, b);
    }
  }

  lemma {:induction false} WorldInvHolds(c: Config, size: nat, steps: seq<WorldStep>)
    requires WorldLegal(c, size, steps)
    ensures WorldInv(c, size, WorldAfter(c, size, steps))
  {
    if steps == [] {
      InitOk(c);
    } else {
      var last := |steps| - 1;
      WorldInvHolds(c, size, steps[..last]);
      var w := WorldAfter(c, size, steps[..last]);
      match steps[last]
      case Gather(side, k) => GatherOk(c, size, w, side, k);
      case Move(move) =>
        if move.Deliver? {
          DeliverWorldOk(c, size, w, move.from, move.k);
        } else {
          QuietMoveOk(c, size, w, move);
        }
    }
  }

  /**
   Every byte of every message in either direction, on every QP, is the client's initial
   fill 0x7b, and a message has the length of the receive it lands in. The client's whole
   buffer holds its fill at all times.
   */
  lemma {:induction false} WireIsClientFill(c: Config, size: nat, steps: seq<WorldStep>, side: Side, k: nat)
    requires WorldLegal(c, size, steps) && k < c.n
    ensures var w := WorldAfter(c, size, steps);
            && |w.At(side).wire| == c.n
            && (w.At(side).wire[k].Some? ==>
                  && (forall i :: 0 <= i < |w.At(side).wire[k].value| ==> w.At(side).wire[k].value[i] == 0x7b)
                  && |w.At(side).wire[k].value| == Share(size, c.n, k))
            && |w.client.buf| == size
            && forall b :: 0 <= b < size ==> w.client.buf[b] == 0x7b
  {
    WorldInvHolds(c, size, steps);
    assert Fill(Client) == 0x7b;
  }

  /**
   A byte of the server's buffer holds the client's fill exactly when a message has
   arrived in a slice with it, and the server's own until then. Bytes in no slice keep the
   server's own fill for ever.
   */
  lemma {:induction false} ServerBufferExactly(c: Config, size: nat, steps: seq<WorldStep>, b: nat)
    requires WorldLegal(c, size, steps) && b < size
    ensures var w := WorldAfter(c, size, steps);
            && |w.server.buf| == size
            && w.server.buf[b] == (if Overwritten(c, size, w.proto, b) then 0x7b else 0x7c)
            && (2 <= c.n <= size && b >= size - size % c.n ==> w.server.buf[b] == 0x7c)
  {
    WorldInvHolds(c, size, steps);
    UnusedTail(size, c.n, b);
    assert Fill(Client) == 0x7b && Fill(Server) == 0x7c;
  }

  lemma WorldExtend(c: Config, size: nat, steps: seq<WorldStep>, step: WorldStep)
    requires WorldLegal(c, size, steps) && WorldEnabled(c, size, WorldAfter(c, size, steps), step)
    ensures WorldLegal(c, size, steps + [step])
    ensures WorldAfter(c, size, steps + [step]) == WorldApply(c, size, WorldAfter(c, size, steps), step)
  {
    assert (steps + [step])[..|steps|] == steps;
  }

  // Reading the slice of a message on the wire makes its delivery possible.
  lemma GatherFirst(c: Config, size: nat, w: World, from: Side, k: nat)
    requires WorldInv(c, size, w) && Enabled(c, w.proto, Deliver(from, k))
    ensures WorldEnabled(c, size, w, Gather(from, k))
    ensures var read := WorldApply(c, size, w, Gather(from, k));
            read.proto == w.proto && WorldEnabled(c, size, read, Move(Deliver(from, k)))
  {
    SliceInRegion(size, c.n, k);
  }

  lemma Ready(c: Config, size: nat, world: seq<WorldStep>, move: Step) returns (more: seq<WorldStep>)
    requires WorldLegal(c, size, world) && Enabled(c, WorldAfter(c, size, world).proto, move)
    ensures WorldLegal(c, size, more)
    ensures WorldAfter(c, size, more).proto == WorldAfter(c, size, world).proto
    ensures WorldEnabled(c, size, WorldAfter(c, size, more), Move(move))
  {
    WorldInvHolds(c, size, world);
    more := world;
    if move.Deliver? {
      GatherFirst(c, size, WorldAfter(c, size, world), move.from, move.k);
      WorldExtend(c, size, world, Gather(move.from, move.k));
      more := world + [Gather(move.from, move.k)];
    }
  }

  /** The data do not hold the protocol up: every run of it is made with some reads of the slices. */
  lemma {:induction false} EveryRunCarriesData(c: Config, size: nat, steps: seq<Step>)
    returns (world: seq<WorldStep>)
    requires Legal(c, steps)
    ensures WorldLegal(c, size, world) && WorldAfter(c, size, world).proto == After(c, steps)
  {
    if steps == [] {
      world := [];
    } else {
      var last := |steps| - 1;
      var before := EveryRunCarriesData(c, size, steps[..last]);
      var ready := Ready(c, size, before, steps[last]);
      WorldExtend(c, size, ready, Move(steps[last]));
      MoveIsProtocols(c, size, WorldAfter(c, size, ready), steps[last]);
      world := ready + [Move(steps[last])];
    }
  }

  lemma MoveIsProtocols(c: Config, size: nat, w: World, move: Step)
    requires WorldEnabled(c, size, w, Move(move))
    ensures WorldApply(c, size, w, Move(move)).proto == Apply(c, w.proto, move)
  {
  }
}
