/**
 How far the echo pair gets: every run is finite, and what the client has written, and at
 the end has had back, at each point of its program.
 */
module EchoProgress {
  import opened Basics
  import opened EchoIo
  import opened EchoStreams

  // Bytes to be written over connection `j` and the later ones.
  function BytesFrom(p: Params, j: nat): nat
    decreases |p.msgs| - j
  {
    if j >= |p.msgs| then 0 else p.rounds * |p.msgs[j]| + BytesFrom(p, j + 1)
  }

  // Bytes the client has still to write.
  function Unwritten(p: Params, client: ClientPc): int {
    match client
    case Connect(_, j) => BytesFrom(p, j)
    case Write(_, j, round, rest) =>
      if j < |p.msgs| then |rest| + (p.rounds - round - 1) * |p.msgs[j]| + BytesFrom(p, j + 1) else 0
    case Read(_, j, round, _) =>
      if j < |p.msgs| then (p.rounds - round - 1) * |p.msgs[j]| + BytesFrom(p, j + 1) else 0
    case Close(_, _) => BytesFrom(p, Opened(p, client))
  }

  // A round of the server: `select`, a look at every slot, and the end of the scan.
  function Cycle(p: Params): nat {
    p.slots + 2
  }

  // A byte on its way to the server may cost it a whole round.
  function FlightWork(cycle: nat, conns: seq<Conn>): nat {
    if conns == [] then 0
    else (cycle + 3) * |conns[0].c2s| + |conns[0].s2c| + FlightWork(cycle, conns[1..])
  }

  // Slots in use.
  function Occupied(slots: seq<nat>): nat {
    if slots == [] then 0 else (if slots[0] == 0 then 0 else 1) + Occupied(slots[1..])
  }

  // The scan has a slot to read still ahead.
  ghost predicate Pending(s: State, from: nat, ready: set<nat>) {
    exists i: nat :: from <= i < |s.slots| && AtReady(s, i, ready)
  }

  // Slots still to be looked at. A round with a read ahead is paid for by that read.
  ghost function ScanWork(p: Params, s: State, from: nat, ready: set<nat>): int {
    |s.slots| - from + 1 - if Pending(s, from, ready) then Cycle(p) else 0
  }

  ghost function ServerWork(p: Params, s: State): int {
    match s.server
    case Select => 0
    case Scan(i, ready) => ScanWork(p, s, i, ready)
    case Send(i, ready, left) => ScanWork(p, s, i + 1, ready) + 2 * |left|
  }

  // A connection costs the server a round to accept it and a round to read its end.
  ghost function TableWork(p: Params, s: State): int {
    (2 * Cycle(p) + 1) * (|p.msgs| - Opened(p, s.client))
    + 2 * Cycle(p) * |s.backlog|
    + Cycle(p) * Occupied(s.slots)
    + |p.msgs| - s.closed
  }

  ghost function Measure(p: Params, s: State): int {
    (Cycle(p) + 4) * Unwritten(p, s.client)
    + TableWork(p, s)
    + FlightWork(Cycle(p), s.conns)
    + ServerWork(p, s)
  }

  lemma {:induction false} OccupiedUpdate(slots: seq<nat>, i: nat, v: nat)
    requires i < |slots|
    ensures Occupied(slots[i := v])
            == Occupied(slots) - (if slots[i] == 0 then 0 else 1) + (if v == 0 then 0 else 1)
  {
    if i == 0 {
      assert slots[0 := v][1..] == slots[1..];
    } else {
      assert slots[i := v][1..] == slots[1..][i - 1 := v];
      OccupiedUpdate(slots[1..], i - 1, v);
    }
  }

  lemma {:induction false} FlightUpdate(cycle: nat, conns: seq<Conn>, j: nat, c: Conn)
    requires j < |conns|
    ensures FlightWork(cycle, conns[j := c])
            == FlightWork(cycle, conns) - (cycle + 3) * |conns[j].c2s| - |conns[j].s2c|
               + (cycle + 3) * |c.c2s| + |c.s2c|
  {
    if j == 0 {
      assert conns[0 := c][1..] == conns[1..];
    } else {
      assert conns[j := c][1..] == conns[1..][j - 1 := c];
      FlightUpdate(cycle, conns[1..], j - 1, c);
    }
  }

  lemma Times(w: nat, a: nat, b: nat)
    ensures w * (a + b) == w * a + w * b
    ensures b >= 1 ==> w * b >= w
  {
  }

  // The next message was part of the bytes to come.
  lemma RoundBytes(p: Params, client: ClientPc, closed: nat, round: nat)
    requires p.Valid() && PlaceOk(p, client, closed) && client.g < p.Groups() && !client.Close?
    requires round <= p.rounds
    ensures client.j < |p.msgs|
    ensures Unwritten(p, AfterRound(p, client.g, client.j, round))
            == (p.rounds - round) * |p.msgs[client.j]| + BytesFrom(p, client.j + 1)
    ensures Opened(p, AfterRound(p, client.g, client.j, round)) == client.j + 1
  {
    NextPlace(p, client, closed, round);
    assert (p.rounds - round) * |p.msgs[client.j]|
        == (p.rounds - round - 1) * |p.msgs[client.j]| + |p.msgs[client.j]|;
  }

  // The server's part of the measure looks at the slots and its own position only.
  lemma ServerWorkSame(p: Params, s: State, t: State)
    requires t.server == s.server && t.slots == s.slots && |t.conns| == |s.conns|
    ensures ServerWork(p, t) == ServerWork(p, s)
  {
    assert forall i, ready :: AtReady(t, i, ready) <==> AtReady(s, i, ready);
    assert forall from, ready :: Pending(t, from, ready) <==> Pending(s, from, ready);
  }

  lemma ConnectDecreases(p: Params, s: State)
    requires p.Valid() && PlaceOk(p, s.client, s.closed) && Enabled(p, s, ClientConnect)
    ensures Measure(p, Connected(p, s)) < Measure(p, s)
  {
    RoundBytes(p, s.client, s.closed, 0);
    ServerWorkSame(p, s, Connected(p, s));
    Times(2 * Cycle(p), |s.backlog|, 1);
    Times(2 * Cycle(p) + 1, |p.msgs| - s.client.j - 1, 1);
  }

  lemma LessToWrite(w: nat, u: int, n: nat)
    ensures (w + 4) * (u - n) == (w + 4) * u - (w + 3) * n - n
  {
  }

  // What `write` has put on the stream is in flight.
  lemma WriteFlight(p: Params, s: State, n: nat)
    requires Enabled(p, s, ClientWrite(n))
    ensures FlightWork(Cycle(p), Written(p, s, n).conns) == FlightWork(Cycle(p), s.conns) + (Cycle(p) + 3) * n
  {
    var j := s.client.j;
    FlightUpdate(Cycle(p), s.conns, j, Written(p, s, n).conns[j]);
    Times(Cycle(p) + 3, |s.conns[j].c2s|, n);
  }

  lemma WriteDecreases(p: Params, s: State, n: nat)
    requires |s.conns| == |p.msgs| && Enabled(p, s, ClientWrite(n))
    ensures Measure(p, Written(p, s, n)) < Measure(p, s)
  {
    var t := Written(p, s, n);
    ServerWorkSame(p, s, t);
    WriteFlight(p, s, n);
    assert Unwritten(p, t.client) == Unwritten(p, s.client) - n;
    assert TableWork(p, t) == TableWork(p, s) by {
      assert Opened(p, t.client) == Opened(p, s.client);
    }
    LessToWrite(Cycle(p), Unwritten(p, s.client), n);
  }

  lemma ReadDecreases(p: Params, s: State, n: nat)
    requires p.Valid() && |s.conns| == |p.msgs| && PlaceOk(p, s.client, s.closed) && ExchangeOk(p, s)
    requires Enabled(p, s, ClientRead(n))
    ensures Measure(p, Received(p, s, n)) < Measure(p, s)
  {
    var t, j := Received(p, s, n), s.client.j;
    ServerWorkSame(p, s, t);
    FlightUpdate(Cycle(p), s.conns, j, t.conns[j]);
    RoundBytes(p, s.client, s.closed, s.client.round + 1);
  }

  lemma CloseDecreases(p: Params, s: State)
    requires p.Valid() && PlaceOk(p, s.client, s.closed) && Enabled(p, s, ClientClose)
    ensures Measure(p, Closed(p, s)) < Measure(p, s)
  {
    ServerWorkSame(p, s, Closed(p, s));
    assert Opened(p, Closed(p, s).client) == Opened(p, s.client);
    assert Unwritten(p, Closed(p, s).client) == Unwritten(p, s.client);
  }

  lemma SkipDecreases(p: Params, s: State)
    requires Enabled(p, s, ServerSkip) && s.server.i <= |s.slots|
    ensures Measure(p, Skipped(p, s)) < Measure(p, s)
  {
    var t, i, ready := Skipped(p, s), s.server.i, s.server.ready;
    assert forall k, r :: AtReady(t, k, r) <==> AtReady(s, k, r);
    assert !AtReady(s, i, ready);
    assert Pending(s, i, ready) ==> i < |s.slots| && Pending(t, i + 1, ready);
  }

  lemma ReadIsTaken(p: Params, s: State, n: nat)
    requires Enabled(p, s, ServerRead(n))
    ensures |ServerHas(p, s, n).server.left| <= n
  {
    StrlenIsLength(s.conns[s.slots[s.server.i] - 1].c2s[..n]);
  }

  lemma ServerReadDecreases(p: Params, s: State, n: nat)
    requires |s.slots| == p.slots && Enabled(p, s, ServerRead(n))
    ensures Measure(p, ServerHas(p, s, n)) < Measure(p, s)
  {
    var t, i := ServerHas(p, s, n), s.server.i;
    var j := s.slots[i] - 1;
    var w := Cycle(p);
    ReadIsTaken(p, s, n);
    assert Pending(s, i, s.server.ready);
    FlightUpdate(w, s.conns, j, t.conns[j]);
    Times(w + 3, |t.conns[j].c2s|, n);
    Times(w + 1, 0, n);
    assert (w + 3) * n == (w + 1) * n + 2 * n;
  }

  // Reading the end of a stream frees the slot that pays for the round.
  lemma EndDecreases(p: Params, s: State)
    requires |s.slots| == p.slots && Enabled(p, s, ServerEnd)
    ensures Measure(p, Ended(p, s)) < Measure(p, s)
  {
    var t, i, ready := Ended(p, s), s.server.i, s.server.ready;
    OccupiedUpdate(s.slots, i, 0);
    Times(Cycle(p), Occupied(t.slots), 1);
    assert Pending(s, i, ready);
  }

  lemma SendWork(p: Params, s: State, n: nat)
    requires Enabled(p, s, ServerSend(n))
    ensures ServerWork(p, ServerSent(p, s, n)) == ServerWork(p, s) - 2 * n
  {
    var t, i, ready := ServerSent(p, s, n), s.server.i, s.server.ready;
    assert forall k, r :: AtReady(t, k, r) <==> AtReady(s, k, r);
    assert Pending(s, i + 1, ready) <==> Pending(t, i + 1, ready);
  }

  lemma ServerSendDecreases(p: Params, s: State, n: nat)
    requires Enabled(p, s, ServerSend(n))
    ensures Measure(p, ServerSent(p, s, n)) < Measure(p, s)
  {
    var t := ServerSent(p, s, n);
    var j := s.slots[s.server.i] - 1;
    SendWork(p, s, n);
    FlightUpdate(Cycle(p), s.conns, j, t.conns[j]);
  }

  // A connection that is ready is read in the round that begins.
  lemma ReadyIsPending(p: Params, s: State)
    requires Enabled(p, s, ServerSelect) && ReadySet(s) != {}
    ensures Pending(Selected(p, s), 0, ReadySet(s))
  {
    var t := Selected(p, s);
    var j :| j in ReadySet(s);
    var i :| 0 <= i < |s.slots| && s.slots[i] == j + 1;
    assert t.slots[i] == j + 1;
    assert AtReady(t, i, ReadySet(s));
  }

  lemma SelectDecreases(p: Params, s: State)
    requires |s.slots| == p.slots && Enabled(p, s, ServerSelect)
    ensures Measure(p, Selected(p, s)) < Measure(p, s)
  {
    var t := Selected(p, s);
    if s.backlog != [] {
      Times(2 * Cycle(p), |t.backlog|, 1);
      if FirstFree(s.slots) < |s.slots| {
        OccupiedUpdate(s.slots, FirstFree(s.slots), s.backlog[0] + 1);
        Times(Cycle(p), Occupied(s.slots), 1);
      }
    } else {
      ReadyIsPending(p, s);
    }
  }

  /** Every step of client or server decreases a measure of the whole state. */
  lemma EchoStepDecreases(p: Params, s: State, step: Step)
    requires p.Valid() && Inv(p, s) && Enabled(p, s, step)
    ensures Measure(p, Apply(p, s, step)) < Measure(p, s)
  {
    match step
    case ClientConnect => ConnectDecreases(p, s);
    case ClientWrite(n) => WriteDecreases(p, s, n);
    case ClientRead(n) => ReadDecreases(p, s, n);
    case ClientClose => CloseDecreases(p, s);
    case ServerSelect => SelectDecreases(p, s);
    case ServerSkip => SkipDecreases(p, s);
    case ServerRead(n) => ServerReadDecreases(p, s, n);
    case ServerEnd => EndDecreases(p, s);
    case ServerSend(n) => ServerSendDecreases(p, s, n);
  }

  lemma {:induction false} OccupiedAtLeast(slots: seq<nat>, i: nat)
    requires i < |slots| && slots[i] != 0
    ensures Occupied(slots) >= 1
  {
    if i > 0 {
      OccupiedAtLeast(slots[1..], i - 1);
    }
  }

  lemma ProductNonNegative(a: nat, b: nat)
    ensures a * b >= 0
  {
  }

  lemma ScanIsPaid(p: Params, s: State, from: nat, ready: set<nat>)
    requires ScanOk(s, from, ready)
    ensures FlightWork(Cycle(p), s.conns) + Cycle(p) * Occupied(s.slots) + ScanWork(p, s, from, ready) >= 0
  {
    ProductNonNegative(Cycle(p), Occupied(s.slots));
    if Pending(s, from, ready) {
      var i: nat :| from <= i < |s.slots| && AtReady(s, i, ready);
      ReadIsPaid(Cycle(p), s.conns, s.slots, i);
    }
  }

  lemma ReadIsPaid(cycle: nat, conns: seq<Conn>, slots: seq<nat>, i: nat)
    requires i < |slots| && 1 <= slots[i] <= |conns|
    ensures FlightWork(cycle, conns) + cycle * Occupied(slots) >= cycle
  {
    OccupiedAtLeast(slots, i);
    Times(cycle, 0, Occupied(slots));
  }

  lemma UnwrittenNonNegative(p: Params, s: State)
    requires |s.conns| == |p.msgs| && ExchangeOk(p, s)
    ensures Unwritten(p, s.client) >= 0
  {
    match s.client
    case Connect(_, _) =>
    case Write(_, j, round, _) => ProductNonNegative(p.rounds - round - 1, |p.msgs[j]|);
    case Read(_, j, round, _) => ProductNonNegative(p.rounds - round - 1, |p.msgs[j]|);
    case Close(_, _) =>
  }

  lemma MeasureNonNegative(p: Params, s: State)
    requires Inv(p, s)
    ensures Measure(p, s) >= 0
  {
    UnwrittenNonNegative(p, s);
    ProductNonNegative(Cycle(p) + 4, Unwritten(p, s.client));
    ProductNonNegative(2 * Cycle(p) + 1, |p.msgs| - Opened(p, s.client));
    ProductNonNegative(2 * Cycle(p), |s.backlog|);
    ProductNonNegative(Cycle(p), Occupied(s.slots));
    ClosedBound(p, s);
    match s.server
    case Select =>
    case Scan(i, ready) => ScanIsPaid(p, s, i, ready);
    case Send(i, ready, _) => ScanIsPaid(p, s, i + 1, ready);
  }

  lemma ClosedBound(p: Params, s: State)
    requires Inv(p, s)
    ensures s.closed <= |p.msgs|
  {
  }

  lemma {:induction false} NothingInFlight(cycle: nat, conns: seq<Conn>)
    requires forall j :: 0 <= j < |conns| ==> conns[j].c2s == conns[j].s2c == []
    ensures FlightWork(cycle, conns) == 0
  {
    if conns != [] {
      NothingInFlight(cycle, conns[1..]);
    }
  }

  lemma {:induction false} NoneOccupied(slots: seq<nat>)
    requires forall i :: 0 <= i < |slots| ==> slots[i] == 0
    ensures Occupied(slots) == 0
  {
    if slots != [] {
      NoneOccupied(slots[1..]);
    }
  }

  lemma InitMeasure(p: Params)
    ensures Measure(p, Init(p)) == (p.slots + 6) * BytesFrom(p, 0) + 2 * (p.slots + 3) * |p.msgs|
  {
    NothingInFlight(Cycle(p), Init(p).conns);
    NoneOccupied(Init(p).slots);
    assert (2 * Cycle(p) + 1) * |p.msgs| + |p.msgs| == 2 * (p.slots + 3) * |p.msgs|;
    assert Opened(p, Init(p).client) == 0;
  }

  lemma {:induction false} StepsPlusMeasure(p: Params, steps: seq<Step>)
    requires p.Valid() && Legal(p, steps)
    ensures |steps| + Measure(p, After(p, steps)) <= Measure(p, Init(p))
  {
    if steps != [] {
      var last := |steps| - 1;
      StepsPlusMeasure(p, steps[..last]);
      InvHolds(p, steps[..last]);
      EchoStepDecreases(p, After(p, steps[..last]), steps[last]);
    }
  }

  /**
   Every run is finite, whatever the buffers and the table: at most a round of the server
   and four steps for each byte to be sent, and two rounds and two steps for each connection.
   */
  lemma EchoRunsAreBounded(p: Params, steps: seq<Step>)
    requires p.Valid() && Legal(p, steps)
    ensures |steps| <= (p.slots + 6) * BytesFrom(p, 0) + 2 * (p.slots + 3) * |p.msgs|
  {
    InvHolds(p, steps);
    MeasureNonNegative(p, After(p, steps));
    StepsPlusMeasure(p, steps);
    InitMeasure(p);
  }

  // `count` copies of a message, one after the other.
  function Copies(msg: seq<Byte>, count: nat): seq<Byte> {
    if count == 0 then [] else Copies(msg, count - 1) + msg
  }

  // What the client has written over connection `j` when it is at this point.
  function WrittenBy(p: Params, client: ClientPc, j: nat): seq<Byte>
    requires j < |p.msgs|
  {
    if j >= Opened(p, client) then []
    else if client.Close? || j < client.j then Copies(p.msgs[j], p.rounds)
    else
      match client
      case Write(_, _, round, rest) =>
        Copies(p.msgs[j], round)
        + if |rest| <= |p.msgs[j]| then p.msgs[j][..|p.msgs[j]| - |rest|] else []
      case Read(_, _, round, _) => Copies(p.msgs[j], round + 1)
      case _ => []
  }

  lemma {:induction false} CopiesLength(msg: seq<Byte>, count: nat)
    ensures |Copies(msg, count)| == count * |msg|
  {
    if count > 0 {
      CopiesLength(msg, count - 1);
      assert (count - 1) * |msg| + |msg| == count * |msg|;
    }
  }

  // Bytes of `rounds` copies of each message from connection `j` on, one after the other.
  function AllCopies(p: Params, j: nat): seq<Byte>
    decreases |p.msgs| - j
  {
    if j >= |p.msgs| then [] else Copies(p.msgs[j], p.rounds) + AllCopies(p, j + 1)
  }

  /** The bytes the bound on a run speaks of are those of all copies of all messages. */
  lemma {:induction false} BytesAreCopies(p: Params, j: nat)
    ensures BytesFrom(p, j) == |AllCopies(p, j)|
    decreases |p.msgs| - j
  {
    if j < |p.msgs| {
      CopiesLength(p.msgs[j], p.rounds);
      BytesAreCopies(p, j + 1);
    }
  }

  ghost predicate SentOk(p: Params, s: State)
    requires |s.conns| == |p.msgs|
  {
    forall j :: 0 <= j < |s.conns| ==> s.conns[j].sent == WrittenBy(p, s.client, j)
  }

  lemma NextRoundWritten(p: Params, client: ClientPc, closed: nat, round: nat, k: nat)
    requires p.Valid() && PlaceOk(p, client, closed) && client.g < p.Groups() && !client.Close?
    requires k < |p.msgs| && round <= p.rounds
    ensures client.j < |p.msgs|
    ensures WrittenBy(p, AfterRound(p, client.g, client.j, round), k)
            == if k == client.j then Copies(p.msgs[k], round)
               else if k < client.j then Copies(p.msgs[k], p.rounds)
               else []
  {
    NextPlace(p, client, closed, round);
    assert Copies(p.msgs[client.j], round) + p.msgs[client.j][..0] == Copies(p.msgs[client.j], round);
  }

  lemma WriteSentOk(p: Params, s: State, n: nat)
    requires |s.conns| == |p.msgs| && PlaceOk(p, s.client, s.closed) && ExchangeOk(p, s)
    requires SentOk(p, s) && Enabled(p, s, ClientWrite(n))
    ensures SentOk(p, Written(p, s, n))
  {
    var j, rest := s.client.j, s.client.rest;
    var msg := p.msgs[j];
    var from := |msg| - |rest|;
    assert rest[..n] == msg[from..from + n];
    assert msg[..from + n] == msg[..from] + rest[..n];
    assert Copies(msg, s.client.round) + msg[..from + n] == Copies(msg, s.client.round) + msg[..from] + rest[..n];
    if from + n == |msg| {
      assert msg[..from + n] == msg;
    }
  }

  lemma ClientSentOk(p: Params, s: State, step: Step)
    requires p.Valid() && |s.conns| == |p.msgs| && PlaceOk(p, s.client, s.closed) && ExchangeOk(p, s)
    requires SentOk(p, s) && Enabled(p, s, step) && (step.ClientConnect? || step.ClientRead?)
    ensures SentOk(p, Apply(p, s, step))
  {
    var j, t := s.client.j, Apply(p, s, step);
    var round := if step.ClientConnect? then 0 else s.client.round + 1;
    forall k | 0 <= k < |s.conns|
      ensures t.conns[k].sent == WrittenBy(p, t.client, k)
    {
      NextRoundWritten(p, s.client, s.closed, round, k);
    }
  }

  lemma CloseSentOk(p: Params, s: State)
    requires p.Valid() && Inv(p, s) && SentOk(p, s) && Enabled(p, s, ClientClose)
    ensures |Closed(p, s).conns| == |p.msgs| && SentOk(p, Closed(p, s))
  {
    var t := Closed(p, s);
    assert Opened(p, t.client) == Opened(p, s.client);
    forall k: nat | k < |p.msgs|
      ensures WrittenBy(p, t.client, k) == WrittenBy(p, s.client, k)
    {
    }
  }

  lemma ServerWritesNothing(p: Params, s: State, step: Step)
    requires Enabled(p, s, step)
    requires !step.ClientConnect? && !step.ClientRead? && !step.ClientWrite? && !step.ClientClose?
    ensures var t := Apply(p, s, step);
            && t.client == s.client
            && |t.conns| == |s.conns|
            && forall j :: 0 <= j < |s.conns| ==> t.conns[j].sent == s.conns[j].sent
  {
  }

  lemma ServerSentOk(p: Params, s: State, step: Step)
    requires |s.conns| == |p.msgs| && SentOk(p, s) && Enabled(p, s, step)
    requires !step.ClientConnect? && !step.ClientRead? && !step.ClientWrite? && !step.ClientClose?
    ensures |Apply(p, s, step).conns| == |p.msgs| && SentOk(p, Apply(p, s, step))
  {
    ServerWritesNothing(p, s, step);
  }

  lemma {:induction false} SentHolds(p: Params, steps: seq<Step>)
    requires p.Valid() && Legal(p, steps)
    ensures |After(p, steps).conns| == |p.msgs| && SentOk(p, After(p, steps))
  {
    if steps != [] {
      var last := |steps| - 1;
      SentHolds(p, steps[..last]);
      InvHolds(p, steps[..last]);
      var s := After(p, steps[..last]);
      match steps[last]
      case ClientConnect => ClientSentOk(p, s, steps[last]);
      case ClientWrite(n) => WriteSentOk(p, s, n);
      case ClientRead(_) => ClientSentOk(p, s, steps[last]);
      case ClientClose => CloseSentOk(p, s);
      case _ => ServerSentOk(p, s, steps[last]);
    }
  }
}
