/**
 When the echo pair hangs. There are two ways, and both can be told before the run: a
 message too long for the socket buffers, since the client reads nothing before its `write`
 has returned and the server nothing before its `send` has; and a group of connections too
 large for the table, since the server forgets a connection it has no slot for.
 */
module EchoHangs {
  import opened Basics
  import opened EchoIo
  import opened EchoStreams
  import opened EchoProgress
  import opened EchoTable

  ghost predicate Stuck(p: Params, s: State) {
    forall step :: !Enabled(p, s, step)
  }

  // The client has gone through all its groups.
  predicate ClientDone(p: Params, client: ClientPc) {
    client.Connect? && client.g == p.Groups()
  }

  // Nothing can move although the client has not finished.
  ghost predicate Hung(p: Params, s: State) {
    Stuck(p, s) && !ClientDone(p, s.client)
  }

  // The client waits on a connection the server has forgotten.
  predicate Lost(s: State) {
    (s.client.Write? || s.client.Read?) && s.client.j in s.dropped
  }

  lemma ScannerCanMove(p: Params, s: State)
    requires p.Valid() && |s.conns| == |p.msgs| && ServerOk(s) && s.server.Scan?
    ensures !Stuck(p, s)
  {
    var i, ready := s.server.i, s.server.ready;
    if !AtReady(s, i, ready) {
      assert Enabled(p, s, ServerSkip);
    } else if s.conns[s.slots[i] - 1].c2s != [] {
      assert Enabled(p, s, ServerRead(1));
    } else {
      assert Enabled(p, s, ServerEnd);
    }
  }

  // The server can move unless it is inside `send` with the buffers full.
  lemma ServerCanMove(p: Params, s: State, j: nat)
    requires p.Valid() && Inv(p, s) && j < Opened(p, s.client) && j !in s.dropped
    requires s.conns[j].c2s != [] && s.closed <= j && !s.server.Send?
    ensures !Stuck(p, s)
  {
    if s.server.Scan? {
      ScannerCanMove(p, s);
    } else {
      assert Somewhere(s, j);
      assert Held(s.slots, j) ==> j in ReadySet(s);
      assert Enabled(p, s, ServerSelect);
    }
  }

  // What the server is sending belongs to the exchange under way.
  lemma SendIsOfExchange(p: Params, s: State)
    requires Inv(p, s) && s.server.Send?
    ensures Exchanging(s.client, s.slots[s.server.i] - 1)
  {
    var i := s.slots[s.server.i] - 1;
    assert ConnOk(s.conns[i], Unsent(s, i));
    ConnLengths(s.conns[i], Unsent(s, i));
  }

  // Bytes of an exchange the client is reading are somewhere client or server can get at.
  lemma ReaderCanMove(p: Params, s: State)
    requires p.Valid() && Inv(p, s) && s.client.Read? && !Lost(s)
    ensures !Stuck(p, s)
  {
    var j := s.client.j;
    assert ConnOk(s.conns[j], Unsent(s, j));
    ConnLengths(s.conns[j], Unsent(s, j));
    if s.conns[j].s2c != [] {
      assert Enabled(p, s, ClientRead(1));
    } else if s.server.Send? {
      SendIsOfExchange(p, s);
      assert Enabled(p, s, ServerSend(1));
    } else {
      ServerCanMove(p, s, j);
    }
  }

  // Both ends can be inside a write only with the buffers full both ways.
  lemma WriterCanMove(p: Params, s: State)
    requires p.Valid() && Inv(p, s) && s.client.Write? && !Lost(s)
    requires |p.msgs[s.client.j]| <= p.up + p.down + 1
    ensures !Stuck(p, s)
  {
    var j := s.client.j;
    assert ConnOk(s.conns[j], Unsent(s, j));
    ConnLengths(s.conns[j], Unsent(s, j));
    if |s.conns[j].c2s| < p.up {
      assert Enabled(p, s, ClientWrite(1));
    } else if s.server.Send? {
      SendIsOfExchange(p, s);
      assert Enabled(p, s, ServerSend(1));
    } else {
      ServerCanMove(p, s, j);
    }
  }

  /** There are only two ways to hang: a message too long for the buffers, and a lost connection. */
  lemma HungIsLongOrLost(p: Params, s: State)
    requires p.Valid() && Inv(p, s) && Hung(p, s)
    ensures s.client.Write? || s.client.Read?
    ensures Lost(s) || (s.client.Write? && |p.msgs[s.client.j]| > p.up + p.down + 1)
  {
    match s.client
    case Connect(_, _) => assert Enabled(p, s, ClientConnect);
    case Close(_, _) => assert Enabled(p, s, ClientClose);
    case Read(_, _, _, _) =>
      if !Lost(s) {
        ReaderCanMove(p, s);
      }
    case Write(_, j, _, _) =>
      if !Lost(s) && |p.msgs[j]| <= p.up + p.down + 1 {
        WriterCanMove(p, s);
      }
  }

  lemma Extend(p: Params, steps: seq<Step>, step: Step)
    requires p.Valid() && Legal(p, steps) && Enabled(p, After(p, steps), step)
    ensures Legal(p, steps + [step])
    ensures After(p, steps + [step]) == Apply(p, After(p, steps), step)
    ensures Inv(p, After(p, steps))
    ensures 0 <= Measure(p, After(p, steps + [step])) < Measure(p, After(p, steps))
  {
    assert (steps + [step])[..|steps|] == steps;
    InvHolds(p, steps);
    InvHolds(p, steps + [step]);
    EchoStepDecreases(p, After(p, steps), step);
    MeasureNonNegative(p, After(p, steps + [step]));
  }

  // The client has not got past connection `j`, nor, if `reading` is false, past writing on it.
  predicate NotPast(p: Params, client: ClientPc, j: nat, reading: bool) {
    match client
    case Close(_, _) => Opened(p, client) <= j
    case Read(_, k, _, _) => if reading then k <= j else k < j
    case _ => client.j <= j
  }

  lemma NotPastIsNotDone(p: Params, s: State, j: nat, reading: bool)
    requires Inv(p, s) && NotPast(p, s.client, j, reading) && j < |p.msgs|
    ensures !ClientDone(p, s.client)
  {
  }

  // Connecting, reading and closing lead from before the connection to it at most.
  lemma ComesUpTo(p: Params, s: State, step: Step, j: nat, reading: bool)
    requires p.Valid() && p.rounds >= 1 && |s.conns| == |p.msgs| && PlaceOk(p, s.client, s.closed)
    requires NotPast(p, s.client, j, reading) && Enabled(p, s, step)
    requires step.ClientConnect? || step.ClientClose? || (step.ClientRead? && s.client.j < j)
    ensures NotPast(p, Apply(p, s, step).client, j, reading)
  {
    if step.ClientConnect? {
      NextPlace(p, s.client, s.closed, 0);
    } else if step.ClientRead? {
      NextPlace(p, s.client, s.closed, s.client.round + 1);
    }
  }

  // The same move with a single byte.
  function OneByte(step: Step): Step {
    match step
    case ClientWrite(_) => ClientWrite(1)
    case ClientRead(_) => ClientRead(1)
    case ServerRead(_) => ServerRead(1)
    case ServerSend(_) => ServerSend(1)
    case _ => step
  }

  lemma OneByteEnabled(p: Params, s: State, step: Step)
    requires p.Valid() && Enabled(p, s, step)
    ensures Enabled(p, s, OneByte(step)) && OneByte(OneByte(step)) == OneByte(step)
  {
  }

  // The server holds one byte at most, and the client is not past writing the long message.
  predicate Jamming(p: Params, s: State, j: nat) {
    && (s.server.Send? ==> |s.server.left| <= 1)
    && NotPast(p, s.client, j, false)
  }

  // Byte by byte, buffers and server together cannot take in the whole of the message.
  lemma StillWriting(p: Params, s: State, j: nat)
    requires p.Valid() && Inv(p, s) && Jamming(p, s, j) && j < |p.msgs|
    requires |p.msgs[j]| > p.up + p.down + 1
    requires Enabled(p, s, ClientWrite(1)) && s.client.j == j
    ensures Written(p, s, 1).client.Write?
  {
    assert ConnOk(s.conns[j], Unsent(s, j));
    ConnLengths(s.conns[j], Unsent(s, j));
  }

  lemma OneByteKeepsJamming(p: Params, s: State, step: Step, j: nat)
    requires p.Valid() && p.rounds >= 1 && Inv(p, s) && Jamming(p, s, j) && j < |p.msgs|
    requires |p.msgs[j]| > p.up + p.down + 1
    requires Enabled(p, s, step) && step == OneByte(step)
    ensures Jamming(p, Apply(p, s, step), j)
  {
    match step
    case ClientConnect => ComesUpTo(p, s, step, j, false);
    case ClientWrite(_) =>
      if s.client.j == j {
        StillWriting(p, s, j);
      }
    case ClientRead(_) => ComesUpTo(p, s, step, j, false);
    case ClientClose => ComesUpTo(p, s, step, j, false);
    case ServerSelect =>
    case ServerSkip =>
    case ServerRead(_) => ReadIsTaken(p, s, 1);
    case ServerEnd =>
    case ServerSend(_) =>
  }

  lemma {:induction false} JamWithin(p: Params, steps: seq<Step>, j: nat, bound: nat) returns (all: seq<Step>)
    requires p.Valid() && p.rounds >= 1 && j < |p.msgs| && |p.msgs[j]| > p.up + p.down + 1
    requires Legal(p, steps) && Jamming(p, After(p, steps), j) && Measure(p, After(p, steps)) <= bound
    ensures Legal(p, all) && Hung(p, After(p, all))
    decreases bound
  {
    var s := After(p, steps);
    if Stuck(p, s) {
      InvHolds(p, steps);
      NotPastIsNotDone(p, s, j, false);
      all := steps;
    } else {
      var step :| Enabled(p, s, step);
      var one := OneByte(step);
      OneByteEnabled(p, s, step);
      Extend(p, steps, one);
      OneByteKeepsJamming(p, s, one, j);
      all := JamWithin(p, steps + [one], j, bound - 1);
    }
  }

  lemma StartMeasure(p: Params)
    requires p.Valid()
    ensures Legal(p, []) && Inv(p, Init(p)) && Measure(p, Init(p)) >= 0
  {
    var none: seq<Step> := [];
    InvHolds(p, none);
    MeasureNonNegative(p, After(p, none));
  }

  /** A message that the buffers and one byte in the server's hands cannot take in can jam the pair. */
  lemma LongMessageJams(p: Params, j: nat) returns (steps: seq<Step>)
    requires p.Valid() && p.rounds >= 1 && j < |p.msgs| && |p.msgs[j]| > p.up + p.down + 1
    ensures Legal(p, steps) && Hung(p, After(p, steps))
  {
    StartMeasure(p);
    steps := JamWithin(p, [], j, Measure(p, Init(p)));
  }

  // The scan has only bytes to read ahead on connection `a` and the later ones.
  ghost predicate BytesAhead(s: State, a: nat, from: nat, ready: set<nat>) {
    forall i: nat :: from <= i && AtReady(s, i, ready) && s.slots[i] > a ==> s.conns[s.slots[i] - 1].c2s != []
  }

  ghost predicate NoEndsAhead(s: State, a: nat) {
    match s.server
    case Select => true
    case Scan(i, ready) => BytesAhead(s, a, i, ready)
    case Send(i, ready, _) => BytesAhead(s, a, i + 1, ready)
  }

  // The client is not past connection `t`, and those from `a` on still have their slots.
  ghost predicate Filling(p: Params, s: State, a: nat, t: nat) {
    && NotPast(p, s.client, t, true)
    && (t < Opened(p, s.client) ==> t in s.backlog)
    && NoEndsAhead(s, a)
    && AllIn(p, s, a, t)
  }

  predicate AllIn(p: Params, s: State, a: nat, t: nat) {
    forall k: nat :: a <= k < t && k < Opened(p, s.client) ==> Held(s.slots, k) || k in s.backlog
  }

  ghost predicate Doomed(p: Params, s: State, a: nat, t: nat) {
    Lost(s) || Filling(p, s, a, t)
  }

  // `t` is as many connections after the first of its group, or of the group before, as
  // there are slots.
  predicate Overfills(p: Params, g: nat, t: nat) {
    g < p.Groups() && t == p.starts[g] + p.slots && t < |p.msgs| && t <= p.starts[g + 1]
  }

  predicate ClientStep(step: Step) {
    step.ClientConnect? || step.ClientWrite? || step.ClientRead? || step.ClientClose?
  }

  // The client never gets an answer on a lost connection.
  lemma LostStays(p: Params, s: State, step: Step)
    requires p.Valid() && Inv(p, s) && Lost(s) && Enabled(p, s, step)
    ensures Lost(Apply(p, s, step))
  {
    assert Unserved(s, s.client.j);
  }

  lemma ClientKeepsAhead(s: State, u: State, a: nat)
    requires NoEndsAhead(s, a) && u.server == s.server && u.slots == s.slots && |u.conns| == |s.conns|
    requires forall k: nat :: k < |s.conns| && s.conns[k].c2s != [] ==> u.conns[k].c2s != []
    ensures NoEndsAhead(u, a)
  {
    assert forall i, ready :: AtReady(u, i, ready) == AtReady(s, i, ready);
  }

  lemma SameOpened(p: Params, s: State, step: Step)
    requires p.Valid() && |s.conns| == |p.msgs| && PlaceOk(p, s.client, s.closed)
    requires Enabled(p, s, step) && ClientStep(step)
    ensures var u := Apply(p, s, step);
            && u.slots == s.slots
            && if step.ClientConnect? then
                 Opened(p, u.client) == s.client.j + 1 && u.backlog == s.backlog + [s.client.j]
               else Opened(p, u.client) == Opened(p, s.client) && u.backlog == s.backlog
  {
    if step.ClientConnect? {
      NextPlace(p, s.client, s.closed, 0);
    } else if step.ClientRead? {
      NextPlace(p, s.client, s.closed, s.client.round + 1);
    }
  }

  lemma ClientKeepsIn(p: Params, s: State, step: Step, a: nat, t: nat)
    requires p.Valid() && |s.conns| == |p.msgs| && PlaceOk(p, s.client, s.closed)
    requires AllIn(p, s, a, t) && (t < Opened(p, s.client) ==> t in s.backlog)
    requires Enabled(p, s, step) && ClientStep(step)
    ensures var u := Apply(p, s, step);
            AllIn(p, u, a, t) && (t < Opened(p, u.client) ==> t in u.backlog)
  {
    SameOpened(p, s, step);
    var u := Apply(p, s, step);
    if step.ClientConnect? {
      assert u.backlog[|s.backlog|] == s.client.j;
    }
  }

  lemma WaitingIsNotRead(p: Params, s: State, n: nat, t: nat)
    requires Inv(p, s) && Enabled(p, s, ClientRead(n))
    requires t < Opened(p, s.client) ==> t in s.backlog
    ensures s.client.j != t
  {
    if t in s.backlog {
      assert Unserved(s, t);
    }
  }

  lemma ClientKeepsFilling(p: Params, s: State, step: Step, g: nat, t: nat)
    requires p.Valid() && p.rounds >= 1 && Overfills(p, g, t) && Inv(p, s)
    requires Filling(p, s, p.starts[g], t) && Enabled(p, s, step) && ClientStep(step)
    ensures Filling(p, Apply(p, s, step), p.starts[g], t)
  {
    ClientKeepsAhead(s, Apply(p, s, step), p.starts[g]);
    ClientKeepsIn(p, s, step, p.starts[g], t);
    if !step.ClientWrite? {
      if step.ClientRead? {
        WaitingIsNotRead(p, s, step.n, t);
      }
      ComesUpTo(p, s, step, t, true);
    }
  }

  // While the client waits at or before `t`, nothing from `a` on is closed, unless it is at `t`.
  lemma NothingClosed(p: Params, s: State, g: nat, t: nat)
    requires p.Valid() && Overfills(p, g, t) && PlaceOk(p, s.client, s.closed)
    requires (s.client.Write? || s.client.Read?) && s.client.j < t
    ensures s.closed <= p.starts[g]
  {
  }

  // What the new round finds ready from `a` on has bytes to read.
  lemma SelectAhead(p: Params, s: State, a: nat)
    requires |s.conns| == |p.msgs| && Enabled(p, s, ServerSelect) && s.closed <= a
    ensures NoEndsAhead(Selected(p, s), a)
  {
  }

  lemma SelectIn(p: Params, s: State, a: nat, t: nat)
    requires AllIn(p, s, a, t) && Enabled(p, s, ServerSelect)
    requires s.backlog != [] ==> FirstFree(s.slots) < |s.slots|
    ensures AllIn(p, Selected(p, s), a, t)
  {
    var u := Selected(p, s);
    forall k: nat | a <= k < t && k < Opened(p, s.client)
      ensures Held(u.slots, k) || k in u.backlog
    {
      if s.backlog != [] {
        assert s.backlog == [s.backlog[0]] + u.backlog;
        AcceptHolds(s.slots, s.backlog[0], k);
      }
    }
  }

  // When `t` is accepted all slots are taken by connections since `a`.
  lemma LastIsLost(p: Params, s: State, g: nat, t: nat)
    requires p.Valid() && p.rounds >= 1 && Overfills(p, g, t) && Inv(p, s) && SentOk(p, s)
    requires Filling(p, s, p.starts[g], t) && Enabled(p, s, ServerSelect)
    requires s.backlog != [] && s.backlog[0] == t && Exchanging(s.client, t)
    ensures Lost(Selected(p, s))
  {
    forall k: nat | p.starts[g] <= k < t
      ensures Held(s.slots, k)
    {
      if k in s.backlog {
        UnservedIsCurrent(p, s, k);
      }
    }
    TableIsFull(s.slots, p.starts[g]);
  }

  lemma SelectFilling(p: Params, s: State, g: nat, t: nat)
    requires p.Valid() && p.rounds >= 1 && Overfills(p, g, t) && Inv(p, s) && SentOk(p, s)
    requires Filling(p, s, p.starts[g], t) && Enabled(p, s, ServerSelect)
    requires s.client.Write? || s.client.Read?
    ensures Doomed(p, Selected(p, s), p.starts[g], t)
  {
    if s.backlog != [] {
      assert s.backlog[0] in s.backlog;
      UnservedIsCurrent(p, s, s.backlog[0]);
    }
    if s.client.j == t {
      UnservedIsCurrent(p, s, t);
      LastIsLost(p, s, g, t);
    } else if s.backlog == [] || FirstFree(s.slots) < |s.slots| {
      NothingClosed(p, s, g, t);
      SelectAhead(p, s, p.starts[g]);
      SelectIn(p, s, p.starts[g], t);
    }
  }

  // Only the stream at the scan's own slot is read.
  lemma ScanKeepsAhead(s: State, u: State, a: nat, from: nat, ready: set<nat>)
    requires BytesAhead(s, a, from, ready) && from < |s.slots| == |u.slots| && |u.conns| == |s.conns|
    requires DistinctSlots(s.slots) && s.slots[from] >= 1
    requires forall i :: from < i < |s.slots| ==> u.slots[i] == s.slots[i]
    requires forall k: nat :: k < |s.conns| && k != s.slots[from] - 1 ==> u.conns[k].c2s == s.conns[k].c2s
    ensures BytesAhead(u, a, from + 1, ready)
  {
    forall i: nat | from + 1 <= i && AtReady(u, i, ready) && u.slots[i] > a
      ensures u.conns[u.slots[i] - 1].c2s != []
    {
      assert AtReady(s, i, ready);
    }
  }

  lemma ServerKeepsAhead(p: Params, s: State, step: Step, a: nat)
    requires DistinctSlots(s.slots) && NoEndsAhead(s, a) && Enabled(p, s, step)
    requires step.ServerRead? || step.ServerEnd?
    ensures NoEndsAhead(Apply(p, s, step), a)
  {
    ScanKeepsAhead(s, Apply(p, s, step), a, s.server.i, s.server.ready);
  }

  lemma SendKeepsAhead(p: Params, s: State, n: nat, a: nat)
    requires NoEndsAhead(s, a) && Enabled(p, s, ServerSend(n))
    ensures NoEndsAhead(ServerSent(p, s, n), a)
  {
    var u := ServerSent(p, s, n);
    assert forall i, ready :: AtReady(u, i, ready) == AtReady(s, i, ready);
  }

  lemma SkipKeepsAhead(p: Params, s: State, a: nat)
    requires NoEndsAhead(s, a) && Enabled(p, s, ServerSkip)
    ensures NoEndsAhead(Skipped(p, s), a)
  {
    var u := Skipped(p, s);
    assert forall i, ready :: AtReady(u, i, ready) == AtReady(s, i, ready);
  }

  // A stream that ends is older than `a`.
  lemma EndKeepsIn(p: Params, s: State, a: nat, t: nat)
    requires p.Valid() && Inv(p, s) && AllIn(p, s, a, t) && NoEndsAhead(s, a) && Enabled(p, s, ServerEnd)
    ensures AllIn(p, Ended(p, s), a, t)
  {
    EndTable(p, s);
    assert s.slots[s.server.i] <= a;
  }

  lemma ServerKeepsFilling(p: Params, s: State, step: Step, g: nat, t: nat)
    requires p.Valid() && Overfills(p, g, t) && Inv(p, s)
    requires Filling(p, s, p.starts[g], t) && Enabled(p, s, step)
    requires step.ServerSkip? || step.ServerRead? || step.ServerEnd? || step.ServerSend?
    ensures Filling(p, Apply(p, s, step), p.starts[g], t)
  {
    var a := p.starts[g];
    if step.ServerSkip? {
      SkipKeepsAhead(p, s, a);
    } else if step.ServerSend? {
      SendKeepsAhead(p, s, step.n, a);
    } else {
      ServerKeepsAhead(p, s, step, a);
    }
    if step.ServerEnd? {
      EndKeepsIn(p, s, a, t);
    }
  }

  // The client moves first: the server moves only when the client waits.
  lemma StepKeepsDoomed(p: Params, s: State, step: Step, g: nat, t: nat)
    requires p.Valid() && p.rounds >= 1 && Overfills(p, g, t) && Inv(p, s) && SentOk(p, s)
    requires Doomed(p, s, p.starts[g], t) && Enabled(p, s, step)
    requires ClientStep(step) || s.client.Write? || s.client.Read?
    ensures Doomed(p, Apply(p, s, step), p.starts[g], t)
  {
    if Lost(s) {
      LostStays(p, s, step);
    } else if ClientStep(step) {
      ClientKeepsFilling(p, s, step, g, t);
    } else if step.ServerSelect? {
      SelectFilling(p, s, g, t);
    } else {
      ServerKeepsFilling(p, s, step, g, t);
    }
  }

  lemma DoomedIsNotDone(p: Params, s: State, g: nat, t: nat)
    requires Inv(p, s) && Overfills(p, g, t) && Doomed(p, s, p.starts[g], t)
    ensures !ClientDone(p, s.client)
    ensures s.client.Connect? ==> Enabled(p, s, ClientConnect)
    ensures s.client.Close? ==> Enabled(p, s, ClientClose)
  {
  }

  lemma {:induction false} FillWithin(p: Params, steps: seq<Step>, g: nat, t: nat, bound: nat)
    returns (all: seq<Step>)
    requires p.Valid() && p.rounds >= 1 && Overfills(p, g, t) && Legal(p, steps)
    requires Doomed(p, After(p, steps), p.starts[g], t) && Measure(p, After(p, steps)) <= bound
    ensures Legal(p, all) && Hung(p, After(p, all))
    decreases bound
  {
    var s := After(p, steps);
    InvHolds(p, steps);
    SentHolds(p, steps);
    DoomedIsNotDone(p, s, g, t);
    if Stuck(p, s) {
      all := steps;
    } else {
      var step :| Enabled(p, s, step) && (ClientStep(step) || s.client.Write? || s.client.Read?);
      Extend(p, steps, step);
      StepKeepsDoomed(p, s, step, g, t);
      all := FillWithin(p, steps + [step], g, t, bound - 1);
    }
  }

  /** A connection that can come when all slots are taken can be lost. */
  lemma FullTableLoses(p: Params, g: nat, t: nat) returns (steps: seq<Step>)
    requires p.Valid() && p.rounds >= 1 && Overfills(p, g, t)
    ensures Legal(p, steps) && Hung(p, After(p, steps))
  {
    StartMeasure(p);
    steps := FillWithin(p, [], g, t, Measure(p, Init(p)));
  }

  // Every message fits the buffers of its connection with one byte in the server's hands.
  predicate MessagesFit(p: Params) {
    forall j :: 0 <= j < |p.msgs| ==> |p.msgs[j]| <= p.up + p.down + 1
  }

  ghost predicate NeverHangs(p: Params) {
    forall steps :: Legal(p, steps) ==> !Hung(p, After(p, steps))
  }

  // Messages fit the buffers and groups the table, or nothing is sent at all.
  predicate Fits(p: Params) {
    p.rounds == 0 || (MessagesFit(p) && TableFits(p))
  }

  lemma FittingNeverHangs(p: Params, steps: seq<Step>)
    requires p.Valid() && Fits(p) && Legal(p, steps)
    ensures !Hung(p, After(p, steps))
  {
    InvHolds(p, steps);
    var s := After(p, steps);
    if Hung(p, s) {
      HungIsLongOrLost(p, s);
      if p.rounds >= 1 {
        NothingIsDropped(p, steps);
      }
    }
  }

  lemma UnfitGroup(p: Params) returns (g: nat, t: nat)
    requires p.Valid() && !TableFits(p)
    ensures Overfills(p, g, t)
  {
    g :| g < p.Groups() && !(p.Size(g) <= p.slots && (g + 1 < p.Groups() ==> p.Size(g) < p.slots));
    t := p.starts[g] + p.slots;
    assert g + 1 < p.Groups() ==> p.starts[g + 1] < p.starts[|p.starts| - 1];
  }

  /**
   No run hangs if and only if no message is more than one byte longer than the socket
   buffers in both directions together, no group has more connections than the server has
   slots, and only the last may have as many.
   */
  lemma NeverHangsExactly(p: Params)
    requires p.Valid()
    ensures NeverHangs(p) <==> Fits(p)
  {
    if Fits(p) {
      forall steps | Legal(p, steps)
        ensures !Hung(p, After(p, steps))
      {
        FittingNeverHangs(p, steps);
      }
    } else if !MessagesFit(p) {
      var j :| 0 <= j < |p.msgs| && |p.msgs[j]| > p.up + p.down + 1;
      var steps := LongMessageJams(p, j);
      assert Hung(p, After(p, steps));
    } else {
      var g, t := UnfitGroup(p);
      var steps := FullTableLoses(p, g, t);
      assert Hung(p, After(p, steps));
    }
  }

  // A finished run: every message has gone out and come back `rounds` times.
  ghost predicate Finished(p: Params, steps: seq<Step>) {
    && Legal(p, steps)
    && ClientDone(p, After(p, steps).client)
    && After(p, steps).closed == |After(p, steps).conns| == |p.msgs|
    && forall j :: 0 <= j < |p.msgs| ==>
         After(p, steps).conns[j].got == After(p, steps).conns[j].sent == Copies(p.msgs[j], p.rounds)
  }

  lemma DoneIsFinished(p: Params, steps: seq<Step>)
    requires p.Valid() && Legal(p, steps) && ClientDone(p, After(p, steps).client)
    ensures Finished(p, steps)
  {
    InvHolds(p, steps);
    SentHolds(p, steps);
  }

  lemma {:induction false} FinishWithin(p: Params, steps: seq<Step>, bound: nat) returns (all: seq<Step>)
    requires p.Valid() && Fits(p) && Legal(p, steps) && Measure(p, After(p, steps)) <= bound
    ensures steps <= all && Finished(p, all)
    decreases bound
  {
    var s := After(p, steps);
    if ClientDone(p, s.client) {
      DoneIsFinished(p, steps);
      all := steps;
    } else {
      FittingNeverHangs(p, steps);
      var step :| Enabled(p, s, step);
      Extend(p, steps, step);
      all := FinishWithin(p, steps + [step], bound - 1);
    }
  }

  /**
   When messages and groups fit, every run can be continued to one in which the client has
   had every message back, byte for byte, `rounds` times, and has closed all connections.
   */
  lemma EveryEchoCompletes(p: Params, steps: seq<Step>) returns (all: seq<Step>)
    requires p.Valid() && Fits(p) && Legal(p, steps)
    ensures steps <= all && Finished(p, all)
  {
    InvHolds(p, steps);
    MeasureNonNegative(p, After(p, steps));
    all := FinishWithin(p, steps, Measure(p, After(p, steps)));
  }
}
