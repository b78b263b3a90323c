/**
 The server's slot table over the groups of the client: when a connection can find no slot
 free. A select accepts before it reads the ends of the connections closed earlier, so
 those of one group may still hold their slots when the next group begins.
 */
module EchoTable {
  import opened Basics
  import opened EchoIo
  import opened EchoStreams
  import opened EchoProgress

  // Every group fits the table, and leaves a slot free for the next group to begin with.
  predicate TableFits(p: Params) {
    forall g: nat :: g < p.Groups() ==> p.Size(g) <= p.slots && (g + 1 < p.Groups() ==> p.Size(g) < p.slots)
  }

  // A connection the client is done with has carried its message.
  lemma DoneHasSent(p: Params, s: State, j: nat)
    requires p.Valid() && p.rounds >= 1 && Inv(p, s) && SentOk(p, s)
    requires j < Opened(p, s.client) && (j < s.client.j || s.client.Close?)
    ensures s.conns[j].got == s.conns[j].sent != []
    ensures s.conns[j].s2c == s.conns[j].c2s == []
  {
    assert Copies(p.msgs[j], p.rounds) == Copies(p.msgs[j], p.rounds - 1) + p.msgs[j];
    assert ConnOk(s.conns[j], Unsent(s, j));
    ConnLengths(s.conns[j], Unsent(s, j));
  }

  // So only the connection of the exchange under way can be waiting or dropped.
  lemma UnservedIsCurrent(p: Params, s: State, j: nat)
    requires p.Valid() && p.rounds >= 1 && Inv(p, s) && SentOk(p, s)
    requires j in s.backlog || j in s.dropped
    ensures Exchanging(s.client, j)
  {
    assert Unserved(s, j) && j < Opened(p, s.client);
    if j < s.client.j || s.client.Close? {
      DoneHasSent(p, s, j);
    }
  }

  // The connections numbered from `lo` up to `hi`, as slot values.
  ghost function Values(lo: nat, hi: nat): set<nat>
    decreases hi
  {
    if hi <= lo then {} else Values(lo, hi - 1) + {hi}
  }

  lemma {:induction false} ValuesSize(lo: nat, hi: nat)
    ensures |Values(lo, hi)| == if hi <= lo then 0 else hi - lo
    ensures forall v: nat :: v in Values(lo, hi) <==> lo < v <= hi
    decreases hi
  {
    if hi > lo {
      ValuesSize(lo, hi - 1);
    }
  }

  lemma {:induction false} DistinctFit(slots: seq<nat>, values: set<nat>)
    requires forall i :: 0 <= i < |slots| ==> slots[i] in values && slots[i] != 0
    requires DistinctSlots(slots)
    ensures |slots| <= |values|
  {
    if slots != [] {
      var rest := slots[1..];
      forall i | 0 <= i < |rest|
        ensures rest[i] in values - {slots[0]} && rest[i] != 0
      {
        assert slots[0] != slots[i + 1];
      }
      DistinctFit(rest, values - {slots[0]});
    }
  }

  // With fewer connections than slots about, a slot is free.
  lemma SlotIsFree(slots: seq<nat>, lo: nat, hi: nat)
    requires DistinctSlots(slots) && lo <= hi && hi - lo < |slots|
    requires forall k: nat :: Held(slots, k) ==> lo <= k < hi
    ensures FirstFree(slots) < |slots|
  {
    if FirstFree(slots) == |slots| {
      ValuesSize(lo, hi);
      forall i | 0 <= i < |slots|
        ensures slots[i] in Values(lo, hi)
      {
        assert Held(slots, slots[i] - 1);
      }
      DistinctFit(slots, Values(lo, hi));
    }
  }

  lemma {:induction false} OccupiedByAll(slots: seq<nat>, values: set<nat>)
    requires 0 !in values && forall v :: v in values ==> v in slots
    ensures |values| <= Occupied(slots) <= |slots|
    ensures Occupied(slots) == |slots| ==> FirstFree(slots) == |slots|
  {
    if slots != [] {
      var others := values - {slots[0]};
      forall v | v in others
        ensures v in slots[1..]
      {
        assert slots == [slots[0]] + slots[1..];
      }
      OccupiedByAll(slots[1..], others);
      if slots[0] in values {
        assert values == others + {slots[0]};
      } else {
        assert values == others;
      }
    }
  }

  // With as many connections as slots about, none is.
  lemma TableIsFull(slots: seq<nat>, lo: nat)
    requires forall k: nat :: lo <= k < lo + |slots| ==> Held(slots, k)
    ensures FirstFree(slots) == |slots|
  {
    ValuesSize(lo, lo + |slots|);
    forall v | v in Values(lo, lo + |slots|)
      ensures v in slots
    {
      assert Held(slots, v - 1);
    }
    OccupiedByAll(slots, Values(lo, lo + |slots|));
  }

  // Slot `i` holds a connection older than `a`.
  predicate Old(slots: seq<nat>, a: nat, i: nat) {
    i < |slots| && 1 <= slots[i] <= a
  }

  ghost predicate NoOlds(slots: seq<nat>, a: nat) {
    forall i: nat :: !Old(slots, a, i)
  }

  // The scan has all older connections still ahead, and no other to read.
  ghost predicate OldsAhead(slots: seq<nat>, a: nat, from: nat, ready: set<nat>) {
    && (forall i: nat :: Old(slots, a, i) ==> from <= i && slots[i] - 1 in ready)
    && (forall k :: k in ready ==> k < a)
  }

  ghost predicate OldsGoing(s: State, a: nat) {
    match s.server
    case Select => NoOlds(s.slots, a)
    case Scan(i, ready) => NoOlds(s.slots, a) || OldsAhead(s.slots, a, i, ready)
    case Send(i, ready, _) => NoOlds(s.slots, a) || OldsAhead(s.slots, a, i + 1, ready)
  }

  // The first connection of a group meets at most the group before it in the table. Once it
  // has a slot the others are on their way out, and gone before its first byte is read.
  ghost predicate GroupOk(p: Params, s: State, g: nat)
    requires |s.conns| == |p.msgs| && g < p.Groups() && p.starts[g] < |p.msgs|
  {
    var a := p.starts[g];
    && (forall i: nat :: Old(s.slots, a, i) ==> g >= 1 && s.slots[i] > p.starts[g - 1])
    && (Held(s.slots, a) ==> OldsGoing(s, a))
    && (s.conns[a].c2s != s.conns[a].sent ==> NoOlds(s.slots, a))
  }

  ghost predicate NoneLost(p: Params, s: State)
    requires |s.conns| == |p.msgs|
  {
    && s.dropped == {}
    && (s.client.g < p.Groups() && p.starts[s.client.g] < |p.msgs| ==> GroupOk(p, s, s.client.g))
  }

  // A step of the client within its group leaves the server and the table alone.
  lemma ClientKeepsGroup(p: Params, s: State, t: State, g: nat)
    requires |s.conns| == |t.conns| == |p.msgs| && g < p.Groups() && p.starts[g] < |p.msgs| && GroupOk(p, s, g)
    requires t.slots == s.slots && t.server == s.server
    requires var a := p.starts[g];
             t.conns[a].c2s != t.conns[a].sent ==> s.conns[a].c2s != s.conns[a].sent
    ensures GroupOk(p, t, g)
  {
  }

  lemma ClientNoneLost(p: Params, s: State, step: Step)
    requires p.Valid() && p.rounds >= 1 && Inv(p, s) && NoneLost(p, s) && Enabled(p, s, step)
    requires step.ClientConnect? || step.ClientWrite? || step.ClientRead?
    ensures |Apply(p, s, step).conns| == |p.msgs| && NoneLost(p, Apply(p, s, step))
  {
    ClientKeepsGroup(p, s, Apply(p, s, step), s.client.g);
  }

  // When a group is closed, those before it are gone from the table.
  lemma NextGroupOk(p: Params, s: State)
    requires p.Valid() && p.rounds >= 1 && Inv(p, s) && SentOk(p, s) && NoneLost(p, s)
    requires Enabled(p, s, ClientClose) && Closed(p, s).client.Connect? && s.client.g + 1 < p.Groups()
    ensures |Closed(p, s).conns| == |p.msgs| && p.starts[s.client.g + 1] < |p.msgs|
    ensures GroupOk(p, Closed(p, s), s.client.g + 1)
  {
    var g := s.client.g;
    DoneHasSent(p, s, p.starts[g]);
    assert NoOlds(s.slots, p.starts[g]);
    var a := p.starts[g + 1];
    assert a == Opened(p, s.client) == Opened(p, Closed(p, s).client);
    assert !Held(s.slots, a);
    forall i: nat | Old(s.slots, a, i)
      ensures s.slots[i] > p.starts[g]
    {
      assert !Old(s.slots, p.starts[g], i);
    }
  }

  lemma CloseNoneLost(p: Params, s: State)
    requires p.Valid() && p.rounds >= 1 && Inv(p, s) && SentOk(p, s) && NoneLost(p, s)
    requires Enabled(p, s, ClientClose)
    ensures |Closed(p, s).conns| == |p.msgs| && NoneLost(p, Closed(p, s))
  {
    var t := Closed(p, s);
    if t.client.Close? {
      ClientKeepsGroup(p, s, t, s.client.g);
    } else if s.client.g + 1 < p.Groups() {
      NextGroupOk(p, s);
    }
  }

  // An older connection ahead is not passed over.
  lemma SkipOlds(s: State, t: State, a: nat)
    requires s.server.Scan? && !AtReady(s, s.server.i, s.server.ready) && a <= |s.conns|
    requires t.slots == s.slots && OldsGoing(s, a)
    requires t.server == if s.server.i < |s.slots| then Scan(s.server.i + 1, s.server.ready) else Select
    ensures OldsGoing(t, a)
  {
    if !NoOlds(s.slots, a) {
      forall i: nat | Old(s.slots, a, i)
        ensures s.server.i < i
      {
        assert AtReady(s, i, s.server.ready);
      }
    }
  }

  lemma SkipNoneLost(p: Params, s: State)
    requires |s.conns| == |p.msgs| && NoneLost(p, s) && Enabled(p, s, ServerSkip)
    ensures NoneLost(p, Skipped(p, s))
  {
    var g := s.client.g;
    if g < p.Groups() && p.starts[g] < |p.msgs| && Held(s.slots, p.starts[g]) {
      SkipOlds(s, Skipped(p, s), p.starts[g]);
    }
  }

  // Bytes are read from the exchange under way, which is of the client's own group.
  lemma ReadIsOfExchange(p: Params, s: State, n: nat)
    requires Inv(p, s) && Enabled(p, s, ServerRead(n))
    ensures Exchanging(s.client, s.slots[s.server.i] - 1)
  {
    var j := s.slots[s.server.i] - 1;
    assert ConnOk(s.conns[j], Unsent(s, j));
    ConnLengths(s.conns[j], Unsent(s, j));
  }

  lemma ServerReadNoneLost(p: Params, s: State, n: nat)
    requires p.Valid() && Inv(p, s) && NoneLost(p, s) && Enabled(p, s, ServerRead(n))
    ensures |ServerHas(p, s, n).conns| == |p.msgs| && NoneLost(p, ServerHas(p, s, n))
  {
    ReadIsOfExchange(p, s, n);
    HeldAt(s, s.server.i);
    var a := p.starts[s.client.g];
    var t := ServerHas(p, s, n);
    assert GroupOk(p, s, s.client.g);
    if s.slots[s.server.i] - 1 == a {
      assert a in s.server.ready;
      assert NoOlds(s.slots, a);
    } else {
      assert !Old(s.slots, a, s.server.i);
    }
  }

  lemma EndOlds(s: State, t: State, a: nat)
    requires s.server.Scan? && s.server.i < |s.slots| && OldsGoing(s, a)
    requires t.slots == s.slots[s.server.i := 0] && t.server == Scan(s.server.i + 1, s.server.ready)
    ensures OldsGoing(t, a)
  {
    assert forall i: nat :: Old(t.slots, a, i) ==> Old(s.slots, a, i) && i != s.server.i && t.slots[i] == s.slots[i];
  }

  lemma EndNoneLost(p: Params, s: State)
    requires p.Valid() && Inv(p, s) && NoneLost(p, s) && Enabled(p, s, ServerEnd)
    ensures |Ended(p, s).conns| == |p.msgs| && NoneLost(p, Ended(p, s))
  {
    EndTable(p, s);
    if s.client.g < p.Groups() {
      EndGroup(p, s, Ended(p, s), s.client.g);
    }
  }

  lemma EndGroup(p: Params, s: State, t: State, g: nat)
    requires |s.conns| == |p.msgs| && g < p.Groups() && p.starts[g] < |p.msgs| && GroupOk(p, s, g)
    requires s.server.Scan? && s.server.i < |s.slots| && t.conns == s.conns
    requires t.slots == s.slots[s.server.i := 0] && t.server == Scan(s.server.i + 1, s.server.ready)
    requires forall k: nat :: Held(t.slots, k) ==> Held(s.slots, k)
    ensures GroupOk(p, t, g)
  {
    var a := p.starts[g];
    assert forall i: nat :: Old(t.slots, a, i) ==> Old(s.slots, a, i) && t.slots[i] == s.slots[i];
    if Held(t.slots, a) {
      EndOlds(s, t, a);
    }
  }

  lemma SendGroup(p: Params, s: State, n: nat, g: nat)
    requires |s.conns| == |p.msgs| && g < p.Groups() && p.starts[g] < |p.msgs| && GroupOk(p, s, g)
    requires Enabled(p, s, ServerSend(n))
    ensures GroupOk(p, ServerSent(p, s, n), g)
  {
  }

  lemma ServerSendNoneLost(p: Params, s: State, n: nat)
    requires |s.conns| == |p.msgs| && NoneLost(p, s) && Enabled(p, s, ServerSend(n))
    ensures NoneLost(p, ServerSent(p, s, n))
  {
    if s.client.g < p.Groups() && p.starts[s.client.g] < |p.msgs| {
      SendGroup(p, s, n, s.client.g);
    }
  }

  // Past the first connection of its group the client has that one served.
  lemma FirstIsHeld(p: Params, s: State)
    requires p.Valid() && p.rounds >= 1 && Inv(p, s) && SentOk(p, s) && NoneLost(p, s)
    requires (s.client.Write? || s.client.Read?) && s.client.j > p.starts[s.client.g]
    ensures Held(s.slots, p.starts[s.client.g])
  {
    var a := p.starts[s.client.g];
    assert Somewhere(s, a);
    if a in s.backlog {
      UnservedIsCurrent(p, s, a);
    }
  }

  lemma FirstFits(p: Params, s: State, g: nat)
    requires p.Valid() && TableFits(p) && |s.conns| == |p.msgs| && g < p.Groups()
    requires p.starts[g] < |p.msgs| && GroupOk(p, s, g)
    requires |s.slots| == p.slots && DistinctSlots(s.slots)
    requires forall i :: 0 <= i < |s.slots| ==> s.slots[i] <= p.starts[g]
    ensures FirstFree(s.slots) < |s.slots|
  {
    var lo := if g == 0 then 0 else p.starts[g - 1];
    forall k: nat | Held(s.slots, k)
      ensures lo <= k < p.starts[g]
    {
      var i :| 0 <= i < |s.slots| && s.slots[i] == k + 1;
      assert Old(s.slots, p.starts[g], i);
    }
    assert p.Size(g) <= p.slots && (g > 0 ==> p.Size(g - 1) < p.slots);
    SlotIsFree(s.slots, lo, p.starts[g]);
  }

  lemma LaterFits(p: Params, s: State, g: nat, j: nat)
    requires p.Valid() && TableFits(p) && g < p.Groups() && p.starts[g] < j < p.starts[g + 1]
    requires |s.slots| == p.slots && DistinctSlots(s.slots) && NoOlds(s.slots, p.starts[g])
    requires forall i :: 0 <= i < |s.slots| ==> s.slots[i] <= j
    ensures FirstFree(s.slots) < |s.slots|
  {
    var a := p.starts[g];
    forall k: nat | Held(s.slots, k)
      ensures a <= k < j
    {
      var i :| 0 <= i < |s.slots| && s.slots[i] == k + 1;
      assert !Old(s.slots, a, i);
    }
    assert p.Size(g) <= p.slots;
    SlotIsFree(s.slots, a, j);
  }

  // The connection waiting is the newest, and no slot holds it.
  lemma OthersAreEarlier(p: Params, s: State)
    requires Inv(p, s) && s.backlog != [] && Exchanging(s.client, s.backlog[0])
    ensures forall i :: 0 <= i < |s.slots| ==> s.slots[i] <= s.client.j
  {
    assert !Held(s.slots, s.backlog[0]);
    forall i | 0 <= i < |s.slots|
      ensures s.slots[i] <= s.client.j
    {
      if s.slots[i] >= 1 {
        HeldAt(s, i);
      }
    }
  }

  // The connection to accept finds a slot.
  lemma AcceptFits(p: Params, s: State)
    requires p.Valid() && p.rounds >= 1 && Inv(p, s) && SentOk(p, s) && NoneLost(p, s) && TableFits(p)
    requires s.backlog != [] && s.server.Select?
    ensures Exchanging(s.client, s.backlog[0])
    ensures FirstFree(s.slots) < |s.slots|
    ensures s.backlog[0] > p.starts[s.client.g] ==>
              Held(s.slots, p.starts[s.client.g]) && NoOlds(s.slots, p.starts[s.client.g])
  {
    var j, g := s.backlog[0], s.client.g;
    assert j in s.backlog;
    UnservedIsCurrent(p, s, j);
    OthersAreEarlier(p, s);
    if j == p.starts[g] {
      FirstFits(p, s, g);
    } else {
      FirstIsHeld(p, s);
      LaterFits(p, s, g, j);
    }
  }

  // The select that accepts the first connection of a group sees the end of all before it.
  lemma SelectOlds(p: Params, s: State)
    requires p.Valid() && p.rounds >= 1 && Inv(p, s) && SentOk(p, s) && NoneLost(p, s) && TableFits(p)
    requires Enabled(p, s, ServerSelect) && s.backlog != [] && s.backlog[0] == p.starts[s.client.g]
    ensures OldsAhead(Selected(p, s).slots, p.starts[s.client.g], 0, ReadySet(s))
  {
    AcceptFits(p, s);
    var a, t := p.starts[s.client.g], Selected(p, s);
    assert GroupOk(p, s, s.client.g);
    assert s.closed == a;
    forall i: nat | Old(t.slots, a, i)
      ensures t.slots[i] - 1 in ReadySet(s)
    {
      assert s.slots[i] == t.slots[i];
      HeldAt(s, i);
      assert Readable(s, s.slots[i] - 1);
    }
    forall k | k in ReadySet(s)
      ensures k < a
    {
      assert Held(s.slots, k) && k != a;
      assert k + 1 <= Opened(p, s.client);
    }
  }

  // Accepting a connection of the client's own group adds no older one.
  lemma SelectGroup(p: Params, s: State, g: nat)
    requires |s.conns| == |p.msgs| && g < p.Groups() && p.starts[g] < |p.msgs| && GroupOk(p, s, g)
    requires Enabled(p, s, ServerSelect)
    requires s.backlog != [] ==> s.backlog[0] >= p.starts[g]
    requires Held(s.slots, p.starts[g]) || s.backlog == []
             || OldsAhead(Selected(p, s).slots, p.starts[g], 0, ReadySet(s))
    ensures GroupOk(p, Selected(p, s), g)
  {
    var a, t := p.starts[g], Selected(p, s);
    assert forall i: nat :: Old(t.slots, a, i) ==> Old(s.slots, a, i) && t.slots[i] == s.slots[i];
    assert NoOlds(s.slots, a) ==> NoOlds(t.slots, a);
  }

  lemma SelectNoneLost(p: Params, s: State)
    requires p.Valid() && p.rounds >= 1 && Inv(p, s) && SentOk(p, s) && NoneLost(p, s) && TableFits(p)
    requires Enabled(p, s, ServerSelect)
    ensures NoneLost(p, Selected(p, s))
  {
    if s.backlog != [] {
      AcceptFits(p, s);
      if s.backlog[0] == p.starts[s.client.g] {
        SelectOlds(p, s);
      }
    }
    if s.client.g < p.Groups() {
      SelectGroup(p, s, s.client.g);
    }
  }

  lemma StepNoneLost(p: Params, s: State, step: Step)
    requires p.Valid() && p.rounds >= 1 && Inv(p, s) && SentOk(p, s) && NoneLost(p, s) && TableFits(p)
    requires Enabled(p, s, step)
    ensures |Apply(p, s, step).conns| == |p.msgs| && NoneLost(p, Apply(p, s, step))
  {
    match step
    case ClientConnect => ClientNoneLost(p, s, step);
    case ClientWrite(_) => ClientNoneLost(p, s, step);
    case ClientRead(_) => ClientNoneLost(p, s, step);
    case ClientClose => CloseNoneLost(p, s);
    case ServerSelect => SelectNoneLost(p, s);
    case ServerSkip => SkipNoneLost(p, s);
    case ServerRead(n) => ServerReadNoneLost(p, s, n);
    case ServerEnd => EndNoneLost(p, s);
    case ServerSend(n) => ServerSendNoneLost(p, s, n);
  }

  lemma {:induction false} NoneLostHolds(p: Params, steps: seq<Step>)
    requires p.Valid() && p.rounds >= 1 && TableFits(p) && Legal(p, steps)
    ensures |After(p, steps).conns| == |p.msgs| && NoneLost(p, After(p, steps))
  {
    if steps != [] {
      var last := |steps| - 1;
      NoneLostHolds(p, steps[..last]);
      InvHolds(p, steps[..last]);
      SentHolds(p, steps[..last]);
      StepNoneLost(p, After(p, steps[..last]), steps[last]);
    }
  }

  /**
   When every group fits the table and every group but the last leaves a slot free, no
   connection is ever dropped.
   */
  lemma NothingIsDropped(p: Params, steps: seq<Step>)
    requires p.Valid() && p.rounds >= 1 && TableFits(p) && Legal(p, steps)
    ensures After(p, steps).dropped == {}
  {
    NoneLostHolds(p, steps);
  }
}
