/**
 The multiplexing echo server and the stop-and-wait client as one state machine over the
 byte streams between them. Reads and sends may be partial in every way TCP allows, and
 a stream holds no more than its buffers: a writer waits while they are full.

 The client opens its connections in groups, one group for each pair of message size and
 number of sockets, and closes a group before it opens the next. The server frees the
 slot of a closed connection when it reads its end, which is there as soon as the client
 has closed.
 */
module EchoStreams {
  import opened Basics
  import opened EchoIo

  // `msgs[j]` is sent `rounds` times over connection `j`; group `g` are the connections from
  // `starts[g]` up to `starts[g + 1]`. The server has `slots` slots and reads fewer than
  // `packet` bytes at a time; the client reads at most `ack`. The socket buffers of a
  // connection hold `up` bytes toward the server and `down` bytes back.
  datatype Params = Params(msgs: seq<seq<Byte>>, starts: seq<nat>, rounds: nat, slots: nat,
                           packet: nat, ack: nat, up: nat, down: nat) {
    predicate Valid() {
      && (forall j :: 0 <= j < |msgs| ==> msgs[j] != [] && 0 !in msgs[j])
      && |starts| >= 1
      && starts[0] == 0
      && starts[|starts| - 1] == |msgs|
      && (forall g, h :: 0 <= g < h < |starts| ==> starts[g] < starts[h])
      && 2 <= packet
      && 1 <= ack
      && 1 <= up
      && 1 <= down
    }
    function Groups(): nat {
      if |starts| == 0 then 0 else |starts| - 1
    }
    function Size(g: nat): int
      requires g < Groups()
    {
      starts[g + 1] as int - starts[g] as int
    }
  }

  // `sent` and `got` are what the client has written and read since the start.
  datatype Conn = Conn(sent: seq<Byte>, c2s: seq<Byte>, s2c: seq<Byte>, got: seq<Byte>)

  // In group `g`, at connection `j`. Inside `write` the client has `rest` still to put on
  // the stream.
  datatype ClientPc =
    | Connect(g: nat, j: nat)
    | Write(g: nat, j: nat, round: nat, rest: seq<Byte>)
    | Read(g: nat, j: nat, round: nat, bytesRead: nat)
    | Close(g: nat, j: nat)

  // Blocked in `select`; at slot `i` of the scan; or inside `sendVerifier` with `left` to go.
  datatype ServerPc =
    | Select
    | Scan(i: nat, ready: set<nat>)
    | Send(i: nat, ready: set<nat>, left: seq<Byte>)

  // Slot value 0 is empty, `j + 1` holds connection `j`. `dropped` are the connections
  // accepted when no slot was free. The client has closed the connections below `closed`.
  datatype State = State(conns: seq<Conn>, slots: seq<nat>, backlog: seq<nat>, dropped: set<nat>,
                         closed: nat, client: ClientPc, server: ServerPc)

  datatype Step =
    | ClientConnect
    | ClientWrite(n: nat)
    | ClientRead(n: nat)
    | ClientClose
    | ServerSelect
    | ServerSkip
    | ServerRead(n: nat)
    | ServerEnd
    | ServerSend(n: nat)

  function Init(p: Params): State {
    State(seq(|p.msgs|, i => Conn([], [], [], [])), seq(p.slots, i => 0), [], {}, 0, Connect(0, 0), Select)
  }

  // Where the client goes after `round` exchanges on connection `j`.
  function AfterRound(p: Params, g: nat, j: nat, round: nat): ClientPc
    requires j < |p.msgs| && g < p.Groups()
  {
    if round < p.rounds then Write(g, j, round, p.msgs[j])
    else if j + 1 < p.starts[g + 1] then Connect(g, j + 1)
    else Close(g, p.starts[g])
  }

  predicate Held(slots: seq<nat>, j: nat) {
    j + 1 in slots
  }

  // Bytes, or the end of the stream, are there to be read.
  predicate Readable(s: State, j: nat)
    requires j < |s.conns|
  {
    s.conns[j].c2s != [] || j < s.closed
  }

  // Connections in the table with something to read.
  function ReadySet(s: State): set<nat> {
    set j: nat | j < |s.conns| && Held(s.slots, j) && Readable(s, j)
  }

  // The connection the scan would read at slot `i`, if it is in the ready set.
  predicate AtReady(s: State, i: nat, ready: set<nat>) {
    i < |s.slots| && 1 <= s.slots[i] <= |s.conns| && s.slots[i] - 1 in ready
  }

  predicate Enabled(p: Params, s: State, step: Step) {
    match step
    case ClientConnect => s.client.Connect? && s.client.g < p.Groups() && s.client.j < |p.msgs|
    case ClientWrite(n) =>
      && s.client.Write?
      && s.client.j < |s.conns|
      && 1 <= n <= |s.client.rest|
      && |s.conns[s.client.j].c2s| + n <= p.up
    case ClientRead(n) =>
      && s.client.Read?
      && s.client.g < p.Groups()
      && s.client.j < |s.conns|
      && s.client.j < |p.msgs|
      && 1 <= n <= |s.conns[s.client.j].s2c|
      && n <= p.ack
    case ClientClose => s.client.Close? && s.client.g < p.Groups()
    case ServerSelect => s.server.Select? && (s.backlog != [] || ReadySet(s) != {})
    case ServerSkip => s.server.Scan? && !AtReady(s, s.server.i, s.server.ready)
    case ServerRead(n) =>
      && s.server.Scan?
      && AtReady(s, s.server.i, s.server.ready)
      && 1 <= n < p.packet
      && n <= |s.conns[s.slots[s.server.i] - 1].c2s|
    case ServerEnd =>
      && s.server.Scan?
      && AtReady(s, s.server.i, s.server.ready)
      && s.conns[s.slots[s.server.i] - 1].c2s == []
      && s.slots[s.server.i] - 1 < s.closed
    case ServerSend(n) =>
      && s.server.Send?
      && s.server.i < |s.slots|
      && 1 <= s.slots[s.server.i] <= |s.conns|
      && 1 <= n <= |s.server.left|
      && |s.conns[s.slots[s.server.i] - 1].s2c| + n <= p.down
  }

  function Connected(p: Params, s: State): State
    requires Enabled(p, s, ClientConnect)
  {
    s.(backlog := s.backlog + [s.client.j], client := AfterRound(p, s.client.g, s.client.j, 0))
  }

  // `write` takes what fits and returns when everything is on the stream.
  function Written(p: Params, s: State, n: nat): State
    requires Enabled(p, s, ClientWrite(n))
  {
    var j := s.client.j;
    var c := s.conns[j];
    var part, rest := s.client.rest[..n], s.client.rest[n..];
    s.(conns := s.conns[j := c.(sent := c.sent + part, c2s := c.c2s + part)],
       client := if rest != [] then s.client.(rest := rest) else Read(s.client.g, j, s.client.round, 0))
  }

  // The loop test of the exchange comes after every read.
  function Received(p: Params, s: State, n: nat): State
    requires Enabled(p, s, ClientRead(n))
  {
    var j := s.client.j;
    var c := s.conns[j];
    var read := s.client.bytesRead + n;
    s.(conns := s.conns[j := c.(got := c.got + c.s2c[..n], s2c := c.s2c[n..])],
       client := if read < |p.msgs[j]| then s.client.(bytesRead := read)
                 else AfterRound(p, s.client.g, j, s.client.round + 1))
  }

  // The client closes the connections of a group one after the other.
  function Closed(p: Params, s: State): State
    requires Enabled(p, s, ClientClose)
  {
    var g, next := s.client.g, s.client.j + 1;
    s.(closed := next,
       client := if next < p.starts[g + 1] then Close(g, next) else Connect(g + 1, next))
  }

  // `select` returns what is ready; then one waiting connection is accepted. With no slot
  // free the server forgets its socket.
  function Selected(p: Params, s: State): State
    requires Enabled(p, s, ServerSelect)
  {
    var scan := Scan(0, ReadySet(s));
    if s.backlog == [] then s.(server := scan)
    else
      s.(slots := Placed(s.slots, s.backlog[0] + 1), backlog := s.backlog[1..],
         dropped := if FirstFree(s.slots) < |s.slots| then s.dropped else s.dropped + {s.backlog[0]},
         server := scan)
  }

  function Skipped(p: Params, s: State): State
    requires Enabled(p, s, ServerSkip)
  {
    s.(server := if s.server.i < |s.slots| then Scan(s.server.i + 1, s.server.ready) else Select)
  }

  // The server echoes the read up to its first NUL.
  function ServerHas(p: Params, s: State, n: nat): State
    requires Enabled(p, s, ServerRead(n))
  {
    var j := s.slots[s.server.i] - 1;
    var c := s.conns[j];
    var chunk := c.c2s[..n];
    StrlenIsLength(chunk);
    s.(conns := s.conns[j := c.(c2s := c.c2s[n..])],
       server := Send(s.server.i, s.server.ready, chunk[..Strlen(chunk)]))
  }

  // A read that returns 0: the server closes its socket and frees the slot.
  function Ended(p: Params, s: State): State
    requires Enabled(p, s, ServerEnd)
  {
    s.(slots := s.slots[s.server.i := 0], server := Scan(s.server.i + 1, s.server.ready))
  }

  function ServerSent(p: Params, s: State, n: nat): State
    requires Enabled(p, s, ServerSend(n))
  {
    var j := s.slots[s.server.i] - 1;
    var c := s.conns[j];
    var left := s.server.left[n..];
    s.(conns := s.conns[j := c.(s2c := c.s2c + s.server.left[..n])],
       server := if left != [] then s.server.(left := left)
                 else Scan(s.server.i + 1, s.server.ready))
  }

  function Apply(p: Params, s: State, step: Step): State
    requires Enabled(p, s, step)
  {
    match step
    case ClientConnect => Connected(p, s)
    case ClientWrite(n) => Written(p, s, n)
    case ClientRead(n) => Received(p, s, n)
    case ClientClose => Closed(p, s)
    case ServerSelect => Selected(p, s)
    case ServerSkip => Skipped(p, s)
    case ServerRead(n) => ServerHas(p, s, n)
    case ServerEnd => Ended(p, s)
    case ServerSend(n) => ServerSent(p, s, n)
  }

  ghost predicate Legal(p: Params, steps: seq<Step>)
    decreases |steps|, 0
  {
    steps == [] ||
    (var last := |steps| - 1;
     Legal(p, steps[..last]) && Enabled(p, After(p, steps[..last]), steps[last]))
  }

  ghost function After(p: Params, steps: seq<Step>): State
    requires Legal(p, steps)
    decreases |steps|, 1
  {
    if steps == [] then Init(p)
    else
      var last := |steps| - 1;
      Apply(p, After(p, steps[..last]), steps[last])
  }

  // The unsent rest in `sendVerifier`, when it belongs to connection `j`.
  function Unsent(s: State, j: nat): seq<Byte> {
    if s.server.Send? && s.server.i < |s.slots| && s.slots[s.server.i] == j + 1
    then s.server.left else []
  }

  // What the client has read, then what is on its way, in the order it was sent.
  predicate ConnOk(c: Conn, unsent: seq<Byte>) {
    c.got + c.s2c + unsent + c.c2s == c.sent && 0 !in c.sent
  }

  predicate FlowsOk(s: State) {
    forall j :: 0 <= j < |s.conns| ==> ConnOk(s.conns[j], Unsent(s, j))
  }

  // Connections the client has opened.
  function Opened(p: Params, client: ClientPc): nat {
    match client
    case Connect(_, j) => j
    case Close(g, _) => if g < p.Groups() then p.starts[g + 1] else 0
    case _ => client.j + 1
  }

  // The client's place among its groups, and what it has closed.
  predicate PlaceOk(p: Params, client: ClientPc, closed: nat) {
    && client.g <= p.Groups() < |p.starts|
    && p.starts[client.g] <= client.j
    && (if client.g < p.Groups() then client.j < p.starts[client.g + 1] <= |p.msgs|
        else client.Connect? && client.j == |p.msgs|)
    && closed == if client.Close? then client.j else p.starts[client.g]
  }

  predicate DistinctSlots(values: seq<nat>) {
    forall i, k :: 0 <= i < k < |values| && values[i] != 0 ==> values[i] != values[k]
  }

  // Of the `known` connections opened so far none is in two places.
  predicate TableOk(p: Params, slots: seq<nat>, backlog: seq<nat>, known: nat) {
    && |slots| == p.slots
    && known <= |p.msgs|
    && DistinctSlots(slots)
    && (forall i, k :: 0 <= i < k < |backlog| ==> backlog[i] != backlog[k])
    && (forall i :: 0 <= i < |slots| ==> slots[i] <= known)
    && (forall i :: 0 <= i < |backlog| ==> backlog[i] < known && !Held(slots, backlog[i]))
  }

  // A connection has a slot, waits to be accepted, was dropped or is closed.
  predicate Somewhere(s: State, j: nat) {
    Held(s.slots, j) || j in s.backlog || j in s.dropped || j < s.closed
  }

  // The server has taken nothing from connection `j`.
  predicate Unserved(s: State, j: nat) {
    j < |s.conns| && s.conns[j].s2c == [] && s.conns[j].got == [] && !Held(s.slots, j)
  }

  predicate PlacesOk(s: State, known: nat) {
    && (forall j: nat :: j < known ==> Somewhere(s, j))
    && (forall j :: j in s.dropped ==> j < known && Unserved(s, j) && j !in s.backlog)
    && (forall j :: j in s.backlog ==> Unserved(s, j))
    && (forall j :: known <= j < |s.conns| ==> s.conns[j] == Conn([], [], [], []))
  }

  // The rest of the ready set still has something to read.
  predicate ScanOk(s: State, from: nat, ready: set<nat>) {
    && from <= |s.slots|
    && forall i :: from <= i < |s.slots| && AtReady(s, i, ready) ==> Readable(s, s.slots[i] - 1)
  }

  predicate ServerOk(s: State) {
    match s.server
    case Select => true
    case Scan(i, ready) => ScanOk(s, i, ready)
    case Send(i, ready, left) =>
      i < |s.slots| && 1 <= s.slots[i] <= |s.conns| && left != [] && ScanOk(s, i + 1, ready)
  }

  // Connection `j` is in the middle of an exchange.
  predicate Exchanging(client: ClientPc, j: nat) {
    (client.Write? || client.Read?) && client.j == j
  }

  // How much of the current message has been written and not read back yet.
  predicate ExchangeOk(p: Params, s: State)
    requires |s.conns| == |p.msgs|
  {
    match s.client
    case Connect(_, _) => true
    case Write(_, j, round, rest) =>
      && j < |s.conns|
      && round < p.rounds
      && 0 < |rest| <= |p.msgs[j]|
      && |s.conns[j].sent| - |s.conns[j].got| == |p.msgs[j]| - |rest|
      && rest == p.msgs[j][|p.msgs[j]| - |rest|..]
    case Read(_, j, round, bytesRead) =>
      && j < |s.conns|
      && round < p.rounds
      && bytesRead < |p.msgs[j]|
      && |s.conns[j].sent| - |s.conns[j].got| == |p.msgs[j]| - bytesRead
    case Close(_, _) => true
  }

  // Nothing is in flight, except in an exchange: then what is left of one message.
  predicate ClientOk(p: Params, s: State)
    requires |s.conns| == |p.msgs|
  {
    && ExchangeOk(p, s)
    && forall j :: 0 <= j < |s.conns| && !Exchanging(s.client, j) ==> s.conns[j].got == s.conns[j].sent
  }

  predicate BuffersOk(p: Params, s: State) {
    forall j :: 0 <= j < |s.conns| ==> |s.conns[j].c2s| <= p.up && |s.conns[j].s2c| <= p.down
  }

  predicate Inv(p: Params, s: State) {
    && |s.conns| == |p.msgs|
    && PlaceOk(p, s.client, s.closed)
    && TableOk(p, s.slots, s.backlog, Opened(p, s.client))
    && PlacesOk(s, Opened(p, s.client))
    && FlowsOk(s)
    && ServerOk(s)
    && ClientOk(p, s)
    && BuffersOk(p, s)
  }

  lemma ConnWrite(c: Conn, unsent: seq<Byte>, msg: seq<Byte>)
    requires ConnOk(c, unsent) && 0 !in msg
    ensures ConnOk(c.(sent := c.sent + msg, c2s := c.c2s + msg), unsent)
  {
    assert c.got + c.s2c + unsent + (c.c2s + msg) == (c.got + c.s2c + unsent + c.c2s) + msg;
  }

  lemma ConnRead(c: Conn, unsent: seq<Byte>, n: nat)
    requires ConnOk(c, unsent) && n <= |c.s2c|
    ensures ConnOk(c.(got := c.got + c.s2c[..n], s2c := c.s2c[n..]), unsent)
  {
    assert c.s2c == c.s2c[..n] + c.s2c[n..];
    assert (c.got + c.s2c[..n]) + c.s2c[n..] == c.got + c.s2c;
  }

  // A read of the server moves a whole chunk to its hands, since it holds no NUL.
  lemma ConnServerRead(c: Conn, n: nat)
    requires ConnOk(c, []) && 1 <= n <= |c.c2s|
    ensures Strlen(c.c2s[..n]) == n
    ensures ConnOk(c.(c2s := c.c2s[n..]), c.c2s[..n][..n])
  {
    var chunk := c.c2s[..n];
    assert c.c2s == chunk + c.c2s[n..];
    forall b | b in chunk
      ensures b in c.sent
    {
      assert b in c.got + c.s2c + [] + c.c2s;
    }
    StrlenIsLength(chunk);
    assert chunk[..n] == chunk;
    assert c.got + c.s2c + chunk + c.c2s[n..] == c.got + c.s2c + [] + c.c2s;
  }

  lemma ConnServerSend(c: Conn, left: seq<Byte>, n: nat)
    requires ConnOk(c, left) && n <= |left|
    ensures ConnOk(c.(s2c := c.s2c + left[..n]), left[n..])
  {
    assert left == left[..n] + left[n..];
    assert c.got + (c.s2c + left[..n]) + left[n..] + c.c2s == c.got + c.s2c + left + c.c2s;
  }

  lemma ConnLengths(c: Conn, unsent: seq<Byte>)
    requires ConnOk(c, unsent)
    ensures |c.got| + |c.s2c| + |unsent| + |c.c2s| == |c.sent|
    ensures |c.got| == |c.sent| ==> c.got == c.sent && c.s2c == unsent == c.c2s == []
  {
    assert |c.got + c.s2c + unsent + c.c2s| == |c.sent|;
    if |c.got| == |c.sent| {
      assert c.got + c.s2c + unsent + c.c2s == c.got;
    }
  }

  lemma OpenOne(p: Params, slots: seq<nat>, backlog: seq<nat>, j: nat)
    requires TableOk(p, slots, backlog, j) && j < |p.msgs|
    ensures TableOk(p, slots, backlog + [j], j + 1)
  {
    assert !Held(slots, j);
  }

  // The streams are as they were when the bytes of none of them move.
  lemma FlowsKept(s: State, t: State)
    requires FlowsOk(s) && t.conns == s.conns
    requires forall j: nat :: j < |s.conns| ==> Unsent(t, j) == Unsent(s, j)
    ensures FlowsOk(t)
  {
    forall j: nat | j < |t.conns|
      ensures ConnOk(t.conns[j], Unsent(t, j))
    {
      assert ConnOk(s.conns[j], Unsent(s, j));
    }
  }

  // After an exchange the client is at its next one, at the next connection or closing.
  lemma NextPlace(p: Params, client: ClientPc, closed: nat, round: nat)
    requires p.Valid() && PlaceOk(p, client, closed) && client.g < p.Groups() && !client.Close?
    ensures PlaceOk(p, AfterRound(p, client.g, client.j, round), closed)
    ensures Opened(p, AfterRound(p, client.g, client.j, round)) == client.j + 1
  {
  }

  lemma ConnectPlaces(p: Params, s: State)
    requires p.Valid() && Inv(p, s) && Enabled(p, s, ClientConnect)
    ensures PlacesOk(Connected(p, s), s.client.j + 1)
  {
    var j, t := s.client.j, Connected(p, s);
    assert t.backlog[|s.backlog|] == j;
    assert !Held(s.slots, j);
    forall k: nat | k < j + 1
      ensures Somewhere(t, k)
    {
      assert k < j ==> Somewhere(s, k);
    }
  }

  lemma ConnectOk(p: Params, s: State)
    requires p.Valid() && Inv(p, s) && Enabled(p, s, ClientConnect)
    ensures Inv(p, Connected(p, s))
  {
    NextPlace(p, s.client, s.closed, 0);
    OpenOne(p, s.slots, s.backlog, s.client.j);
    ConnectPlaces(p, s);
    ServerKept(p, s, Connected(p, s));
    FlowsKept(s, Connected(p, s));
  }

  lemma RestHasNoNul(p: Params, s: State)
    requires p.Valid() && Inv(p, s) && s.client.Write?
    ensures 0 !in s.client.rest
  {
    var msg := p.msgs[s.client.j];
    assert forall i :: 0 <= i < |s.client.rest| ==> s.client.rest[i] == msg[|msg| - |s.client.rest| + i];
  }

  lemma WriteFlows(p: Params, s: State, n: nat)
    requires p.Valid() && Inv(p, s) && Enabled(p, s, ClientWrite(n))
    ensures FlowsOk(Written(p, s, n))
  {
    var t := Written(p, s, n);
    RestHasNoNul(p, s);
    forall j: nat | j < |s.conns|
      ensures ConnOk(t.conns[j], Unsent(t, j))
    {
      assert ConnOk(s.conns[j], Unsent(s, j)) && Unsent(t, j) == Unsent(s, j);
      if j == s.client.j {
        ConnWrite(s.conns[j], Unsent(s, j), s.client.rest[..n]);
      }
    }
  }

  lemma WriteClientOk(p: Params, s: State, n: nat)
    requires p.Valid() && Inv(p, s) && Enabled(p, s, ClientWrite(n))
    ensures |Written(p, s, n).conns| == |p.msgs| && ClientOk(p, Written(p, s, n))
  {
  }

  // The scan goes on as before when what it is still to read stays readable.
  lemma ScanKept(s: State, t: State, from: nat, ready: set<nat>, read: nat)
    requires ScanOk(s, from, ready) && t.slots == s.slots && |t.conns| == |s.conns|
    requires forall j: nat :: j < |s.conns| && j != read && Readable(s, j) ==> Readable(t, j)
    requires forall i :: from <= i < |s.slots| ==> s.slots[i] != read + 1
    ensures ScanOk(t, from, ready)
  {
    forall i | from <= i < |t.slots| && AtReady(t, i, ready)
      ensures Readable(t, t.slots[i] - 1)
    {
      assert AtReady(s, i, ready);
    }
  }

  // In particular when a client's step takes nothing from the stream to the server.
  lemma ServerKept(p: Params, s: State, t: State)
    requires ServerOk(s) && t.server == s.server && t.slots == s.slots && |t.conns| == |s.conns|
    requires TableOk(p, s.slots, s.backlog, |s.conns|)
    requires forall j: nat :: j < |s.conns| && Readable(s, j) ==> Readable(t, j)
    ensures ServerOk(t)
  {
    match s.server
    case Select =>
    case Scan(i, ready) => ScanKept(s, t, i, ready, |s.conns|);
    case Send(i, ready, _) => ScanKept(s, t, i + 1, ready, |s.conns|);
  }

  lemma WriteServerOk(p: Params, s: State, n: nat)
    requires p.Valid() && Inv(p, s) && Enabled(p, s, ClientWrite(n))
    ensures ServerOk(Written(p, s, n))
  {
    ServerKept(p, s, Written(p, s, n));
  }

  lemma WriteBuffersOk(p: Params, s: State, n: nat)
    requires |s.conns| == |p.msgs| && BuffersOk(p, s) && Enabled(p, s, ClientWrite(n))
    ensures BuffersOk(p, Written(p, s, n))
  {
  }

  // Where the connections are stays the same when the bytes of one of them move, and a
  // connection the server has taken nothing from stays so.
  lemma SamePlaces(p: Params, s: State, t: State, j: nat)
    requires Inv(p, s) && j < |s.conns| == |t.conns| && j < Opened(p, s.client)
    requires t.slots == s.slots && t.backlog == s.backlog && t.dropped == s.dropped && t.closed == s.closed
    requires t.conns == s.conns[j := t.conns[j]]
    requires Unserved(s, j) ==> t.conns[j].s2c == [] && t.conns[j].got == []
    ensures PlacesOk(t, Opened(p, s.client))
  {
    forall k: nat | k < Opened(p, s.client)
      ensures Somewhere(t, k)
    {
      assert Somewhere(s, k);
    }
    forall k | k in s.dropped || k in s.backlog
      ensures Unserved(t, k)
    {
      assert Unserved(s, k);
    }
  }

  lemma WriteOk(p: Params, s: State, n: nat)
    requires p.Valid() && Inv(p, s) && Enabled(p, s, ClientWrite(n))
    ensures Inv(p, Written(p, s, n))
  {
    WriteFlows(p, s, n);
    WriteClientOk(p, s, n);
    WriteServerOk(p, s, n);
    WriteBuffersOk(p, s, n);
    SamePlaces(p, s, Written(p, s, n), s.client.j);
  }

  lemma ReadFlows(p: Params, s: State, n: nat)
    requires Inv(p, s) && Enabled(p, s, ClientRead(n))
    ensures FlowsOk(Received(p, s, n))
  {
    var t := Received(p, s, n);
    forall j: nat | j < |s.conns|
      ensures ConnOk(t.conns[j], Unsent(t, j))
    {
      assert ConnOk(s.conns[j], Unsent(s, j)) && Unsent(t, j) == Unsent(s, j);
      if j == s.client.j {
        ConnRead(s.conns[j], Unsent(s, j), n);
      }
    }
  }

  lemma ReadClientOk(p: Params, s: State, n: nat)
    requires p.Valid() && Inv(p, s) && Enabled(p, s, ClientRead(n))
    ensures s.client.bytesRead + n <= |p.msgs[s.client.j]|
    ensures |Received(p, s, n).conns| == |p.msgs|
    ensures ClientOk(p, Received(p, s, n))
  {
    var j := s.client.j;
    ReadFlows(p, s, n);
    var t := Received(p, s, n);
    assert ConnOk(s.conns[j], Unsent(s, j)) && ConnOk(t.conns[j], Unsent(t, j));
    ConnLengths(s.conns[j], Unsent(s, j));
    ConnLengths(t.conns[j], Unsent(t, j));
  }

  lemma ReadServerOk(p: Params, s: State, n: nat)
    requires Inv(p, s) && Enabled(p, s, ClientRead(n))
    ensures ServerOk(Received(p, s, n)) && BuffersOk(p, Received(p, s, n))
  {
    ServerKept(p, s, Received(p, s, n));
  }

  lemma ReadPlaceOk(p: Params, s: State, n: nat)
    requires p.Valid() && Inv(p, s) && Enabled(p, s, ClientRead(n))
    ensures PlaceOk(p, Received(p, s, n).client, s.closed)
    ensures Opened(p, Received(p, s, n).client) == Opened(p, s.client)
  {
    NextPlace(p, s.client, s.closed, s.client.round + 1);
  }

  lemma ReadOk(p: Params, s: State, n: nat)
    requires p.Valid() && Inv(p, s) && Enabled(p, s, ClientRead(n))
    ensures Inv(p, Received(p, s, n))
  {
    ReadServerOk(p, s, n);
    ReadPlaceOk(p, s, n);
    ReadFlows(p, s, n);
    ReadClientOk(p, s, n);
    SamePlaces(p, s, Received(p, s, n), s.client.j);
  }

  // Closing moves the client on; nothing is in flight that it could lose.
  lemma CloseOk(p: Params, s: State)
    requires p.Valid() && Inv(p, s) && Enabled(p, s, ClientClose)
    ensures Inv(p, Closed(p, s))
  {
    var t := Closed(p, s);
    assert t.closed == s.closed + 1;
    forall k: nat | k < Opened(p, t.client)
      ensures Somewhere(t, k)
    {
      assert Somewhere(s, k);
    }
    assert forall j: nat :: Unserved(s, j) ==> Unserved(t, j);
    ServerKept(p, s, t);
    FlowsKept(s, t);
  }

  // A step that moves the server's scan alone.
  lemma MovedOn(s: State, t: State, known: nat)
    requires PlacesOk(s, known) && t == s.(server := t.server)
    ensures PlacesOk(t, known)
  {
    assert forall k: nat :: Somewhere(s, k) ==> Somewhere(t, k);
    assert forall k: nat :: Unserved(s, k) ==> Unserved(t, k);
  }

  lemma SkipServerOk(p: Params, s: State)
    requires ServerOk(s) && Enabled(p, s, ServerSkip)
    ensures ServerOk(Skipped(p, s))
  {
  }

  lemma SkipOk(p: Params, s: State)
    requires p.Valid() && Inv(p, s) && Enabled(p, s, ServerSkip)
    ensures Inv(p, Skipped(p, s))
  {
    MovedOn(s, Skipped(p, s), Opened(p, s.client));
    SkipServerOk(p, s);
    FlowsKept(s, Skipped(p, s));
  }

  lemma ServerReadFlows(p: Params, s: State, n: nat)
    requires Inv(p, s) && Enabled(p, s, ServerRead(n))
    ensures FlowsOk(ServerHas(p, s, n))
    ensures ServerHas(p, s, n).server.left != []
  {
    var t := ServerHas(p, s, n);
    var i := s.slots[s.server.i] - 1;
    assert ConnOk(s.conns[i], Unsent(s, i));
    ConnServerRead(s.conns[i], n);
    forall j: nat | j < |s.conns|
      ensures ConnOk(t.conns[j], Unsent(t, j))
    {
      assert ConnOk(s.conns[j], Unsent(s, j));
    }
  }

  lemma ServerReadClientOk(p: Params, s: State, n: nat)
    requires p.Valid() && Inv(p, s) && Enabled(p, s, ServerRead(n))
    ensures var t := ServerHas(p, s, n);
            && |t.conns| == |p.msgs|
            && ClientOk(p, t)
            && BuffersOk(p, t)
  {
  }

  lemma ServerReadServerOk(p: Params, s: State, n: nat)
    requires p.Valid() && Inv(p, s) && Enabled(p, s, ServerRead(n))
    requires ServerHas(p, s, n).server.left != []
    ensures ServerOk(ServerHas(p, s, n))
  {
    var i := s.server.i;
    ScanKept(s, ServerHas(p, s, n), i + 1, s.server.ready, s.slots[i] - 1);
  }

  lemma ServerReadOk(p: Params, s: State, n: nat)
    requires p.Valid() && Inv(p, s) && Enabled(p, s, ServerRead(n))
    ensures Inv(p, ServerHas(p, s, n))
  {
    ServerReadFlows(p, s, n);
    ServerReadServerOk(p, s, n);
    ServerReadClientOk(p, s, n);
    HeldAt(s, s.server.i);
    SamePlaces(p, s, ServerHas(p, s, n), s.slots[s.server.i] - 1);
  }

  // The end of a stream frees one slot.
  lemma EndTable(p: Params, s: State)
    requires p.Valid() && Inv(p, s) && Enabled(p, s, ServerEnd)
    ensures var t := Ended(p, s);
            && TableOk(p, t.slots, t.backlog, Opened(p, s.client))
            && forall k: nat :: Held(t.slots, k) <==> Held(s.slots, k) && k != s.slots[s.server.i] - 1
  {
    var t, i := Ended(p, s), s.server.i;
    forall k: nat
      ensures Held(t.slots, k) <==> Held(s.slots, k) && k != s.slots[i] - 1
    {
      if Held(s.slots, k) && k != s.slots[i] - 1 {
        var x :| 0 <= x < |s.slots| && s.slots[x] == k + 1;
        assert t.slots[x] == k + 1;
      }
      if Held(t.slots, k) {
        var x :| 0 <= x < |t.slots| && t.slots[x] == k + 1;
        assert s.slots[x] == k + 1;
      }
    }
  }

  lemma EndPlaces(p: Params, s: State)
    requires p.Valid() && Inv(p, s) && Enabled(p, s, ServerEnd)
    ensures PlacesOk(Ended(p, s), Opened(p, s.client))
  {
    var t := Ended(p, s);
    EndTable(p, s);
    forall k: nat | k < Opened(p, s.client)
      ensures Somewhere(t, k)
    {
      assert Somewhere(s, k);
    }
    assert forall k: nat :: Unserved(s, k) ==> Unserved(t, k);
  }

  lemma EndServerOk(p: Params, s: State)
    requires p.Valid() && Inv(p, s) && Enabled(p, s, ServerEnd)
    ensures ServerOk(Ended(p, s)) && FlowsOk(Ended(p, s))
  {
    var t := Ended(p, s);
    FlowsKept(s, t);
    assert forall k :: s.server.i < k ==> AtReady(t, k, s.server.ready) == AtReady(s, k, s.server.ready);
  }

  lemma EndOk(p: Params, s: State)
    requires p.Valid() && Inv(p, s) && Enabled(p, s, ServerEnd)
    ensures Inv(p, Ended(p, s))
  {
    EndTable(p, s);
    EndPlaces(p, s);
    EndServerOk(p, s);
  }

  lemma HeldAt(s: State, i: nat)
    requires i < |s.slots| && s.slots[i] >= 1
    ensures Held(s.slots, s.slots[i] - 1)
  {
  }

  lemma ServerSendFlows(p: Params, s: State, n: nat)
    requires Inv(p, s) && Enabled(p, s, ServerSend(n))
    ensures FlowsOk(ServerSent(p, s, n))
  {
    var t := ServerSent(p, s, n);
    var i := s.slots[s.server.i] - 1;
    assert ConnOk(s.conns[i], Unsent(s, i));
    ConnServerSend(s.conns[i], s.server.left, n);
    forall j: nat | j < |s.conns|
      ensures ConnOk(t.conns[j], Unsent(t, j))
    {
      assert ConnOk(s.conns[j], Unsent(s, j));
    }
  }

  lemma ServerSendServerOk(p: Params, s: State, n: nat)
    requires p.Valid() && Inv(p, s) && Enabled(p, s, ServerSend(n))
    ensures ServerOk(ServerSent(p, s, n))
  {
    ScanKept(s, ServerSent(p, s, n), s.server.i + 1, s.server.ready, s.slots[s.server.i] - 1);
  }

  lemma ServerSendBuffersOk(p: Params, s: State, n: nat)
    requires |s.conns| == |p.msgs| && BuffersOk(p, s) && Enabled(p, s, ServerSend(n))
    ensures BuffersOk(p, ServerSent(p, s, n))
  {
  }

  lemma ServerSendClientOk(p: Params, s: State, n: nat)
    requires p.Valid() && Inv(p, s) && Enabled(p, s, ServerSend(n))
    ensures |ServerSent(p, s, n).conns| == |p.msgs| && ClientOk(p, ServerSent(p, s, n))
  {
  }

  lemma ServerSendOk(p: Params, s: State, n: nat)
    requires p.Valid() && Inv(p, s) && Enabled(p, s, ServerSend(n))
    ensures Inv(p, ServerSent(p, s, n))
  {
    ServerSendFlows(p, s, n);
    ServerSendServerOk(p, s, n);
    ServerSendBuffersOk(p, s, n);
    ServerSendClientOk(p, s, n);
    HeldAt(s, s.server.i);
    SamePlaces(p, s, ServerSent(p, s, n), s.slots[s.server.i] - 1);
  }

  lemma PlacedHolds(slots: seq<nat>, j: nat, k: nat)
    requires FirstFree(slots) < |slots|
    ensures Held(Placed(slots, j + 1), k) <==> k == j || Held(slots, k)
  {
    var i := FirstFree(slots);
    var placed := Placed(slots, j + 1);
    assert placed[i] == j + 1;
    if Held(slots, k) {
      var x :| 0 <= x < |slots| && slots[x] == k + 1;
      assert placed[x] == k + 1;
    }
  }

  lemma PlacedDistinct(slots: seq<nat>, j: nat)
    requires DistinctSlots(slots) && !Held(slots, j)
    ensures DistinctSlots(Placed(slots, j + 1))
  {
    assert forall x :: 0 <= x < |slots| ==> slots[x] != j + 1;
  }

  lemma AcceptHolds(slots: seq<nat>, j: nat, k: nat)
    ensures Held(Placed(slots, j + 1), k) <==> Held(slots, k) || (k == j && FirstFree(slots) < |slots|)
  {
    if FirstFree(slots) < |slots| {
      PlacedHolds(slots, j, k);
    }
  }

  lemma AcceptOne(p: Params, slots: seq<nat>, backlog: seq<nat>, known: nat)
    requires TableOk(p, slots, backlog, known) && backlog != []
    ensures TableOk(p, Placed(slots, backlog[0] + 1), backlog[1..], known)
  {
    var j := backlog[0];
    PlacedDistinct(slots, j);
    forall i | 0 <= i < |backlog[1..]|
      ensures !Held(Placed(slots, j + 1), backlog[1..][i])
    {
      assert backlog[1..][i] == backlog[i + 1] != backlog[0];
      assert !Held(slots, backlog[i + 1]);
      AcceptHolds(slots, j, backlog[i + 1]);
    }
  }

  lemma AcceptPlaces(p: Params, s: State)
    requires p.Valid() && Inv(p, s) && Enabled(p, s, ServerSelect) && s.backlog != []
    ensures PlacesOk(Selected(p, s), Opened(p, s.client))
  {
    var j, t := s.backlog[0], Selected(p, s);
    assert s.backlog == [j] + t.backlog;
    forall k: nat | k < Opened(p, s.client)
      ensures Somewhere(t, k)
    {
      assert Somewhere(s, k);
      AcceptHolds(s.slots, j, k);
    }
    forall k | k in t.dropped || k in t.backlog
      ensures Unserved(t, k) && (k in t.dropped ==> k < Opened(p, s.client) && k !in t.backlog)
    {
      assert k == j ==> k !in t.backlog;
      assert Unserved(s, k);
      AcceptHolds(s.slots, j, k);
    }
  }

  lemma SelectServerOk(p: Params, s: State)
    requires p.Valid() && Inv(p, s) && Enabled(p, s, ServerSelect)
    ensures ServerOk(Selected(p, s)) && FlowsOk(Selected(p, s))
  {
    FlowsKept(s, Selected(p, s));
    SelectScans(p, s);
  }

  // What is ready in a slot that was taken before is readable.
  lemma SelectScans(p: Params, s: State)
    requires |s.conns| == |p.msgs| && Enabled(p, s, ServerSelect)
    ensures ServerOk(Selected(p, s))
  {
  }

  lemma SelectTableOk(p: Params, s: State)
    requires p.Valid() && Inv(p, s) && Enabled(p, s, ServerSelect)
    ensures var t := Selected(p, s);
            && TableOk(p, t.slots, t.backlog, Opened(p, s.client))
            && PlacesOk(t, Opened(p, s.client))
  {
    if s.backlog != [] {
      AcceptOne(p, s.slots, s.backlog, Opened(p, s.client));
      AcceptPlaces(p, s);
    } else {
      MovedOn(s, Selected(p, s), Opened(p, s.client));
    }
  }

  lemma SelectOk(p: Params, s: State)
    requires p.Valid() && Inv(p, s) && Enabled(p, s, ServerSelect)
    ensures Inv(p, Selected(p, s))
  {
    SelectServerOk(p, s);
    SelectTableOk(p, s);
  }

  lemma StepOk(p: Params, s: State, step: Step)
    requires p.Valid() && Inv(p, s) && Enabled(p, s, step)
    ensures Inv(p, Apply(p, s, step))
  {
    match step
    case ClientConnect => ConnectOk(p, s);
    case ClientWrite(n) => WriteOk(p, s, n);
    case ClientRead(n) => ReadOk(p, s, n);
    case ClientClose => CloseOk(p, s);
    case ServerSelect => SelectOk(p, s);
    case ServerSkip => SkipOk(p, s);
    case ServerRead(n) => ServerReadOk(p, s, n);
    case ServerEnd => EndOk(p, s);
    case ServerSend(n) => ServerSendOk(p, s, n);
  }

  lemma {:induction false} InvHolds(p: Params, steps: seq<Step>)
    requires p.Valid() && Legal(p, steps)
    ensures Inv(p, After(p, steps))
  {
    if steps != [] {
      var last := |steps| - 1;
      InvHolds(p, steps[..last]);
      StepOk(p, After(p, steps[..last]), steps[last]);
    }
  }

  /**
   On every connection, what the client has read, followed by what is on its way back, in
   the server's hands and on its way there, is exactly what the client has sent.
   */
  lemma {:induction false} EchoConservation(p: Params, steps: seq<Step>, j: nat)
    requires p.Valid() && Legal(p, steps) && j < |p.msgs|
    ensures var s := After(p, steps);
            && |s.conns| == |p.msgs|
            && s.conns[j].got + s.conns[j].s2c + Unsent(s, j) + s.conns[j].c2s == s.conns[j].sent
  {
    InvHolds(p, steps);
    assert ConnOk(After(p, steps).conns[j], Unsent(After(p, steps), j));
  }

  /**
   Stop and wait: outside an exchange, and before the first byte of a message is written,
   nothing is in flight on a connection and every byte has come back; an exchange ends
   with exactly the message's bytes read.
   */
  lemma StopAndWait(p: Params, steps: seq<Step>, j: nat)
    requires p.Valid() && Legal(p, steps) && j < |p.msgs|
    ensures var s := After(p, steps);
            && |s.conns| == |p.msgs|
            && (!Exchanging(s.client, j) || (s.client.Write? && s.client.rest == p.msgs[j]) ==>
                  && s.conns[j].got == s.conns[j].sent
                  && s.conns[j].s2c == Unsent(s, j) == s.conns[j].c2s == [])
    ensures forall n :: var s := After(p, steps);
              Enabled(p, s, ClientRead(n)) && !Apply(p, s, ClientRead(n)).client.Read? ==>
                s.client.bytesRead + n == |p.msgs[s.client.j]|
  {
    InvHolds(p, steps);
    var s := After(p, steps);
    assert ConnOk(s.conns[j], Unsent(s, j));
    ConnLengths(s.conns[j], Unsent(s, j));
    forall n | Enabled(p, s, ClientRead(n)) && !Apply(p, s, ClientRead(n)).client.Read?
      ensures s.client.bytesRead + n == |p.msgs[s.client.j]|
    {
      ReadClientOk(p, s, n);
    }
  }
}
