/**
 The loops of the TCP echo pair: the server's complete send and its slot table, the
 client's split of a message over its sockets and its stop-and-wait exchange. What the
 system calls return is a parameter.
 */
module EchoIo {
  import opened Basics

  // `strlen` of a buffer holding `chunk` and a terminator after it.
  function Strlen(chunk: seq<Byte>): nat {
    if chunk == [] || chunk[0] == 0 then 0 else 1 + Strlen(chunk[1..])
  }

  /**
   The server echoes a read up to its first NUL byte, so the whole of it if and only if it
   holds none.
   */
  lemma {:induction false} StrlenIsLength(chunk: seq<Byte>)
    ensures Strlen(chunk) <= |chunk|
    ensures Strlen(chunk) == |chunk| <==> 0 !in chunk
    ensures 0 !in chunk[..Strlen(chunk)]
    ensures Strlen(chunk) < |chunk| ==> chunk[Strlen(chunk)] == 0
  {
    if chunk != [] && chunk[0] != 0 {
      StrlenIsLength(chunk[1..]);
      assert chunk == [chunk[0]] + chunk[1..];
      assert chunk[..Strlen(chunk)] == [chunk[0]] + chunk[1..][..Strlen(chunk[1..])];
    }
  }

  // The sum of what these calls return, each of them a count of bytes, 0 at the end of the
  // stream or -1.
  function Added(counts: seq<int>): int {
    if counts == [] then 0 else Added(counts[..|counts| - 1]) + counts[|counts| - 1]
  }

  lemma {:induction false} AddedConcat(a: seq<int>, b: seq<int>)
    ensures Added(a + b) == Added(a) + Added(b)
  {
    if b == [] {
      assert a + b == a;
    } else {
      var last := |b| - 1;
      assert (a + b)[..|a + b| - 1] == a + b[..last];
      AddedConcat(a, b[..last]);
    }
  }

  function Joined(chunks: seq<seq<Byte>>): seq<Byte> {
    if chunks == [] then [] else Joined(chunks[..|chunks| - 1]) + chunks[|chunks| - 1]
  }

  function Lengths(chunks: seq<seq<Byte>>): (counts: seq<int>)
    ensures |counts| == |chunks|
    ensures forall i :: 0 <= i < |chunks| ==> counts[i] == |chunks[i]|
  {
    seq(|chunks|, i requires 0 <= i < |chunks| => |chunks[i]|)
  }

  /** The sum of single counts, and of the bytes that reads deliver. */
  lemma {:induction false} AddedIsJoined(chunks: seq<seq<Byte>>)
    ensures forall x: int :: Added([x]) == x
    ensures Added(Lengths(chunks)) == |Joined(chunks)|
  {
    forall x: int
      ensures Added([x]) == x
    {
      assert [x][..0] == [];
    }
    if chunks != [] {
      var last := |chunks| - 1;
      assert Lengths(chunks)[..last] == Lengths(chunks[..last]);
      AddedIsJoined(chunks[..last]);
    }
  }

  lemma {:induction false} AddedGrows(counts: seq<int>, k: nat)
    requires k <= |counts| && forall i :: 0 <= i < |counts| ==> counts[i] >= 1
    ensures Added(counts[..k]) <= Added(counts)
    ensures Added(counts[..k]) == Added(counts) <==> k == |counts|
    decreases |counts|
  {
    if k == |counts| {
      assert counts[..k] == counts;
    } else {
      var last := |counts| - 1;
      assert counts[..last][..k] == counts[..k];
      AddedGrows(counts[..last], k);
    }
  }

  // The `i`-th send is the first to fail, and comes before `size` bytes are out.
  predicate FailsAt(size: nat, sends: seq<int>, i: nat) {
    && i < |sends|
    && sends[i] == -1
    && (forall j :: 0 <= j < i ==> sends[j] != -1)
    && Added(sends[..i]) < size
  }

  /**
   `sendVerifier`: repeat partial sends until all bytes are out or one fails. `sends[i]`
   is what the i-th `send` is willing to take, or -1 for a failure. It fails if and only if
   some send fails while the ones before it have not taken everything, and then exactly
   what those took is out. `junk` is what the uninitialised variable that takes the answers
   holds: for an empty buffer nothing is sent, and the result depends on it.
   */
  method SendVerifier(buf: seq<Byte>, sends: seq<int>, junk: int) returns (result: int, out: seq<Byte>)
    requires |buf| <= |sends|
    requires forall i :: 0 <= i < |sends| ==> sends[i] == -1 || sends[i] >= 1
    ensures result == 0 || result == -1
    ensures buf != [] ==> (result == -1 <==> exists i: nat :: FailsAt(|buf|, sends, i))
    ensures buf != [] && result == 0 ==> out == buf
    ensures forall i: nat :: buf != [] && FailsAt(|buf|, sends, i) ==>
              0 <= Added(sends[..i]) < |buf| && out == buf[..Added(sends[..i])]
    ensures buf == [] ==> out == [] && (result == 0 <==> junk != -1)
  {
    var total, bytesleft, calls, n := 0, |buf|, 0, junk;
    out := [];
    while total < |buf|
      invariant 0 <= calls <= total <= |buf| && bytesleft == |buf| - total
      invariant out == buf[..total]
      invariant if total == 0 then n == junk else n >= 0
      invariant forall j :: 0 <= j < calls ==> sends[j] >= 1
      invariant if total < |buf| then total == Added(sends[..calls]) else Added(sends[..calls]) >= |buf|
      decreases |buf| - total
    {
      n := if sends[calls] <= bytesleft then sends[calls] else bytesleft;
      assert sends[..calls + 1][..calls] == sends[..calls];
      calls := calls + 1;
      if n == -1 {
        assert FailsAt(|buf|, sends, calls - 1);
        break;
      }
      out := out + buf[total..total + n];
      total := total + n;
      bytesleft := bytesleft - n;
    }
    result := if n == -1 then -1 else 0;
    if buf != [] && result == 0 {
      NoLaterFailure(|buf|, sends, calls);
    }
  }

  // Once everything is out no further send is made that could fail.
  lemma NoLaterFailure(size: nat, sends: seq<int>, calls: nat)
    requires calls <= |sends| && Added(sends[..calls]) >= size
    requires forall j :: 0 <= j < calls ==> sends[j] >= 1
    requires forall j :: 0 <= j < |sends| ==> sends[j] == -1 || sends[j] >= 1
    ensures forall i: nat :: !FailsAt(size, sends, i)
  {
    forall i: nat | calls <= i < |sends| && forall j :: 0 <= j < i ==> sends[j] != -1
      ensures Added(sends[..i]) >= size
    {
      assert sends[..i][..calls] == sends[..calls];
      AddedGrows(sends[..i], calls);
    }
  }

  // First free slot of the table, or its length.
  function FirstFree(slots: seq<nat>): (i: nat)
    ensures i <= |slots|
    ensures i < |slots| ==> slots[i] == 0
    ensures forall j :: 0 <= j < i ==> slots[j] != 0
  {
    if slots == [] || slots[0] == 0 then 0 else 1 + FirstFree(slots[1..])
  }

  // The table after a socket is accepted: a full table drops it.
  function Placed(slots: seq<nat>, sd: nat): seq<nat> {
    var i := FirstFree(slots);
    if i < |slots| then slots[i := sd] else slots
  }

  class SlotTable {
    const clients: array<nat>

    constructor (size: nat)
      ensures fresh(clients) && clients.Length == size
      ensures forall i :: 0 <= i < size ==> clients[i] == 0
    {
      clients := new nat[size](_ => 0);
    }

    // Put a new socket in the first empty slot.
    method Accept(sd: nat)
      modifies clients
      ensures clients[..] == Placed(old(clients[..]), sd)
    {
      ghost var was := clients[..];
      var i := 0;
      while i < clients.Length
        invariant i <= clients.Length && clients[..] == was
        invariant forall j :: 0 <= j < i ==> was[j] != 0
      {
        if clients[i] == 0 {
          FreeIs(was, i);
          clients[i] := sd;
          return;
        }
        i := i + 1;
      }
      FreeIs(was, i);
    }
  }

  lemma FreeIs(slots: seq<nat>, i: nat)
    requires i <= |slots| && (i < |slots| ==> slots[i] == 0)
    requires forall j :: 0 <= j < i ==> slots[j] != 0
    ensures FirstFree(slots) == i
  {
  }

  // Sizes of the messages for the sockets, when a message of `size` bytes is split.
  function MessageSize(size: nat, sockets: nat, k: nat): nat
    requires 1 <= sockets
  {
    if size < sockets then (if k == 0 then size else 1)
    else if k == 0 then size / sockets + size % sockets
    else size / sockets
  }

  method SplitMessage(size: nat, sockets: nat) returns (sizes: array<nat>)
    requires 1 <= sockets
    ensures fresh(sizes) && sizes.Length == sockets
    ensures forall k :: 0 <= k < sockets ==> sizes[k] == MessageSize(size, sockets, k)
  {
    sizes := new nat[sockets](_ => 0);
    if size < sockets {
      sizes[0] := size;
      for i := 1 to sockets
        invariant sizes[0] == size
        invariant forall k :: 1 <= k < i ==> sizes[k] == 1
      {
        sizes[i] := 1;
      }
    } else {
      for i := 1 to sockets
        invariant forall k :: 1 <= k < i ==> sizes[k] == size / sockets
      {
        sizes[i] := size / sockets;
      }
      sizes[0] := size / sockets + size % sockets;
    }
  }

  // Bytes sent over the first `k` sockets.
  function SentOver(size: nat, sockets: nat, k: nat): nat
    requires 1 <= sockets
  {
    if k == 0 then 0 else SentOver(size, sockets, k - 1) + MessageSize(size, sockets, k - 1)
  }

  lemma {:induction false} SentOverFirst(size: nat, sockets: nat, k: nat)
    requires 1 <= sockets && 1 <= k
    ensures SentOver(size, sockets, k)
            == MessageSize(size, sockets, 0) + (if size < sockets then 1 else size / sockets) * (k - 1)
  {
    if k > 1 {
      SentOverFirst(size, sockets, k - 1);
      var each := if size < sockets then 1 else size / sockets;
      assert each * (k - 1) == each * (k - 2) + each;
    } else {
      assert SentOver(size, sockets, 0) == 0;
    }
  }

  /**
   The messages add up to the size asked for if and only if there is a byte for each
   socket or only one socket; otherwise one byte too many is sent for each further socket.
   */
  lemma SplitTotal(size: nat, sockets: nat)
    requires 1 <= sockets
    ensures SentOver(size, sockets, sockets) == size <==> size >= sockets || sockets == 1
    ensures size < sockets ==> SentOver(size, sockets, sockets) == size + sockets - 1
  {
    SentOverFirst(size, sockets, sockets);
    if size >= sockets {
      assert (size / sockets) * sockets + size % sockets == size;
      assert (size / sockets) * (sockets - 1) + size / sockets == (size / sockets) * sockets;
    }
  }

  // The loop has made `calls` of these reads: one, and further ones while the sum was short.
  predicate ReadUntil(size: nat, counts: seq<int>, calls: nat) {
    && 1 <= calls <= |counts|
    && (forall i :: 1 <= i < calls ==> Added(counts[..i]) < size)
    && (calls < |counts| ==> Added(counts[..calls]) >= size)
  }

  /**
   The client's receive loop after a message of `size` bytes: one read, then more while
   the sum of what they return is less than the size, failures and ends of the stream
   included. `counts` is what the reads return as long as the program is watched.
   */
  method ReceiveEcho(size: nat, counts: seq<int>) returns (bytesRead: int, calls: nat)
    requires counts != []
    ensures ReadUntil(size, counts, calls)
    ensures bytesRead == Added(counts[..calls])
  {
    bytesRead, calls := counts[0], 1;
    assert counts[..1][..0] == [];
    while bytesRead < size && calls < |counts|
      invariant 1 <= calls <= |counts| && bytesRead == Added(counts[..calls])
      invariant forall i :: 1 <= i < calls ==> Added(counts[..i]) < size
      decreases |counts| - calls
    {
      assert counts[..calls + 1][..calls] == counts[..calls];
      bytesRead := bytesRead + counts[calls];
      calls := calls + 1;
    }
  }

  /**
   When the reads take the chunks of an echo, the loop ends when the chunks taken make up
   the whole message, and makes no read beyond.
   */
  lemma EchoIsReadExactly(message: seq<Byte>, chunks: seq<seq<Byte>>, more: seq<int>, calls: nat)
    requires message != [] && Joined(chunks) == message
    requires forall i :: 0 <= i < |chunks| ==> chunks[i] != []
    requires ReadUntil(|message|, Lengths(chunks) + more, calls)
    ensures calls == |chunks| && Added((Lengths(chunks) + more)[..calls]) == |message|
    ensures forall k: nat :: k < calls ==> |Joined(chunks[..k])| < |message|
  {
    var echo := Lengths(chunks);
    var counts := echo + more;
    AddedIsJoined(chunks);
    assert counts[..|echo|] == echo;
    forall k: nat | k < |chunks|
      ensures Added(counts[..k]) == |Joined(chunks[..k])| < |message|
    {
      AddedGrows(echo, k);
      AddedIsJoined(chunks[..k]);
      assert counts[..k] == echo[..k] == Lengths(chunks[..k]);
    }
    assert calls >= |chunks|;
  }

  lemma {:induction false} DeadReads(counts: seq<int>, k: nat)
    requires k <= |counts| && forall i :: k <= i < |counts| ==> counts[i] <= 0
    ensures Added(counts) <= Added(counts[..k])
  {
    if k == |counts| {
      assert counts[..k] == counts;
    } else {
      var last := |counts| - 1;
      assert counts[..last][..k] == counts[..k];
      DeadReads(counts[..last], k);
    }
  }

  /** The loop ends if and only if some reads from the first on add up to the message size. */
  lemma LoopEndsExactly(size: nat, counts: seq<int>, calls: nat)
    requires ReadUntil(size, counts, calls)
    ensures Added(counts[..calls]) >= size
            <==> exists k: nat :: 1 <= k <= |counts| && Added(counts[..k]) >= size
  {
    forall k: nat | 1 <= k <= |counts| && Added(counts[..k]) >= size
      ensures k >= calls
    {
    }
  }

  /**
   The loop does not look for the end of the stream. When the connection is lost after
   these reads, it ends if and only if they brought the whole message; otherwise it reads
   on for ever.
   */
  lemma LostEchoEndsExactly(size: nat, arrived: seq<int>, lost: seq<int>, calls: nat)
    requires 1 <= size && lost != []
    requires forall i :: 0 <= i < |arrived| ==> arrived[i] >= 1
    requires forall i :: 0 <= i < |lost| ==> lost[i] <= 0
    requires ReadUntil(size, arrived + lost, calls)
    ensures Added((arrived + lost)[..calls]) >= size <==> Added(arrived) >= size
    ensures Added(arrived) < size ==> calls == |arrived + lost|
  {
    var made := (arrived + lost)[..calls];
    assert (arrived + lost)[..|arrived|] == arrived;
    if calls <= |arrived| {
      assert made == arrived[..calls];
      AddedGrows(arrived, calls);
    } else {
      assert made[..|arrived|] == arrived;
      DeadReads(made, |arrived|);
      assert arrived == [] ==> Added(arrived) == 0;
    }
  }
}
