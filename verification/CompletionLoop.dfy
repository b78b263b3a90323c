/**
 The completion loop of one end as a function of what its polls return: the
 specification of the loops in TestRunner and SingleQp, and its place in the protocol.
 */
module CompletionLoop {
  import opened Protocol
  import opened Invariant

  // An entry of the poll array as the program sees it, with the adapter's answers to the
  // posts the program may try while handling it. `wrId` is 1 for RECV and 2 for SEND.
  datatype Completion = Completion(qpNum: nat, success: bool, wrId: int, recvRoom: nat, sendRoom: bool)

  const RECV_WRID := 1
  const SEND_WRID := 2

  // First index with the QP number, or the number of QPs when there is none.
  function Owner(nums: seq<nat>, num: nat): (k: nat)
    ensures k <= |nums|
    ensures k < |nums| ==> nums[k] == num
    ensures forall j :: 0 <= j < k ==> nums[j] != num
  {
    if nums == [] || nums[0] == num then 0 else 1 + Owner(nums[1..], num)
  }

  predicate Distinct(nums: seq<nat>) {
    forall i, j :: 0 <= i < j < |nums| ==> nums[i] != nums[j]
  }

  /** The search over the QP numbers always finds the unique owner of a completion. */
  lemma OwnerIsUnique(nums: seq<nat>, k: nat)
    requires Distinct(nums) && k < |nums|
    ensures Owner(nums, nums[k]) == k
  {
    assert forall i :: 0 <= i < k ==> nums[i] != nums[k];
  }

  // A completion the program rejects makes it return an error.
  predicate Accepted(nums: seq<nat>, w: Completion) {
    Owner(nums, w.qpNum) < |nums| && w.success && (w.wrId == RECV_WRID || w.wrId == SEND_WRID)
  }

  function HandleOne(c: Config, nums: seq<nat>, h: Host, w: Completion): (h': Host)
    requires |h.qps| == |nums|
    ensures |h'.qps| == |nums|
  {
    if !Accepted(nums, w) then h.(failed := true)
    else
      var id := if w.wrId == RECV_WRID then Recv else Send;
      Handle(c, h, Item(Owner(nums, w.qpNum), id, w.recvRoom, w.sendRoom)).host
  }

  /**
   A completion the program takes is of a QP of its own, successful, and has work-request
   id 1 for a receive, which alone raises `rcnt`, or 2 for a send, which alone raises
   `scnt`; the id is the bit it clears.
   */
  lemma CompletionCounts(c: Config, nums: seq<nat>, h: Host, w: Completion)
    requires |h.qps| == |nums| && !h.failed && !HandleOne(c, nums, h, w).failed
    ensures w.qpNum in nums && w.success && (w.wrId == 1 || w.wrId == 2)
    ensures HandleOne(c, nums, h, w).rcnt == h.rcnt + if w.wrId == 1 then 1 else 0
    ensures HandleOne(c, nums, h, w).scnt == h.scnt + if w.wrId == 2 then 1 else 0
  {
  }

  function HandleAll(c: Config, nums: seq<nat>, h: Host, ws: seq<Completion>): (h': Host)
    requires |h.qps| == |nums|
    ensures |h'.qps| == |nums|
  {
    if ws == [] then h
    else
      var before := HandleAll(c, nums, h, ws[..|ws| - 1]);
      if before.failed then before else HandleOne(c, nums, before, ws[|ws| - 1])
  }

  // What one turn of the loop gets: the completions a poll found, possibly none, or a
  // failure. The last three are failures of the wait that precedes the poll in event mode:
  // no event, an event of another queue, or no new notification.
  datatype Answer = Found(wcs: seq<Completion>) | PollFailed | NoEvent | OtherQueue | NotRearmed

  // The loop over these answers; it stops at its test or at an error.
  function Loop(c: Config, nums: seq<nat>, h: Host, polls: seq<Answer>): (h': Host)
    requires |h.qps| == |nums|
    ensures |h'.qps| == |nums|
  {
    if polls == [] then h
    else
      var before := Loop(c, nums, h, polls[..|polls| - 1]);
      if before.failed || Done(c, before) then before
      else if polls[|polls| - 1].Found? then HandleAll(c, nums, before, polls[|polls| - 1].wcs)
      else before.(failed := true)
  }

  // Once the loop has stopped, further polls are not made.
  lemma {:induction false} LoopStops(c: Config, nums: seq<nat>, h: Host, polls: seq<Answer>, p: nat)
    requires |h.qps| == |nums| && p <= |polls|
    requires var at := Loop(c, nums, h, polls[..p]); at.failed || Done(c, at)
    ensures Loop(c, nums, h, polls) == Loop(c, nums, h, polls[..p])
  {
    if p == |polls| {
      assert polls[..p] == polls;
    } else {
      var last := |polls| - 1;
      assert polls[..last][..p] == polls[..p];
      LoopStops(c, nums, h, polls[..last], p);
    }
  }

  // Polls that find nothing change nothing: the inner loop just polls again.
  lemma EmptyPoll(c: Config, nums: seq<nat>, h: Host, polls: seq<Answer>)
    requires |h.qps| == |nums|
    ensures Loop(c, nums, h, polls + [Found([])]) == Loop(c, nums, h, polls)
  {
    assert (polls + [Found([])])[..|polls|] == polls;
  }

  // An item of the protocol as the program at an end with these QP numbers sees it.
  function Seen(nums: seq<nat>, it: Item): Completion
    requires it.qp < |nums|
  {
    Completion(nums[it.qp], true, if it.id == Recv then RECV_WRID else SEND_WRID,
               it.recvRoom, it.sendRoom)
  }

  lemma SeenIsHandled(c: Config, nums: seq<nat>, h: Host, it: Item)
    requires Distinct(nums) && |h.qps| == |nums| && it.qp < |nums|
    ensures HandleOne(c, nums, h, Seen(nums, it)) == Handle(c, h, it).host
  {
    OwnerIsUnique(nums, it.qp);
  }

  // One more completion of the last poll is handled.
  function WithNext(polls: seq<Answer>, w: Completion): seq<Answer>
    requires polls != []
  {
    var last := polls[|polls| - 1];
    polls[..|polls| - 1] + [if last.Found? then Found(last.wcs + [w]) else last]
  }

  // What the polls of one end returned along a run, as far as it has been handled.
  ghost function PollsOf(c: Config, nums: seq<nat>, steps: seq<Step>, side: Side): seq<Answer>
    requires Legal(c, steps) && |nums| == c.n
  {
    if steps == [] then []
    else
      var last := |steps| - 1;
      var polls := PollsOf(c, nums, steps[..last], side);
      var e := After(c, steps[..last]).At(side);
      if steps[last] == Process(side) && e.batch != [] && e.batch[0].qp < c.n && polls != [] then
        WithNext(polls, Seen(nums, ItemOf(c, e, e.batch[0])))
      else if steps[last].Poll? && steps[last].side == side then
        polls + [Found([])]
      else polls
  }

  lemma LoopLast(c: Config, nums: seq<nat>, h: Host, prefix: seq<Answer>, batch: seq<Completion>)
    requires |h.qps| == |nums|
    requires var before := Loop(c, nums, h, prefix); !before.failed && !Done(c, before)
    ensures Loop(c, nums, h, prefix + [Found(batch)]) == HandleAll(c, nums, Loop(c, nums, h, prefix), batch)
  {
    assert (prefix + [Found(batch)])[..|prefix|] == prefix;
  }

  lemma BatchLast(c: Config, nums: seq<nat>, h: Host, ws: seq<Completion>, w: Completion)
    requires |h.qps| == |nums| && !HandleAll(c, nums, h, ws).failed
    ensures HandleAll(c, nums, h, ws + [w]) == HandleOne(c, nums, HandleAll(c, nums, h, ws), w)
  {
    assert (ws + [w])[..|ws|] == ws;
  }

  // One more completion of the last poll.
  lemma NewPoll(c: Config, nums: seq<nat>, h: Host, prefix: seq<Answer>, batch: seq<Completion>,
                w: Completion)
    requires |h.qps| == |nums|
    requires var before := Loop(c, nums, h, prefix); !before.failed && !Done(c, before)
    requires !Loop(c, nums, h, prefix + [Found(batch)]).failed
    ensures Loop(c, nums, h, prefix + [Found(batch + [w])])
            == HandleOne(c, nums, Loop(c, nums, h, prefix + [Found(batch)]), w)
  {
    LoopLast(c, nums, h, prefix, batch);
    LoopLast(c, nums, h, prefix, batch + [w]);
    BatchLast(c, nums, Loop(c, nums, h, prefix), batch, w);
  }

  // Where an end stands with respect to its loop: a batch in hand belongs to the last
  // poll, and that poll was made because the loop test held.
  ghost predicate InLoop(c: Config, nums: seq<nat>, h0: Host, polls: seq<Answer>, e: End)
    requires |h0.qps| == |nums|
  {
    && Loop(c, nums, h0, polls) == e.host
    && (e.batch != [] ==>
          && polls != []
          && polls[|polls| - 1].Found?
          && var before := Loop(c, nums, h0, polls[..|polls| - 1]);
             !before.failed && !Done(c, before))
  }

  lemma PollInLoop(c: Config, nums: seq<nat>, h0: Host, polls: seq<Answer>, e: End, count: nat)
    requires |h0.qps| == |nums| && InLoop(c, nums, h0, polls, e)
    requires count <= |e.cq| && !e.host.failed && !Done(c, e.host)
    ensures InLoop(c, nums, h0, polls + [Found([])], Polled(e, count))
  {
    assert (polls + [Found([])])[..|polls|] == polls;
  }

  lemma ProcessInLoop(c: Config, nums: seq<nat>, h0: Host, polls: seq<Answer>, e: End)
    requires |h0.qps| == |nums| == c.n && Distinct(nums) && InLoop(c, nums, h0, polls, e)
    requires Shaped(c, e) && e.batch != [] && !e.host.failed
    ensures e.batch[0].qp < c.n && polls != []
    ensures var w := Seen(nums, ItemOf(c, e, e.batch[0]));
            InLoop(c, nums, h0, WithNext(polls, w), Processed(c, e))
  {
    ProcessShaped(c, e);
    var it := ItemOf(c, e, e.batch[0]);
    var last := |polls| - 1;
    var more := WithNext(polls, Seen(nums, it));
    assert polls == polls[..last] + [Found(polls[last].wcs)];
    NewPoll(c, nums, h0, polls[..last], polls[last].wcs, Seen(nums, it));
    SeenIsHandled(c, nums, e.host, it);
    assert more[..last] == polls[..last];
  }

  lemma {:induction false} RunIsLoop(c: Config, nums: seq<nat>, steps: seq<Step>, side: Side)
    requires Legal(c, steps) && |nums| == c.n && Distinct(nums)
    ensures InLoop(c, nums, InitHost(c, side), PollsOf(c, nums, steps, side), After(c, steps).At(side))
  {
    if steps != [] {
      var last := |steps| - 1;
      RunIsLoop(c, nums, steps[..last], side);
      var s, step := After(c, steps[..last]), steps[last];
      var polls := PollsOf(c, nums, steps[..last], side);
      if step == Process(side) {
        ProcessInLoop(c, nums, InitHost(c, side), polls, s.At(side));
      } else if step.Poll? && step.side == side {
        PollInLoop(c, nums, InitHost(c, side), polls, s.At(side), step.count);
      } else {
        OtherStep(c, s, step, side);
      }
    }
  }

  lemma OtherStep(c: Config, s: State, step: Step, side: Side)
    requires Enabled(c, s, step)
    requires step != Process(side) && !(step.Poll? && step.side == side)
    ensures Apply(c, s, step).At(side).host == s.At(side).host
    ensures Apply(c, s, step).At(side).batch == s.At(side).batch
  {
  }

  /**
   Along every run of the protocol, what an end's program holds is what its completion
   loop computes from the polls it made, however the adapter's steps interleave.
   */
  lemma HostIsLoop(c: Config, nums: seq<nat>, steps: seq<Step>, side: Side)
    requires Legal(c, steps) && |nums| == c.n && Distinct(nums)
    ensures After(c, steps).At(side).host
            == Loop(c, nums, InitHost(c, side), PollsOf(c, nums, steps, side))
  {
    RunIsLoop(c, nums, steps, side);
  }
}
