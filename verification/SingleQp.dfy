/**
 The single-QP loop of multithreadIB.c and Original/rc_pingpong.c, and how the N-QP loop
 refines it: each QP of the N-QP loop runs the single-QP loop, only the send budget is shared.
 */
module SingleQp {
  import opened Protocol
  import opened Invariant
  import opened CompletionLoop
  import opened TestRunner
  import opened Theorems

  // `ctx->pending` and `routs`, the counters, and whether an error was returned.
  datatype Single = Single(local: Local, scnt: int, rcnt: int, failed: bool)

  predicate SingleDone(c: Config, s: Single) {
    s.rcnt >= c.iters && s.scnt >= c.iters
  }

  function SendNext(c: Config, s: Single, sendRoom: bool): Single {
    if s.scnt < c.iters && !s.local.recvBit && !s.local.sendBit then
      if sendRoom then s.(local := Local(true, true, s.local.routs)) else s.(failed := true)
    else s
  }

  function HandleSingle(c: Config, s: Single, w: Completion): Single {
    if !w.success then s.(failed := true)
    else if w.wrId == SEND_WRID then
      SendNext(c, s.(scnt := s.scnt + 1, local := s.local.(sendBit := false)), w.sendRoom)
    else if w.wrId == RECV_WRID then
      var left := s.local.routs - 1;
      var routs := if left <= 1 then left + PostedReceives(c.rxDepth - left, w.recvRoom) else left;
      if left <= 1 && routs < c.rxDepth then
        s.(local := s.local.(routs := routs), failed := true)
      else
        SendNext(c, s.(rcnt := s.rcnt + 1, local := Local(false, s.local.sendBit, routs)), w.sendRoom)
    else s.(failed := true)
  }

  function HandleSingles(c: Config, s: Single, ws: seq<Completion>): Single {
    if ws == [] then s
    else
      var before := HandleSingles(c, s, ws[..|ws| - 1]);
      if before.failed then before else HandleSingle(c, before, ws[|ws| - 1])
  }

  function SingleLoop(c: Config, s: Single, polls: seq<Answer>): Single {
    if polls == [] then s
    else
      var before := SingleLoop(c, s, polls[..|polls| - 1]);
      if before.failed || SingleDone(c, before) then before
      else if polls[|polls| - 1].Found? then HandleSingles(c, before, polls[|polls| - 1].wcs)
      else before.(failed := true)
  }

  lemma {:induction false} SingleBatchStops(c: Config, s: Single, ws: seq<Completion>, i: nat)
    requires i <= |ws| && HandleSingles(c, s, ws[..i]).failed
    ensures HandleSingles(c, s, ws) == HandleSingles(c, s, ws[..i])
  {
    if i == |ws| {
      assert ws[..i] == ws;
    } else {
      assert ws[..|ws| - 1][..i] == ws[..i];
      SingleBatchStops(c, s, ws[..|ws| - 1], i);
    }
  }

  lemma {:induction false} SingleLoopStops(c: Config, s: Single, polls: seq<Answer>, p: nat)
    requires p <= |polls|
    requires var at := SingleLoop(c, s, polls[..p]); at.failed || SingleDone(c, at)
    ensures SingleLoop(c, s, polls) == SingleLoop(c, s, polls[..p])
  {
    if p == |polls| {
      assert polls[..p] == polls;
    } else {
      assert polls[..|polls| - 1][..p] == polls[..p];
      SingleLoopStops(c, s, polls[..|polls| - 1], p);
    }
  }

  // The loop test held before each of the first `p` polls.
  ghost predicate SingleRanUpTo(c: Config, s: Single, polls: seq<Answer>, p: nat)
    requires p <= |polls|
  {
    forall q :: 0 <= q < p ==>
      var at := SingleLoop(c, s, polls[..q]);
      !at.failed && (at.rcnt < c.iters || at.scnt < c.iters)
  }

  // The polls from `p` on that found nothing, and then the one handled.
  lemma {:induction false} SingleRound(c: Config, s: Single, polls: seq<Answer>, p: nat, q: nat)
    requires p < q <= |polls|
    requires forall i :: p <= i < q - 1 ==> polls[i] == Found([])
    requires var before := SingleLoop(c, s, polls[..p]); !before.failed && !SingleDone(c, before)
    requires SingleRanUpTo(c, s, polls, p)
    ensures var before := SingleLoop(c, s, polls[..p]);
            SingleLoop(c, s, polls[..q])
            == if polls[q - 1].Found? then HandleSingles(c, before, polls[q - 1].wcs)
               else before.(failed := true)
    ensures SingleRanUpTo(c, s, polls, q)
  {
    assert polls[..q][..q - 1] == polls[..q - 1];
    if p < q - 1 {
      SingleRound(c, s, polls, p, q - 1);
    }
  }

  class SingleEndpoint {
    const c: Config
    const useEvent: bool
    var pending: bv8
    var routs: int
    var rcnt: int
    var scnt: int
    var failed: bool
    var numCqEvents: nat

    ghost predicate Valid()
      reads this
    {
      pending <= 3
    }

    ghost function Contents(): Single
      reads this
    {
      Single(Unpack(pending, routs), scnt, rcnt, failed)
    }

    // The program gives up when the receives, or in event mode the first request for a
    // notification, or the client's opening send is refused.
    constructor (c: Config, useEvent: bool, side: Side, recvRoom: nat, notifies: bool, sendRoom: bool)
      ensures Valid() && this.c == c && this.useEvent == useEvent && numCqEvents == 0
      ensures failed <==> recvRoom < c.rxDepth || (useEvent && !notifies) || (side == Client && !sendRoom)
      ensures !failed ==> Contents() == Single(Local(true, side == Client, c.rxDepth), 0, 0, false)
    {
      this.c := c;
      this.useEvent := useEvent;
      rcnt, scnt, failed, numCqEvents := 0, 0, false, 0;
      pending := 0;
      routs := 0;
      new;
      routs := PostReceives(c.rxDepth, recvRoom);
      if routs < c.rxDepth || (useEvent && !notifies) {
        failed := true;
        return;
      }
      pending := RECV_BIT;
      if side == Client {
        if !sendRoom {
          failed := true;
          return;
        }
        pending := pending | SEND_BIT;
      }
    }

    method ClearAndPost(bit: bv8, sendRoom: bool)
      requires Valid() && (bit == RECV_BIT || bit == SEND_BIT)
      modifies this`pending, this`failed
      ensures Valid()
      ensures var was := old(Contents());
              var id := if bit == RECV_BIT then Recv else Send;
              Contents() == SendNext(c, was.(local := was.local.Clear(id)), sendRoom)
    {
      ClearBit(pending, bit, routs);
      pending := pending & !bit;
      if scnt < c.iters && pending == 0 {
        if sendRoom {
          pending := RECV_BIT | SEND_BIT;
        } else {
          failed := true;
        }
      }
    }

    /** One iteration of the loop over the polled completions. */
    method HandleCompletion(w: Completion)
      requires Valid() && !failed
      modifies this`pending, this`routs, this`rcnt, this`scnt, this`failed
      ensures Valid()
      ensures Contents() == HandleSingle(c, old(Contents()), w)
    {
      if !w.success {
        failed := true;
        return;
      }
      if w.wrId == SEND_WRID {
        scnt := scnt + 1;
        ClearAndPost(SEND_BIT, w.sendRoom);
      } else if w.wrId == RECV_WRID {
        routs := routs - 1;
        if routs <= 1 {
          var posted := PostReceives(c.rxDepth - routs, w.recvRoom);
          routs := routs + posted;
          if routs < c.rxDepth {
            failed := true;
            return;
          }
        }
        rcnt := rcnt + 1;
        ClearAndPost(RECV_BIT, w.sendRoom);
      } else {
        failed := true;
      }
    }

    method HandleBatch(batch: seq<Completion>)
      requires Valid() && !failed
      modifies this`pending, this`routs, this`rcnt, this`scnt, this`failed
      ensures Valid()
      ensures Contents() == HandleSingles(c, old(Contents()), batch)
    {
      ghost var was := Contents();
      var i := 0;
      while i < |batch|
        invariant Valid() && i <= |batch| && !failed
        invariant Contents() == HandleSingles(c, was, batch[..i])
      {
        assert batch[..i + 1][..i] == batch[..i];
        HandleCompletion(batch[i]);
        i := i + 1;
        if failed {
          SingleBatchStops(c, was, batch, i);
          return;
        }
      }
      assert batch[..i] == batch;
    }

    // In event mode one event is taken, unless the wait fails, and one poll made; otherwise
    // polling repeats until something is found or the poll fails.
    method NextAnswer(polls: seq<Answer>, p: nat) returns (answer: Answer, q: nat)
      requires p < |polls|
      modifies this`numCqEvents
      ensures p < q <= |polls| && answer == polls[q - 1]
      ensures forall i :: p <= i < q - 1 ==> polls[i] == Found([])
      ensures useEvent ==> q == p + 1
      ensures numCqEvents == old(numCqEvents) + if useEvent && !answer.NoEvent? then 1 else 0
    {
      if useEvent {
        answer, q := polls[p], p + 1;
        if !answer.NoEvent? {
          numCqEvents := numCqEvents + 1;
        }
      } else {
        answer, q := NextPoll(polls, p);
      }
    }

    method HandleAnswer(answer: Answer)
      requires Valid() && !failed
      modifies this`pending, this`routs, this`rcnt, this`scnt, this`failed
      ensures Valid()
      ensures Contents()
              == if answer.Found? then HandleSingles(c, old(Contents()), answer.wcs)
                 else old(Contents()).(failed := true)
    {
      if answer.Found? {
        HandleBatch(answer.wcs);
      } else {
        failed := true;
      }
    }

    /**
     The completion loop. Polling repeats until something is found; in event mode one
     event is taken and one poll made per round, whatever it finds. Every failure of a
     wait or a poll ends it. Each round made in event mode has taken one event, unless the
     wait itself failed.
     */
    method RunPingPong(polls: seq<Answer>) returns (ghost made: nat)
      requires Valid() && !failed
      modifies this
      ensures Valid()
      ensures Contents() == SingleLoop(c, old(Contents()), polls)
      ensures made <= |polls| && Contents() == SingleLoop(c, old(Contents()), polls[..made])
      ensures forall q :: 0 <= q < made ==>
                var at := SingleLoop(c, old(Contents()), polls[..q]);
                !at.failed && (at.rcnt < c.iters || at.scnt < c.iters)
      ensures made < |polls| ==> failed || (rcnt >= c.iters && scnt >= c.iters)
      ensures numCqEvents
              == if !useEvent then old(numCqEvents)
                 else if made > 0 && polls[made - 1].NoEvent? then old(numCqEvents) + made - 1
                 else old(numCqEvents) + made
    {
      ghost var was := Contents();
      ghost var events := numCqEvents;
      var p := 0;
      while (rcnt < c.iters || scnt < c.iters) && p < |polls|
        invariant Valid() && p <= |polls| && !failed
        invariant Contents() == SingleLoop(c, was, polls[..p])
        invariant SingleRanUpTo(c, was, polls, p)
        invariant numCqEvents == events + if useEvent then p else 0
        invariant p > 0 ==> polls[p - 1].Found?
        decreases |polls| - p
      {
        ghost var start := p;
        var answer;
        answer, p := NextAnswer(polls, p);
        SingleRound(c, was, polls, start, p);
        HandleAnswer(answer);
        if failed {
          break;
        }
      }
      made := p;
      if p == |polls| {
        assert polls[..p] == polls;
      } else {
        SingleLoopStops(c, was, polls, p);
      }
    }
  }

  // What the single-QP loop would hold for QP `k` of an N-QP end.
  function View(h: Host, k: nat): Single
    requires k < |h.qps|
  {
    Single(h.qps[k], h.scnt, h.rcnt, h.failed)
  }

  lemma SendsLikeSingle(c: Config, h: Host, it: Item, recvs: nat)
    requires it.qp < |h.qps|
    ensures var h' := ClearAndSend(c, h, it, recvs).host;
            && View(h', it.qp)
               == SendNext(c, View(h, it.qp).(local := h.qps[it.qp].Clear(it.id)), it.sendRoom)
            && forall j :: 0 <= j < |h.qps| && j != it.qp ==> h'.qps[j] == h.qps[j]
  {
  }

  lemma HandlesLikeSingle(c: Config, h: Host, it: Item, w: Completion)
    requires it.qp < |h.qps| && w.success
    requires w.wrId == if it.id == Recv then RECV_WRID else SEND_WRID
    requires w.recvRoom == it.recvRoom && w.sendRoom == it.sendRoom
    ensures var h' := Handle(c, h, it).host;
            && View(h', it.qp) == HandleSingle(c, View(h, it.qp), w)
            && forall j :: 0 <= j < |h.qps| && j != it.qp ==> h'.qps[j] == h.qps[j]
  {
    match it.id
    case Send =>
      SendsLikeSingle(c, h.(scnt := h.scnt + 1), it, 0);
    case Recv =>
      var l := h.qps[it.qp];
      var left := l.routs - 1;
      var recvs := if left <= 1 then PostedReceives(c.rxDepth - left, it.recvRoom) else 0;
      var h1 := h.(qps := h.qps[it.qp := l.(routs := left + recvs)], rcnt := h.rcnt + 1);
      SendsLikeSingle(c, h1, it, recvs);
  }

  /**
   On the QP that owns the completion the N-QP loop does exactly what the single-QP loop
   does, and on every other QP nothing.
   */
  lemma OwnerStepsLikeSingle(c: Config, nums: seq<nat>, h: Host, w: Completion, k: nat)
    requires |h.qps| == |nums| && k < |nums| && Owner(nums, w.qpNum) < |nums|
    ensures k == Owner(nums, w.qpNum) ==>
              View(HandleOne(c, nums, h, w), k) == HandleSingle(c, View(h, k), w)
    ensures k != Owner(nums, w.qpNum) ==> HandleOne(c, nums, h, w).qps[k] == h.qps[k]
  {
    if Accepted(nums, w) {
      var id := if w.wrId == RECV_WRID then Recv else Send;
      HandlesLikeSingle(c, h, Item(Owner(nums, w.qpNum), id, w.recvRoom, w.sendRoom), w);
    }
  }

  // QP `k` of one end along a run, moved by the single-QP loop alone: from the shared
  // state it is given only the value of the counters at each of its completions.
  ghost function Track(c: Config, steps: seq<Step>, side: Side, k: nat): Local
    requires Legal(c, steps) && k < c.n
  {
    if steps == [] then Local(true, side == Client, c.rxDepth)
    else
      var last := |steps| - 1;
      var l := Track(c, steps[..last], side, k);
      var e := After(c, steps[..last]).At(side);
      if steps[last] == Process(side) && e.batch != [] && k < |e.ports| && e.batch[0].qp == k then
        var w := Seen(seq(c.n, i => i), ItemOf(c, e, e.batch[0]));
        HandleSingle(c, Single(l, e.host.scnt, e.host.rcnt, false), w).local
      else l
  }

  lemma ProcessTracks(c: Config, e: End, k: nat)
    requires Shaped(c, e) && e.batch != [] && k < c.n && !e.host.failed
    ensures |Processed(c, e).host.qps| == c.n
    ensures Processed(c, e).host.qps[k]
            == if e.batch[0].qp == k
               then HandleSingle(c, View(e.host, k), Seen(seq(c.n, i => i), ItemOf(c, e, e.batch[0]))).local
               else e.host.qps[k]
  {
    ProcessShaped(c, e);
    var nums: seq<nat> := seq(c.n, i => i);
    var it := ItemOf(c, e, e.batch[0]);
    SeenIsHandled(c, nums, e.host, it);
    OwnerIsUnique(nums, it.qp);
    OwnerStepsLikeSingle(c, nums, e.host, Seen(nums, it), k);
  }

  /**
   Projecting any run of the protocol onto one QP of one end gives the single-QP loop's
   mask and credits at every moment.
   */
  lemma {:induction false} RunProjectsToSingle(c: Config, steps: seq<Step>, side: Side, k: nat)
    requires Legal(c, steps) && k < c.n
    ensures k < |After(c, steps).At(side).host.qps|
    ensures After(c, steps).At(side).host.qps[k] == Track(c, steps, side, k)
  {
    InvHolds(c, steps);
    if steps != [] {
      var last := |steps| - 1;
      RunProjectsToSingle(c, steps[..last], side, k);
      var s := After(c, steps[..last]);
      if steps[last] == Process(side) {
        ProcessTracks(c, s.At(side), k);
      } else if !(steps[last].Poll? && steps[last].side == side) {
        OtherStep(c, s, steps[last], side);
      }
    }
  }

  // With one QP the two handlers agree on everything.
  lemma {:induction false} BatchesCoincide(c: Config, num: nat, h: Host, ws: seq<Completion>)
    requires |h.qps| == 1
    requires AllFrom(num, ws)
    ensures View(HandleAll(c, [num], h, ws), 0) == HandleSingles(c, View(h, 0), ws)
  {
    if ws != [] {
      var last := |ws| - 1;
      BatchesCoincide(c, num, h, ws[..last]);
      OwnerStepsLikeSingle(c, [num], HandleAll(c, [num], h, ws[..last]), ws[last], 0);
    }
  }

  predicate AllFrom(num: nat, ws: seq<Completion>) {
    forall i :: 0 <= i < |ws| ==> ws[i].qpNum == num
  }

  predicate OnlyFrom(num: nat, polls: seq<Answer>) {
    forall p :: 0 <= p < |polls| && polls[p].Found? ==> AllFrom(num, polls[p].wcs)
  }

  /** With one QP the N-QP loop coincides with the single-QP loop, poll by poll. */
  lemma {:induction false} LoopsCoincide(c: Config, num: nat, h: Host, polls: seq<Answer>)
    requires |h.qps| == 1
    requires OnlyFrom(num, polls)
    ensures View(Loop(c, [num], h, polls), 0) == SingleLoop(c, View(h, 0), polls)
  {
    if polls != [] {
      var last := |polls| - 1;
      LoopsCoincide(c, num, h, polls[..last]);
      if polls[last].Found? {
        BatchesCoincide(c, num, Loop(c, [num], h, polls[..last]), polls[last].wcs);
      }
    }
  }

  lemma OneMore(num: nat, polls: seq<Answer>, w: Completion)
    requires OnlyFrom(num, polls) && polls != [] && w.qpNum == num
    ensures OnlyFrom(num, WithNext(polls, w))
  {
  }

  // All completions at a single-QP end are that QP's.
  lemma {:induction false} PollsOfOne(c: Config, num: nat, steps: seq<Step>, side: Side)
    requires Legal(c, steps) && c.n == 1
    ensures OnlyFrom(num, PollsOf(c, [num], steps, side))
  {
    if steps != [] {
      var prefix := steps[..|steps| - 1];
      PollsOfOne(c, num, prefix, side);
      var polls := PollsOf(c, [num], prefix, side);
      var e := After(c, prefix).At(side);
      if e.batch != [] && e.batch[0].qp < c.n && polls != [] && e.batch[0].qp < |e.ports| {
        OneMore(num, polls, Seen([num], ItemOf(c, e, e.batch[0])));
      }
    }
  }

  /**
   Along every run with one QP each program is the single-QP loop over its polls, and
   when its loop test fails it has made exactly `iters` exchanges.
   */
  lemma SingleLoopInRun(c: Config, num: nat, steps: seq<Step>, side: Side)
    requires Legal(c, steps) && c.n == 1
    ensures var s := SingleLoop(c, Single(Local(true, side == Client, c.rxDepth), 0, 0, false),
                                PollsOf(c, [num], steps, side));
            && |After(c, steps).At(side).host.qps| == 1
            && s == View(After(c, steps).At(side).host, 0)
            && !s.failed
            && (SingleDone(c, s) ==> s.scnt == c.iters && s.rcnt == c.iters)
  {
    HostIsLoop(c, [num], steps, side);
    PollsOfOne(c, num, steps, side);
    LoopsCoincide(c, num, InitHost(c, side), PollsOf(c, [num], steps, side));
    SingleQpExact(c, steps, side);
    NeverFails(c, steps, side);
  }
}
