/**
 One end of the N-QP ping-pong, in the form of `runPingPong` of multistreamTestRunner.c:
 arrays and counters updated in place. What the verbs library answers is a parameter.
 */
module TestRunner {
  import opened Protocol
  import opened CompletionLoop

  // `pp_post_recv_pQp`: post up to `n` receives, stopping when the queue refuses.
  method PostReceives(n: int, room: nat) returns (i: int)
    ensures i == PostedReceives(n, room)
    ensures i == if n <= 0 then 0 else if n < room then n else room
  {
    i := 0;
    while i < n
      invariant 0 <= i <= room
      invariant i <= n || i == 0
    {
      if i == room {
        break;
      }
      i := i + 1;
    }
  }

  // The search for the QP of a completion.
  method FindQp(nums: seq<nat>, num: nat) returns (place: nat)
    ensures place == Owner(nums, num)
  {
    place := 0;
    while place < |nums|
      invariant place <= |nums|
      invariant forall j :: 0 <= j < place ==> nums[j] != num
    {
      if nums[place] == num {
        break;
      }
      place := place + 1;
    }
    var owner := Owner(nums, num);
    assert owner < |nums| ==> nums[owner] == num;
  }

  const RECV_BIT: bv8 := 1
  const SEND_BIT: bv8 := 2

  // A mask of `pending_qp[]` as the specification reads it.
  function Unpack(mask: bv8, routs: int): Local {
    Local(mask & RECV_BIT != 0, mask & SEND_BIT != 0, routs)
  }

  lemma ClearBit(mask: bv8, bit: bv8, routs: int)
    requires mask <= 3 && (bit == RECV_BIT || bit == SEND_BIT)
    ensures mask & !bit <= 3
    ensures Unpack(mask & !bit, routs)
            == Unpack(mask, routs).Clear(if bit == RECV_BIT then Recv else Send)
    ensures mask & !bit == 0
            <==> !Unpack(mask & !bit, routs).recvBit && !Unpack(mask & !bit, routs).sendBit
  {
  }

  // The two arrays as the specification reads them.
  function Locals(pending: seq<bv8>, routs: seq<int>): (qps: seq<Local>)
    requires |pending| == |routs|
    ensures |qps| == |pending|
    ensures forall k :: 0 <= k < |qps| ==> qps[k] == Unpack(pending[k], routs[k])
  {
    seq(|pending|, k requires 0 <= k < |pending| => Unpack(pending[k], routs[k]))
  }

  lemma LocalsUpdate(pending: seq<bv8>, routs: seq<int>, k: nat, mask: bv8, credits: int)
    requires |pending| == |routs| && k < |pending|
    ensures Locals(pending[k := mask], routs[k := credits])
            == Locals(pending, routs)[k := Unpack(mask, credits)]
  {
  }

  // The inner loop: poll until something is found or the poll fails.
  method NextPoll(polls: seq<Answer>, p: nat) returns (answer: Answer, q: nat)
    requires p < |polls|
    ensures p < q <= |polls| && answer == polls[q - 1]
    ensures forall i :: p <= i < q - 1 ==> polls[i] == Found([])
    ensures answer == Found([]) ==> q == |polls|
  {
    answer := polls[p];
    q := p + 1;
    while answer.Found? && |answer.wcs| < 1 && q < |polls|
      invariant p < q <= |polls| && answer == polls[q - 1]
      invariant forall i :: p <= i < q - 1 ==> polls[i] == Found([])
    {
      answer := polls[q];
      q := q + 1;
    }
  }

  lemma {:induction false} EmptyPolls(c: Config, nums: seq<nat>, h: Host, polls: seq<Answer>, p: nat, q: nat)
    requires |h.qps| == |nums| && p <= q <= |polls|
    requires forall i :: p <= i < q ==> polls[i] == Found([])
    ensures Loop(c, nums, h, polls[..q]) == Loop(c, nums, h, polls[..p])
  {
    if p < q {
      EmptyPolls(c, nums, h, polls, p, q - 1);
      assert polls[..q] == polls[..q - 1] + [Found([])];
      EmptyPoll(c, nums, h, polls[..q - 1]);
    }
  }

  lemma {:induction false} BatchStops(c: Config, nums: seq<nat>, h: Host, ws: seq<Completion>, i: nat)
    requires |h.qps| == |nums| && i <= |ws| && HandleAll(c, nums, h, ws[..i]).failed
    ensures HandleAll(c, nums, h, ws) == HandleAll(c, nums, h, ws[..i])
  {
    if i == |ws| {
      assert ws[..i] == ws;
    } else {
      var last := |ws| - 1;
      assert ws[..last][..i] == ws[..i];
      BatchStops(c, nums, h, ws[..last], i);
    }
  }

  // The loop test held before each of the first `p` polls.
  ghost predicate RanUpTo(c: Config, nums: seq<nat>, h: Host, polls: seq<Answer>, p: nat)
    requires |h.qps| == |nums| && p <= |polls|
  {
    forall q :: 0 <= q < p ==>
      var at := Loop(c, nums, h, polls[..q]);
      !at.failed && (at.rcnt < c.iters || at.scnt < c.iters)
  }

  // The polls from `p` on that found nothing, and then the one that ended the inner loop.
  lemma NextRound(c: Config, nums: seq<nat>, h: Host, polls: seq<Answer>, p: nat, q: nat)
    requires |h.qps| == |nums| && p < q <= |polls|
    requires forall i :: p <= i < q - 1 ==> polls[i] == Found([])
    requires var before := Loop(c, nums, h, polls[..p]); !before.failed && !Done(c, before)
    requires RanUpTo(c, nums, h, polls, p)
    ensures var before := Loop(c, nums, h, polls[..p]);
            Loop(c, nums, h, polls[..q])
            == if polls[q - 1].Found? then HandleAll(c, nums, before, polls[q - 1].wcs)
               else before.(failed := true)
    ensures RanUpTo(c, nums, h, polls, q)
  {
    EmptyPolls(c, nums, h, polls, p, q - 1);
    assert polls[..q][..q - 1] == polls[..q - 1];
    forall i | p <= i < q
      ensures Loop(c, nums, h, polls[..i]) == Loop(c, nums, h, polls[..p])
    {
      EmptyPolls(c, nums, h, polls, p, i);
    }
  }

  // All the receives, and for the client one send, fit the queues of every QP.
  predicate StartFits(c: Config, side: Side, recvRoom: seq<nat>, sendRoom: seq<bool>)
    requires |recvRoom| == |sendRoom| == c.n
  {
    forall k :: 0 <= k < c.n ==> recvRoom[k] >= c.rxDepth && (side == Client ==> sendRoom[k])
  }

  class Endpoint {
    const c: Config
    const qpNums: seq<nat>
    const pending: array<bv8>
    const routs: array<int>
    var rcnt: int
    var scnt: int
    var failed: bool

    ghost predicate Valid()
      reads this, pending
    {
      && pending.Length == routs.Length == |qpNums| == c.n
      && (pending as object) != routs
      && Distinct(qpNums)
      && forall k :: 0 <= k < pending.Length ==> pending[k] <= 3
    }

    ghost function Contents(): (h: Host)
      requires Valid()
      reads this, pending, routs
    {
      Host(Locals(pending[..], routs[..]), scnt, rcnt, failed)
    }

    // Post the receives, set every mask, and let the client post one send per QP. The
    // program gives up at the first post that is refused.
    constructor (c: Config, qpNums: seq<nat>, side: Side, recvRoom: seq<nat>, sendRoom: seq<bool>)
      requires |qpNums| == |recvRoom| == |sendRoom| == c.n && Distinct(qpNums)
      ensures Valid() && this.c == c && this.qpNums == qpNums
      ensures fresh(pending) && fresh(routs)
      ensures failed <==> !StartFits(c, side, recvRoom, sendRoom)
      ensures !failed ==> Contents() == InitHost(c, side)
    {
      this.c := c;
      this.qpNums := qpNums;
      pending := new bv8[c.n](_ => 0);
      routs := new int[c.n](_ => 0);
      rcnt, scnt, failed := 0, 0, false;
      new;
      for k := 0 to c.n
        invariant forall j :: 0 <= j < k ==> routs[j] == c.rxDepth && recvRoom[j] >= c.rxDepth
        invariant forall j :: 0 <= j < c.n ==> pending[j] == 0
        invariant rcnt == scnt == 0 && !failed
      {
        routs[k] := PostReceives(c.rxDepth, recvRoom[k]);
        if routs[k] < c.rxDepth {
          failed := true;
          return;
        }
      }
      for k := 0 to c.n
        invariant forall j :: 0 <= j < k ==> pending[j] == 1
        invariant forall j :: k <= j < c.n ==> pending[j] == 0
        invariant forall j :: 0 <= j < c.n ==> routs[j] == c.rxDepth
        invariant rcnt == scnt == 0 && !failed
      {
        pending[k] := RECV_BIT;
      }
      if side == Client {
        for k := 0 to c.n
          invariant forall j :: 0 <= j < k ==> pending[j] == 3 && sendRoom[j]
          invariant forall j :: k <= j < c.n ==> pending[j] == 1
          invariant forall j :: 0 <= j < c.n ==> routs[j] == c.rxDepth
          invariant rcnt == scnt == 0 && !failed
        {
          if !sendRoom[k] {
            failed := true;
            return;
          }
          pending[k] := pending[k] | SEND_BIT;
        }
      }
      assert Contents().qps == InitHost(c, side).qps;
    }

    // Take off one receive credit, and refill when at most one is left.
    method TakeCredit(k: nat, recvRoom: nat) returns (ok: bool)
      requires Valid() && k < c.n
      modifies routs
      ensures Valid() && pending[..] == old(pending[..])
      ensures var left := old(routs[k]) - 1;
              var full := if left <= 1 then left + PostedReceives(c.rxDepth - left, recvRoom) else left;
              && routs[..] == old(routs[..])[k := full]
              && ok == (left > 1 || full >= c.rxDepth)
    {
      routs[k] := routs[k] - 1;
      ok := true;
      if routs[k] <= 1 {
        var posted := PostReceives(c.rxDepth - routs[k], recvRoom);
        routs[k] := routs[k] + posted;
        ok := routs[k] >= c.rxDepth;
      }
    }

    // Clear the completed bit, and post the next send when both bits are clear and the
    // shared counter allows it.
    method ClearAndPost(k: nat, bit: bv8, w: Completion, ghost recvs: nat)
      requires Valid() && k < c.n && (bit == RECV_BIT || bit == SEND_BIT)
      modifies this`failed, pending
      ensures Valid()
      ensures var id := if bit == RECV_BIT then Recv else Send;
              Contents()
              == ClearAndSend(c, old(Contents()), Item(k, id, w.recvRoom, w.sendRoom), recvs).host
    {
      ghost var masks := pending[..];
      ClearBit(pending[k], bit, routs[k]);
      pending[k] := pending[k] & !bit;
      if scnt < c.iters && pending[k] == 0 {
        if w.sendRoom {
          pending[k] := RECV_BIT | SEND_BIT;
          assert Unpack(pending[k], routs[k]) == Local(true, true, routs[k]);
        } else {
          failed := true;
        }
      }
      LocalsUpdate(masks, routs[..], k, pending[k], routs[k]);
      assert pending[..] == masks[k := pending[k]];
      assert routs[..] == routs[..][k := routs[k]];
    }

    // `case PINGPONG_SEND_WRID`, and what follows the switch.
    method HandleSend(k: nat, w: Completion)
      requires Valid() && k < c.n
      modifies this`scnt, this`failed, pending
      ensures Valid()
      ensures Contents()
              == Handle(c, old(Contents()), Item(k, Send, w.recvRoom, w.sendRoom)).host
    {
      ghost var was := Contents();
      scnt := scnt + 1;
      assert Contents() == was.(scnt := scnt);
      ClearAndPost(k, SEND_BIT, w, 0);
    }

    // `case PINGPONG_RECV_WRID`, and what follows the switch.
    method HandleRecv(k: nat, w: Completion)
      requires Valid() && k < c.n
      modifies this`rcnt, this`failed, pending, routs
      ensures Valid()
      ensures Contents()
              == Handle(c, old(Contents()), Item(k, Recv, w.recvRoom, w.sendRoom)).host
    {
      ghost var was := Contents();
      ghost var left := routs[k] - 1;
      var ok := TakeCredit(k, w.recvRoom);
      LocalsUpdate(pending[..], old(routs[..]), k, pending[k], routs[k]);
      assert pending[..] == pending[..][k := pending[k]];
      assert Contents().qps == was.qps[k := was.qps[k].(routs := routs[k])];
      if !ok {
        failed := true;
        return;
      }
      rcnt := rcnt + 1;
      ClearAndPost(k, RECV_BIT, w, routs[k] - left);
    }

    /** One iteration of the loop over the polled completions. */
    method HandleCompletion(w: Completion)
      requires Valid() && !failed
      modifies this, pending, routs
      ensures Valid()
      ensures Contents() == HandleOne(c, qpNums, old(Contents()), w)
    {
      var k := FindQp(qpNums, w.qpNum);
      if k >= |qpNums| || !w.success {
        failed := true;
        return;
      }
      if w.wrId == SEND_WRID {
        HandleSend(k, w);
      } else if w.wrId == RECV_WRID {
        HandleRecv(k, w);
      } else {
        failed := true;
      }
    }

    method HandleBatch(batch: seq<Completion>)
      requires Valid() && !failed
      modifies this, pending, routs
      ensures Valid()
      ensures Contents() == HandleAll(c, qpNums, old(Contents()), batch)
    {
      ghost var was := Contents();
      var i := 0;
      while i < |batch|
        invariant Valid() && i <= |batch| && !failed
        invariant Contents() == HandleAll(c, qpNums, was, batch[..i])
      {
        assert batch[..i + 1][..i] == batch[..i];
        HandleCompletion(batch[i]);
        i := i + 1;
        if failed {
          BatchStops(c, qpNums, was, batch, i);
          return;
        }
      }
      assert batch[..i] == batch;
    }

    /**
     The completion loop, given what the polls return one after the other, failures
     included. It makes polls while it has not failed and a counter is short, and no more.
     */
    method RunPingPong(polls: seq<Answer>) returns (ghost made: nat)
      requires Valid() && !failed
      modifies this, pending, routs
      ensures Valid()
      ensures Contents() == Loop(c, qpNums, old(Contents()), polls)
      ensures made <= |polls| && Contents() == Loop(c, qpNums, old(Contents()), polls[..made])
      ensures forall q :: 0 <= q < made ==>
                var h := Loop(c, qpNums, old(Contents()), polls[..q]);
                !h.failed && (h.rcnt < c.iters || h.scnt < c.iters)
      ensures made < |polls| ==> failed || (rcnt >= c.iters && scnt >= c.iters)
    {
      ghost var was := Contents();
      var p := 0;
      while (rcnt < c.iters || scnt < c.iters) && p < |polls|
        invariant Valid() && p <= |polls| && !failed
        invariant Contents() == Loop(c, qpNums, was, polls[..p])
        invariant RanUpTo(c, qpNums, was, polls, p)
        decreases |polls| - p
      {
        ghost var start := p;
        var answer;
        answer, p := NextPoll(polls, p);
        NextRound(c, qpNums, was, polls, start, p);
        if answer.Found? {
          HandleBatch(answer.wcs);
        } else {
          failed := true;
        }
        if failed {
          break;
        }
      }
      made := p;
      if p == |polls| {
        assert polls[..p] == polls;
      } else {
        LoopStops(c, qpNums, was, polls, p);
      }
    }
  }
}
