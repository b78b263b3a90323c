/**
 What every run of the ping-pong protocol guarantees.
 */
module Theorems {
  import opened Protocol
  import opened Invariant

  // The invariant as seen from either end.
  lemma PairHolds(c: Config, steps: seq<Step>, side: Side)
    requires Legal(c, steps)
    ensures var s := After(c, steps);
            PairOk(c, s.At(side), s.At(side.Peer()), Behind(side))
  {
    InvHolds(c, steps);
    var s := After(c, steps);
    if side == Server {
      Flip(c, s.client, s.server, 0);
    }
  }

  /**
   Neither program ever gives up over a post: every one finds a free queue slot. Like
   all results here this is about runs on which no completion queue is overrun, which are
   all runs exactly when `2 * n <= rx_depth + 1` (`CqOverrun.NoRunFailsExactly`).
   */
  lemma NeverFails(c: Config, steps: seq<Step>, side: Side)
    requires Legal(c, steps)
    ensures !After(c, steps).At(side).host.failed
  {
    PairHolds(c, steps, side);
  }

  /**
   Strict alternation on each QP: the client has sent as often as the server or once
   more, and at most one message is undelivered or unhandled in both directions together.
   */
  lemma {:induction false} Alternation(c: Config, steps: seq<Step>, k: nat)
    requires Legal(c, steps) && k < c.n
    ensures var s := After(c, steps);
            && Shaped(c, s.client)
            && Shaped(c, s.server)
            && 0 <= s.client.ports[k].sent - s.server.ports[k].sent <= 1
            && s.client.ports[k].outgoing + Unhandled(s.server, k, Recv)
               + s.server.ports[k].outgoing + Unhandled(s.client, k, Recv) <= 1
  {
    InvHolds(c, steps);
    var s := After(c, steps);
    assert LinkOk(c, s.client, s.server, 0, k);
  }

  // At most one completion of each kind waits per QP, and only while its bit is set.
  lemma OneOfEach(c: Config, me: End, peer: End, behind: nat, k: nat, id: WrId)
    requires PairOk(c, me, peer, behind) && k < c.n
    ensures Unhandled(me, k, id) <= 1
    ensures Unhandled(me, k, id) == 1 ==>
              if id == Recv then me.host.qps[k].recvBit else me.host.qps[k].sendBit
  {
    assert LinkOk(c, me, peer, behind, k);
    match id
    case Recv =>
    case Send =>
  }

  /** A completion is never handled while its bit of the mask is already clear. */
  lemma BitIsSetWhenHandled(c: Config, steps: seq<Step>, side: Side)
    requires Legal(c, steps) && Enabled(c, After(c, steps), Process(side))
    ensures var e := After(c, steps).At(side);
            var w := e.batch[0];
            && w.qp < |e.host.qps|
            && if w.id == Recv then e.host.qps[w.qp].recvBit else e.host.qps[w.qp].sendBit
  {
    PairHolds(c, steps, side);
    var s := After(c, steps);
    var e := s.At(side);
    ProcessShaped(c, e);
    assert e.batch[0] in multiset(e.batch);
    OneOfEach(c, e, s.At(side.Peer()), Behind(side), e.batch[0].qp, e.batch[0].id);
  }

  /**
   Receive credits always suffice, for every `rx_depth`: an undelivered message finds a
   posted receive, the program's count is exactly the receives it has outstanding, and
   that is never more than the receive queue holds.
   */
  lemma {:induction false} CreditsSuffice(c: Config, steps: seq<Step>, from: Side, k: nat)
    requires Legal(c, steps) && k < c.n
    ensures var s := After(c, steps);
            var to := s.At(from.Peer());
            && Shaped(c, s.client)
            && Shaped(c, s.server)
            && (s.At(from).ports[k].outgoing > 0 ==> Enabled(c, s, Deliver(from, k)))
            && to.host.qps[k].routs == to.ports[k].credits + Unhandled(to, k, Recv)
            && 1 <= to.host.qps[k].routs <= c.rxDepth
  {
    PairHolds(c, steps, from);
    var s := After(c, steps);
    assert LinkOk(c, s.At(from), s.At(from.Peer()), Behind(from), k);
  }

  /**
   The queues a QP is created with, one slot for a send and `rx_depth` for receives, hold
   what is posted or completed and not yet polled. A post is accepted exactly when a slot
   is left, and the limits are never passed.
   */
  lemma {:induction false} QueueSlots(c: Config, steps: seq<Step>, side: Side, k: nat, id: WrId)
    requires Legal(c, steps) && k < c.n
    ensures var e := After(c, steps).At(side);
            && Shaped(c, e)
            && var sends := e.ports[k].outgoing + e.ports[k].unacked + multiset(e.cq)[Wc(k, Send)];
               var recvs := e.ports[k].credits + multiset(e.cq)[Wc(k, Recv)];
               && sends <= 1
               && recvs <= c.rxDepth
               && ItemOf(c, e, Wc(k, id)) == Item(k, id, c.rxDepth - recvs, sends == 0)
  {
    PairHolds(c, steps, side);
    var s := After(c, steps);
    assert LinkOk(c, s.At(side), s.At(side.Peer()), Behind(side), k);
  }

  /** A refill always brings the credits of its QP back to exactly `rx_depth`. */
  lemma RefillIsComplete(c: Config, steps: seq<Step>, side: Side)
    requires Legal(c, steps + [Process(side)]) && Legal(c, steps)
    ensures var e, e' := After(c, steps).At(side), After(c, steps + [Process(side)]).At(side);
            && e.batch != []
            && e.batch[0].qp < |e.host.qps| == |e'.host.qps|
            && var k := e.batch[0].qp;
               && (e.batch[0].id == Send ==> e'.host.qps[k].routs == e.host.qps[k].routs)
               && (e.batch[0].id == Recv ==>
                     e'.host.qps[k].routs
                     == if e.host.qps[k].routs <= 2 then c.rxDepth else e.host.qps[k].routs - 1)
  {
    assert (steps + [Process(side)])[..|steps|] == steps;
    PairHolds(c, steps, side);
    var s := After(c, steps);
    ProcessShaped(c, s.At(side));
    assert LinkOk(c, s.At(side), s.At(side.Peer()), Behind(side), s.At(side).batch[0].qp);
    ProcessSucceeds(c, s.At(side), s.At(side.Peer()));
  }

  // Every completion the first `n` QPs can have.
  ghost function Completions(n: nat): set<Wc> {
    if n == 0 then {}
    else Completions(n - 1) + {Wc(n - 1, Recv)} + {Wc(n - 1, Send)}
  }

  lemma {:induction false} InCompletions(n: nat, w: Wc)
    ensures w in Completions(n) <==> w.qp < n
  {
    if n != 0 {
      InCompletions(n - 1, w);
      match w.id
      case Recv =>
      case Send =>
    }
  }

  lemma SizeWithTwoMore(ws: set<Wc>, a: Wc, b: Wc)
    requires a !in ws && b !in ws && a != b
    ensures |ws + {a} + {b}| == |ws| + 2
  {
    assert |ws + {a}| == |ws| + 1;
  }

  lemma {:induction false} CompletionsSize(n: nat)
    ensures |Completions(n)| == 2 * n
  {
    if n != 0 {
      var a, b := Wc(n - 1, Recv), Wc(n - 1, Send);
      CompletionsSize(n - 1);
      InCompletions(n - 1, a);
      InCompletions(n - 1, b);
      SizeWithTwoMore(Completions(n - 1), a, b);
    }
  }

  lemma {:induction false} DistinctBound(ws: seq<Wc>, all: set<Wc>)
    requires forall w :: w in ws ==> w in all
    requires forall w :: w in ws ==> multiset(ws)[w] == 1
    ensures |ws| <= |all|
  {
    if ws != [] {
      var rest := ws[1..];
      assert ws == [ws[0]] + rest;
      forall w | w in rest
        ensures multiset(rest)[w] == 1 && w in all - {ws[0]}
      {
        assert w in ws;
        assert multiset(ws) == multiset{ws[0]} + multiset(rest);
        assert multiset(rest)[w] >= 1;
      }
      DistinctBound(rest, all - {ws[0]});
    }
  }

  lemma WaitingBound(c: Config, me: End, peer: End, behind: nat)
    requires PairOk(c, me, peer, behind)
    ensures |me.cq| + |me.batch| <= 2 * c.n
  {
    var ws := me.cq + me.batch;
    assert multiset(ws) == multiset(me.cq) + multiset(me.batch);
    forall w | w in ws
      ensures w in Completions(c.n) && multiset(ws)[w] == 1
    {
      assert w.qp < c.n;
      OneOfEach(c, me, peer, behind, w.qp, w.id);
      InCompletions(c.n, w);
      assert w in multiset(ws);
      assert multiset(ws)[w] == Unhandled(me, w.qp, w.id);
    }
    CompletionsSize(c.n);
    DistinctBound(ws, Completions(c.n));
  }

  /**
   At most one SEND and one RECV completion per QP wait at an end, so together they
   fit the poll array of two entries per QP.
   */
  lemma CompletionBound(c: Config, steps: seq<Step>, side: Side)
    requires Legal(c, steps)
    ensures var e := After(c, steps).At(side);
            && |e.cq| + |e.batch| <= 2 * c.n
            && forall k, id :: 0 <= k < c.n ==> Unhandled(e, k, id) <= 1
  {
    PairHolds(c, steps, side);
    var s := After(c, steps);
    var a, b := s.At(side), s.At(side.Peer());
    WaitingBound(c, a, b, Behind(side));
    forall k, id | 0 <= k < c.n
      ensures Unhandled(a, k, id) <= 1
    {
      OneOfEach(c, a, b, Behind(side), k, id);
    }
  }

  /**
   Nothing holds a step up on a run: a message can be delivered whenever it is on the wire,
   a send acknowledged whenever it is delivered, a completion handled whenever one has been
   polled, and any number of those waiting polled whenever the loop is at its test and goes
   on. Credits, errors and the size of the poll array never stand in the way.
   */
  lemma {:induction false} StepsAreFree(c: Config, steps: seq<Step>, side: Side, k: nat, count: nat)
    requires Legal(c, steps) && k < c.n
    ensures var s := After(c, steps);
            var e := s.At(side);
            && k < |e.ports|
            && (Enabled(c, s, Deliver(side, k)) <==> e.ports[k].outgoing > 0)
            && (Enabled(c, s, Ack(side, k)) <==> e.ports[k].unacked > 0)
            && (Enabled(c, s, Process(side)) <==> e.batch != [])
            && (Enabled(c, s, Poll(side, count)) <==>
                  && (e.host.rcnt < c.iters || e.host.scnt < c.iters)
                  && e.batch == []
                  && 1 <= count <= |e.cq|)
  {
    InvHolds(c, steps);
    NeverFails(c, steps, side);
    CreditsSuffice(c, steps, side, k);
    CompletionBound(c, steps, side);
  }

  // Number of QPs whose SEND bit is set.
  function SendBits(qps: seq<Local>): nat {
    if qps == [] then 0 else Bit(qps[0].sendBit) + SendBits(qps[1..])
  }

  lemma {:induction false} SentIsAckedPlusBits(ports: seq<Port>, qps: seq<Local>)
    requires |ports| == |qps|
    requires forall k :: 0 <= k < |ports| ==> ports[k].sent == ports[k].acked + Bit(qps[k].sendBit)
    ensures Sum(ports, Sent) == Sum(ports, Acked) + SendBits(qps)
  {
    if ports != [] {
      assert ports[0].sent == ports[0].acked + Bit(qps[0].sendBit);
      SentIsAckedPlusBits(ports[1..], qps[1..]);
    }
  }

  // Handled receives never exceed the peer's sends, QP by QP and so in total.
  lemma ReceivedAtMostSent(c: Config, me: End, peer: End, behind: nat)
    requires PairOk(c, me, peer, behind)
    ensures Sum(me.ports, Got) <= Sum(peer.ports, Sent)
  {
    forall k | 0 <= k < c.n
      ensures me.ports[k].got <= peer.ports[k].sent
    {
      assert LinkOk(c, me, peer, behind, k);
    }
    SumMonotone(me.ports, Got, peer.ports, Sent);
  }

  /**
   The counters shared by all QPs overshoot by less than the number of QPs: the sends
   posted are `scnt` plus the QPs with the SEND bit set, never more than
   `iters + n - 1`, so an end that has left its loop has both counters in
   `[iters, iters + n - 1]`.
   */
  lemma {:induction false} BoundedOvershoot(c: Config, steps: seq<Step>, side: Side)
    requires Legal(c, steps)
    ensures var e := After(c, steps).At(side);
            && Sum(e.ports, Sent) == e.host.scnt + SendBits(e.host.qps) <= c.iters + c.n - 1
            && 0 <= e.host.rcnt <= c.iters + c.n - 1
            && (Done(c, e.host) ==>
                  && c.iters <= e.host.scnt <= c.iters + c.n - 1
                  && c.iters <= e.host.rcnt <= c.iters + c.n - 1)
  {
    PairHolds(c, steps, side);
    var s := After(c, steps);
    var a, b := s.At(side), s.At(side.Peer());
    forall k | 0 <= k < c.n
      ensures a.ports[k].sent == a.ports[k].acked + Bit(a.host.qps[k].sendBit)
    {
      assert LinkOk(c, a, b, Behind(side), k);
    }
    SentIsAckedPlusBits(a.ports, a.host.qps);
    ReceivedAtMostSent(c, a, b, Behind(side));
  }

  /** With one QP the loop makes exactly `iters` exchanges, whatever the interleaving. */
  lemma SingleQpExact(c: Config, steps: seq<Step>, side: Side)
    requires Legal(c, steps) && c.n == 1
    ensures var e := After(c, steps).At(side);
            && (Done(c, e.host) ==> e.host.scnt == c.iters && e.host.rcnt == c.iters)
            && e.host.scnt <= c.iters
            && e.host.rcnt <= c.iters
  {
    BoundedOvershoot(c, steps, side);
  }

  // Nothing can happen any more.
  ghost predicate Stuck(c: Config, s: State) {
    forall step :: !Enabled(c, s, step)
  }

  // What a stuck state looks like at one end.
  lemma StuckEnd(c: Config, steps: seq<Step>, side: Side)
    requires Legal(c, steps) && Stuck(c, After(c, steps))
    ensures var e := After(c, steps).At(side);
            && Shaped(c, e)
            && e.batch == []
            && (e.cq == [] || Done(c, e.host))
            && forall k :: 0 <= k < c.n ==> e.ports[k].outgoing == 0 && e.ports[k].unacked == 0
  {
    PairHolds(c, steps, side);
    InvHolds(c, steps);
    var s := After(c, steps);
    var e := s.At(side);
    assert !Enabled(c, s, Process(side));
    assert !Enabled(c, s, Poll(side, 1));
    forall k | 0 <= k < c.n
      ensures e.ports[k].outgoing == 0 && e.ports[k].unacked == 0
    {
      CreditsSuffice(c, steps, side, k);
      assert !Enabled(c, s, Deliver(side, k));
      assert !Enabled(c, s, Ack(side, k));
    }
  }

  // An end that has handled everything while the wire is quiet has received all its
  // peer's sends, and all its own are accounted for.
  lemma DrainedEnd(c: Config, me: End, peer: End, behind: nat)
    requires PairOk(c, me, peer, behind)
    requires me.cq == [] && me.batch == []
    requires forall k :: 0 <= k < c.n ==> me.ports[k].outgoing == 0 && me.ports[k].unacked == 0
    requires forall k :: 0 <= k < c.n ==> peer.ports[k].outgoing == 0 && peer.ports[k].unacked == 0
    ensures me.host.rcnt == Sum(peer.ports, Sent)
    ensures me.host.scnt == Sum(me.ports, Sent)
    ensures forall k :: 0 <= k < c.n ==> !me.host.qps[k].sendBit
  {
    forall k | 0 <= k < c.n
      ensures me.ports[k].got == peer.ports[k].sent
      ensures me.ports[k].acked == me.ports[k].sent && !me.host.qps[k].sendBit
    {
      assert LinkOk(c, me, peer, behind, k);
    }
    SumMonotone(me.ports, Got, peer.ports, Sent);
    SumMonotone(peer.ports, Sent, me.ports, Got);
    SumMonotone(me.ports, Acked, me.ports, Sent);
    SumMonotone(me.ports, Sent, me.ports, Acked);
  }

  // If one end has left its loop, its sends alone carry the other over the line.
  lemma StuckAfterPeerLeft(c: Config, me: End, peer: End, behind: nat)
    requires behind <= 1 && PairOk(c, me, peer, behind)
    requires me.cq == [] && me.batch == []
    requires forall k :: 0 <= k < c.n ==> me.ports[k].outgoing == 0 && me.ports[k].unacked == 0
    requires forall k :: 0 <= k < c.n ==> peer.ports[k].outgoing == 0 && peer.ports[k].unacked == 0
    requires Done(c, peer.host)
    ensures Done(c, me.host)
  {
    DrainedEnd(c, me, peer, behind);
    Flip(c, me, peer, behind);
    ReceivedAtMostSent(c, peer, me, 1 - behind);
    forall k | 0 <= k < c.n
      ensures peer.ports[k].acked <= peer.ports[k].sent
    {
      assert LinkOk(c, me, peer, behind, k);
    }
    SumMonotone(peer.ports, Acked, peer.ports, Sent);
  }

  // With both ends drained an end has handled `iters` sends: if it were short it would hold
  // no turn, so its peer would have enough and yet not have sent more than it has.
  lemma DrainedHasSent(c: Config, a: End, b: End, behind: nat)
    requires behind <= 1 && PairOk(c, a, b, behind)
    requires a.cq == [] && a.batch == [] && b.cq == [] && b.batch == []
    requires forall k :: 0 <= k < c.n ==> a.ports[k].outgoing == 0 && a.ports[k].unacked == 0
    requires forall k :: 0 <= k < c.n ==> b.ports[k].outgoing == 0 && b.ports[k].unacked == 0
    ensures a.host.scnt >= c.iters
  {
    DrainedEnd(c, a, b, behind);
    Flip(c, a, b, behind);
    DrainedEnd(c, b, a, 1 - behind);
    if a.host.scnt < c.iters {
      forall k | 0 <= k < c.n
        ensures b.ports[k].sent <= a.ports[k].sent && b.host.scnt >= c.iters
      {
        assert LinkOk(c, a, b, behind, k);
      }
      assert b.host.scnt >= c.iters by { assert LinkOk(c, a, b, behind, 0); }
      SumMonotone(b.ports, Sent, a.ports, Sent);
    }
  }

  /**
   No stuck state: when nothing can happen any more and no completion queue was overrun,
   both ends have made their exchanges, also when one of them left its loop earlier.
   */
  lemma NoStuckState(c: Config, steps: seq<Step>)
    requires Legal(c, steps) && Stuck(c, After(c, steps))
    ensures Done(c, After(c, steps).client.host)
    ensures Done(c, After(c, steps).server.host)
  {
    var s := After(c, steps);
    PairHolds(c, steps, Client);
    PairHolds(c, steps, Server);
    StuckEnd(c, steps, Client);
    StuckEnd(c, steps, Server);
    if Done(c, s.client.host) {
      if !Done(c, s.server.host) {
        StuckAfterPeerLeft(c, s.server, s.client, 1);
      }
    } else if Done(c, s.server.host) {
      StuckAfterPeerLeft(c, s.client, s.server, 0);
    } else {
      DrainedEnd(c, s.client, s.server, 0);
      DrainedEnd(c, s.server, s.client, 1);
      DrainedHasSent(c, s.client, s.server, 0);
      DrainedHasSent(c, s.server, s.client, 1);
    }
  }

  /**
   An end that leaves its loop strands nobody, although its QPs go with it: when its last
   messages have arrived, and its peer has nothing more to handle and no acknowledgement to
   come, the peer has made its exchanges too. The messages still under way to the end that
   left, and what completes there, are not needed.
   */
  lemma LeavingStrandsNobody(c: Config, steps: seq<Step>, gone: Side)
    requires Legal(c, steps) && Done(c, After(c, steps).At(gone).host)
    requires forall k: nat :: !Enabled(c, After(c, steps), Deliver(gone, k))
    requires forall k: nat :: !Enabled(c, After(c, steps), Ack(gone.Peer(), k))
    requires forall count: nat :: !Enabled(c, After(c, steps), Poll(gone.Peer(), count))
    requires !Enabled(c, After(c, steps), Process(gone.Peer()))
    ensures var h := After(c, steps).At(gone.Peer()).host;
            h.scnt >= c.iters && h.rcnt >= c.iters
  {
    var s, rest := After(c, steps), gone.Peer();
    var a, b := s.At(gone), s.At(rest);
    InvHolds(c, steps);
    PairHolds(c, steps, gone);
    assert !Enabled(c, s, Process(rest)) && !Enabled(c, s, Poll(rest, 1));
    if !Done(c, b.host) {
      forall k | 0 <= k < c.n
        ensures a.ports[k].acked <= b.ports[k].got && a.ports[k].got <= b.ports[k].acked
      {
        CreditsSuffice(c, steps, gone, k);
        assert !Enabled(c, s, Deliver(gone, k)) && !Enabled(c, s, Ack(rest, k));
        assert LinkOk(c, a, b, Behind(gone), k);
      }
      SumMonotone(a.ports, Acked, b.ports, Got);
      SumMonotone(a.ports, Got, b.ports, Acked);
    }
  }
}
