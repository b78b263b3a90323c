/**
 The runs of the setup and the runs of the protocol are the same: with the posts the
 programs have still to make counted as made, what the adapters and the loops do from the
 first moment on is a run of the protocol from its initial state, although the server may
 receive and answer while the client is still posting.
 */
module SetupRuns {
  import opened Basics
  import opened BufferSplit
  import opened Protocol
  import I = Invariant
  import T = Theorems
  import opened Handshake

  // One QP with the receives and the opening send its program has still to post.
  function AheadPort(p: Params, side: Side, pc: Pc, q: Port, k: nat): Port {
    var kick := if side == Client && k >= Kicks(p, pc) then 1 else 0;
    q.(credits := if k < Stocked(p, pc) then q.credits else p.c.rxDepth,
       outgoing := q.outgoing + kick,
       sent := q.sent + kick)
  }

  function AheadEnd(p: Params, side: Side, pc: Pc, e: End): End
    requires |e.ports| == p.c.n
  {
    End(if pc == Looping then e.host else InitHost(p.c, side),
        seq(p.c.n, k requires 0 <= k < p.c.n => AheadPort(p, side, pc, e.ports[k], k)),
        e.cq, e.batch)
  }

  predicate Comparable(p: Params, s: Setup) {
    |s.net.client.ports| == |s.net.server.ports| == p.c.n
  }

  function Ahead(p: Params, s: Setup): State
    requires Comparable(p, s)
  {
    State(AheadEnd(p, Client, s.client.pc, s.net.client), AheadEnd(p, Server, s.server.pc, s.net.server))
  }

  // The steps of the adapters and the loops in a run of the setup.
  function Moves(steps: seq<SetupStep>): seq<Step> {
    if steps == [] then []
    else
      var last := |steps| - 1;
      Moves(steps[..last]) + if steps[last].Move? then [steps[last].step] else []
  }

  lemma SameEnd(a: End, b: End)
    requires a.host == b.host && a.cq == b.cq && a.batch == b.batch && |a.ports| == |b.ports|
    requires forall k :: 0 <= k < |a.ports| ==> a.ports[k] == b.ports[k]
    ensures a == b
  {
    assert a.ports == b.ports;
  }

  // In its loop an end is exactly what the protocol says.
  lemma AheadLooping(p: Params, side: Side, e: End)
    requires |e.ports| == p.c.n
    ensures AheadEnd(p, side, Looping, e) == e
  {
    SameEnd(AheadEnd(p, side, Looping, e), e);
  }

  // Posting the receives of a QP, and the opening send of one, changes nothing.
  lemma StockAhead(p: Params, side: Side, e: End, k: nat, next: Pc)
    requires |e.ports| == |e.host.qps| == p.c.n && k < p.c.n
    requires Stocked(p, next) == k + 1 && !next.Kick? && next != Looping
    ensures AheadEnd(p, side, next, Stock(p, e, k)) == AheadEnd(p, side, Fill(k), e)
  {
    SameEnd(AheadEnd(p, side, next, Stock(p, e, k)), AheadEnd(p, side, Fill(k), e));
  }

  lemma KickAhead(p: Params, e: End, k: nat)
    requires EndOk(p, Client, Kick(k), e, k) && k < p.c.n
    ensures var next := if k < p.c.n - 1 then Kick(k + 1) else Looping;
            AheadEnd(p, Client, next, KickOff(e, k)) == AheadEnd(p, Client, Kick(k), e)
  {
    KickOffOk(p, e, k);
    var next := if k < p.c.n - 1 then Kick(k + 1) else Looping;
    SameEnd(AheadEnd(p, Client, next, KickOff(e, k)), AheadEnd(p, Client, Kick(k), e));
  }

  // Nor does a move without a post.
  lemma QuietAhead(p: Params, side: Side, pc: Pc, e: End, next: Pc, e': End)
    requires |e.ports| == p.c.n && e' == e.(host := e'.host)
    requires Stocked(p, next) == Stocked(p, pc) && pc != Looping
    requires side == Client ==> Kicks(p, next) == Kicks(p, pc)
    requires next == Looping ==> e'.host == InitHost(p.c, side)
    ensures AheadEnd(p, side, next, e') == AheadEnd(p, side, pc, e)
  {
    SameEnd(AheadEnd(p, side, next, e'), AheadEnd(p, side, pc, e));
  }

  lemma ClientMovesAhead(p: Params, s: Setup)
    requires SetupInv(p, s) && Ready(p, s.client, s.net.client, s.s2c)
    ensures Comparable(p, ClientNext(p, s)) && Ahead(p, ClientNext(p, s)) == Ahead(p, s)
  {
    var e, pc, t := s.net.client, s.client.pc, ClientNext(p, s);
    if pc.Fill? {
      StockAhead(p, Client, e, pc.k, t.client.pc);
    } else if pc.Kick? {
      KickAhead(p, e, pc.k);
    } else {
      if pc.Hear? {
        ClientHears(p, s);
      }
      QuietAhead(p, Client, pc, e, t.client.pc, t.net.client);
    }
  }

  lemma ServerMovesAhead(p: Params, s: Setup)
    requires SetupInv(p, s) && Ready(p, s.server, s.net.server, s.c2s)
    ensures Comparable(p, ServerNext(p, s)) && Ahead(p, ServerNext(p, s)) == Ahead(p, s)
  {
    var e, pc, t := s.net.server, s.server.pc, ServerNext(p, s);
    if pc.Fill? {
      StockAhead(p, Server, e, pc.k, t.server.pc);
    } else {
      if pc.Hear? {
        ServerHears(p, s);
      } else if pc.AwaitDone? && pc.k == p.c.n - 1 {
        AwaitRecvsOk(p, Server, pc, e, Kicks(p, s.client.pc), Looping);
      }
      QuietAhead(p, Server, pc, e, t.server.pc, t.net.server);
    }
  }

  lemma DeliveredAhead(p: Params, side: Side, pc: Pc, e: End, k: nat)
    requires |e.ports| == p.c.n && k < p.c.n && e.ports[k].outgoing > 0
    ensures AheadEnd(p, side, pc, e).ports[k].outgoing > 0
    ensures AheadEnd(p, side, pc, Delivered(e, k)) == Delivered(AheadEnd(p, side, pc, e), k)
  {
    SameEnd(AheadEnd(p, side, pc, Delivered(e, k)), Delivered(AheadEnd(p, side, pc, e), k));
  }

  // A message arrives only where the receives are all posted.
  lemma ArrivedAhead(p: Params, side: Side, pc: Pc, e: End, k: nat)
    requires |e.ports| == p.c.n == Stocked(p, pc) && k < p.c.n && e.ports[k].credits > 0
    ensures AheadEnd(p, side, pc, e).ports[k].credits > 0
    ensures AheadEnd(p, side, pc, Arrived(e, k)) == Arrived(AheadEnd(p, side, pc, e), k)
  {
    SameEnd(AheadEnd(p, side, pc, Arrived(e, k)), Arrived(AheadEnd(p, side, pc, e), k));
  }

  lemma AcknowledgedAhead(p: Params, side: Side, pc: Pc, e: End, k: nat)
    requires |e.ports| == p.c.n && k < p.c.n && e.ports[k].unacked > 0
    ensures AheadEnd(p, side, pc, e).ports[k].unacked > 0
    ensures AheadEnd(p, side, pc, Acknowledged(e, k)) == Acknowledged(AheadEnd(p, side, pc, e), k)
  {
    SameEnd(AheadEnd(p, side, pc, Acknowledged(e, k)), Acknowledged(AheadEnd(p, side, pc, e), k));
  }

  lemma AheadShaped(p: Params, side: Side, pc: Pc, e: End)
    requires Shaped(p.c, e)
    ensures Shaped(p.c, AheadEnd(p, side, pc, e))
  {
  }

  lemma LoopMovesAhead(p: Params, s: Setup, move: Step)
    requires SetupInv(p, s) && SetupEnabled(p, s, Move(move)) && (move.Poll? || move.Process?)
    ensures Enabled(p.c, Ahead(p, s), move) && Comparable(p, SetupApply(p, s, Move(move)))
    ensures Ahead(p, SetupApply(p, s, Move(move))) == Apply(p.c, Ahead(p, s), move)
  {
    var t := SetupApply(p, s, Move(move));
    MoveOk(p, s, move);
    AheadShaped(p, Client, s.client.pc, s.net.client);
    AheadShaped(p, Server, s.server.pc, s.net.server);
    AheadLooping(p, move.side, s.net.At(move.side));
    AheadLooping(p, move.side, t.net.At(move.side));
  }

  lemma AdapterMovesAhead(p: Params, s: Setup, move: Step)
    requires SetupInv(p, s) && SetupEnabled(p, s, Move(move)) && (move.Deliver? || move.Ack?)
    ensures Enabled(p.c, Ahead(p, s), move) && Comparable(p, SetupApply(p, s, Move(move)))
    ensures Ahead(p, SetupApply(p, s, Move(move))) == Apply(p.c, Ahead(p, s), move)
  {
    MoveOk(p, s, move);
    AheadShaped(p, Client, s.client.pc, s.net.client);
    AheadShaped(p, Server, s.server.pc, s.net.server);
    match move
    case Deliver(from, k) =>
      var to := from.Peer();
      assert Handshake.QpOk(p, to, s.Of(to), k);
      DeliveredAhead(p, from, s.Of(from).pc, s.net.At(from), k);
      ArrivedAhead(p, to, s.Of(to).pc, s.net.At(to), k);
    case Ack(side, k) =>
      AcknowledgedAhead(p, side, s.Of(side).pc, s.net.At(side), k);
  }

  lemma StepAhead(p: Params, s: Setup, step: SetupStep)
    requires SetupInv(p, s) && SetupEnabled(p, s, step)
    ensures Comparable(p, SetupApply(p, s, step))
    ensures !step.Move? ==> Ahead(p, SetupApply(p, s, step)) == Ahead(p, s)
    ensures step.Move? ==>
              && Enabled(p.c, Ahead(p, s), step.step)
              && Ahead(p, SetupApply(p, s, step)) == Apply(p.c, Ahead(p, s), step.step)
  {
    match step
    case ClientMoves => ClientMovesAhead(p, s);
    case ServerMoves => ServerMovesAhead(p, s);
    case Move(move) =>
      if move.Deliver? || move.Ack? {
        AdapterMovesAhead(p, s, move);
      } else {
        LoopMovesAhead(p, s, move);
      }
  }

  lemma StartAhead(p: Params)
    ensures Comparable(p, Start(p)) && Ahead(p, Start(p)) == Init(p.c)
  {
    SameEnd(AheadEnd(p, Client, Fill(0), StartEnd(p)), InitEnd(p.c, Client));
    SameEnd(AheadEnd(p, Server, Fill(0), StartEnd(p)), InitEnd(p.c, Server));
  }

  /**
   At every moment of the setup, with the posts still to be made counted as made, the two
   ends, the wire and the queues are where a run of the protocol has brought them: the run
   of the adapters' and the loops' own steps so far.
   */
  lemma {:induction false} SetupFollowsProtocol(p: Params, steps: seq<SetupStep>)
    requires p.Valid() && SetupLegal(p, steps)
    ensures Comparable(p, SetupAfter(p, steps))
    ensures Legal(p.c, Moves(steps))
    ensures After(p.c, Moves(steps)) == Ahead(p, SetupAfter(p, steps))
  {
    if steps == [] {
      StartAhead(p);
    } else {
      var last := |steps| - 1;
      SetupFollowsProtocol(p, steps[..last]);
      SetupInvHolds(p, steps[..last]);
      StepAhead(p, SetupAfter(p, steps[..last]), steps[last]);
      if steps[last].Move? {
        Extend(p.c, Moves(steps[..last]), steps[last].step);
      } else {
        assert Moves(steps) == Moves(steps[..last]);
      }
    }
  }

  /**
   When both ends are in their loops, everything they hold is what the protocol's run
   holds, whatever has already been delivered, handled and answered.
   */
  lemma {:induction false} LoopsJoinProtocol(p: Params, steps: seq<SetupStep>)
    requires p.Valid() && SetupLegal(p, steps)
    requires SetupAfter(p, steps).client.pc == SetupAfter(p, steps).server.pc == Looping
    ensures Legal(p.c, Moves(steps))
    ensures SetupAfter(p, steps).net == After(p.c, Moves(steps))
  {
    SetupFollowsProtocol(p, steps);
    var s := SetupAfter(p, steps);
    AheadLooping(p, Client, s.net.client);
    AheadLooping(p, Server, s.net.server);
  }

  // Where the client has posted its opening send, or is about to, every QP is connected.
  lemma AllConnected(p: Params, s: Setup, k: nat)
    requires SetupInv(p, s) && k < p.c.n && (s.client.pc.Kick? || s.client.pc == Looping)
    ensures Receptive(p, s, Client, k) && Receptive(p, s, Server, k)
    ensures s.server.qps[k].state == Rts
    ensures Stocked(p, s.client.pc) == Stocked(p, s.server.pc) == p.c.n
  {
    assert ClientRead(p, s.client.pc) == p.c.n;
    assert Handshake.QpOk(p, Server, s.server, k) && Handshake.QpOk(p, Client, s.client, k);
  }

  /**
   No send is posted toward a QP that is not ready: when the client posts its opening send
   on QP `k`, QP `k` of the server is in RTS and connected to it, with exactly `rx_depth`
   receives posted, each of the length sent.
   */
  lemma OpeningSendsFindReceives(p: Params, steps: seq<SetupStep>, k: nat)
    requires p.Valid() && SetupLegal(p, steps) && SetupAfter(p, steps).client.pc == Kick(k)
    ensures var s := SetupAfter(p, steps);
            && k < p.c.n == |s.client.qps| == |s.server.qps| == |s.net.server.ports|
            && s.client.qps[k].state == s.server.qps[k].state == Rts
            && s.client.qps[k].dest == Some(p.serverAddr[k])
            && s.server.qps[k].dest == Some(p.clientAddr[k])
            && s.server.qps[k].recvLen == Share(p.size, p.c.n, k)
            && s.net.server.ports[k].credits == p.c.rxDepth
  {
    SetupInvHolds(p, steps);
    AllConnected(p, SetupAfter(p, steps), k);
  }

  // A message is under way only between connected QPs.
  lemma TravelsConnected(p: Params, s: Setup, from: Side, k: nat)
    requires SetupInv(p, s) && k < p.c.n && s.net.At(from).ports[k].outgoing > 0
    ensures s.client.pc.Kick? || s.client.pc == Looping
    ensures Receptive(p, s, from, k)
  {
    assert Kicks(p, s.client.pc) > k;
    AllConnected(p, s, k);
  }

  // Past the fills the posts counted as made are made.
  lemma CreditsAreAhead(p: Params, s: Setup, side: Side, k: nat)
    requires SetupInv(p, s) && k < p.c.n && Stocked(p, s.Of(side).pc) == p.c.n
    ensures var e, ahead := s.net.At(side), Ahead(p, s).At(side);
            && ahead.ports[k].credits == e.ports[k].credits
            && ahead.host.qps[k].routs == e.host.qps[k].routs
            && I.Unhandled(ahead, k, Recv) == I.Unhandled(e, k, Recv)
  {
  }

  lemma {:induction false} CreditsMatch(p: Params, steps: seq<SetupStep>, from: Side, k: nat)
    requires p.Valid() && SetupLegal(p, steps) && k < p.c.n
    requires var client := SetupAfter(p, steps).client.pc; client.Kick? || client == Looping
    ensures var s := SetupAfter(p, steps);
            var me, to := s.net.At(from), s.net.At(from.Peer());
            && Shaped(p.c, me)
            && Shaped(p.c, to)
            && to.ports[k].credits == to.host.qps[k].routs - I.Unhandled(to, k, Recv)
            && (me.ports[k].outgoing > 0 ==> to.ports[k].credits > 0)
  {
    SetupInvHolds(p, steps);
    SetupFollowsProtocol(p, steps);
    AllConnected(p, SetupAfter(p, steps), k);
    T.CreditsSuffice(p.c, Moves(steps), from, k);
    CreditsAreAhead(p, SetupAfter(p, steps), from.Peer(), k);
  }

  /**
   From the first opening send on, also while the client is still posting, every message
   under way can be delivered at once: its QPs are connected to each other and a receive of
   its length is posted. The receives posted on a QP are `rx_depth` at first, and always
   its program's credits less the arrivals it has not handled.
   */
  lemma {:induction false} MessagesFindReceives(p: Params, steps: seq<SetupStep>, from: Side, k: nat)
    requires p.Valid() && SetupLegal(p, steps) && k < p.c.n
    ensures var s := SetupAfter(p, steps);
            && Shaped(p.c, s.net.client)
            && Shaped(p.c, s.net.server)
            && |s.Of(from).qps| == |s.Of(from.Peer()).qps| == p.c.n
            && (s.net.At(from).ports[k].outgoing > 0 ==>
                  && SetupEnabled(p, s, Move(Deliver(from, k)))
                  && s.Of(from).qps[k].state == Rts
                  && s.Of(from.Peer()).qps[k].state != InitState
                  && s.Of(from).qps[k].dest == Some(p.Addr(from.Peer())[k])
                  && s.Of(from.Peer()).qps[k].dest == Some(p.Addr(from)[k])
                  && s.Of(from.Peer()).qps[k].recvLen == Share(p.size, p.c.n, k)
                  && s.net.At(from.Peer()).ports[k].credits > 0)
            && (s.client.pc.Kick? || s.client.pc == Looping ==>
                  var to := s.net.At(from.Peer());
                  to.ports[k].credits == to.host.qps[k].routs - I.Unhandled(to, k, Recv))
  {
    SetupInvHolds(p, steps);
    var s := SetupAfter(p, steps);
    if s.client.pc.Kick? || s.client.pc == Looping {
      CreditsMatch(p, steps, from, k);
    }
    if s.net.At(from).ports[k].outgoing > 0 {
      TravelsConnected(p, s, from, k);
    }
  }
}
