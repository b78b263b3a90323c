/**
 The handshake with TCP's own reads. For the client's "done" of 5 bytes the server asks for
 the 52 of an address line, so when the line of the next QP has arrived too, the read takes
 its first 47 bytes with it. The read for that line then finds the other 5 and fails.
 */
module HandshakeReads {
  import opened Protocol
  import opened Handshake

  datatype ReadStep = Whole(step: SetupStep) | Gulp

  predicate ReadEnabled(p: Params, s: Setup, step: ReadStep) {
    match step
    case Whole(move) => SetupEnabled(p, s, move)
    case Gulp =>
      Ready(p, s.server, s.net.server, s.c2s) && s.server.pc.AwaitDone? && |s.c2s| >= 2
  }

  // The server goes on as if it had read the one note; the next has lost its beginning.
  function Gulped(p: Params, s: Setup): Setup
    requires ReadEnabled(p, s, Gulp)
  {
    var t := ServerNext(p, s);
    t.(c2s := t.c2s[0 := Scrap])
  }

  function ReadApply(p: Params, s: Setup, step: ReadStep): Setup
    requires ReadEnabled(p, s, step)
  {
    match step
    case Whole(move) => SetupApply(p, s, move)
    case Gulp => Gulped(p, s)
  }

  ghost predicate ReadLegal(p: Params, steps: seq<ReadStep>)
    decreases |steps|, 0
  {
    steps == [] ||
    (var last := |steps| - 1;
     && ReadLegal(p, steps[..last])
     && ReadEnabled(p, ReadAfter(p, steps[..last]), steps[last]))
  }

  ghost function ReadAfter(p: Params, steps: seq<ReadStep>): Setup
    requires ReadLegal(p, steps)
    decreases |steps|, 1
  {
    if steps == [] then Start(p)
    else
      var last := |steps| - 1;
      ReadApply(p, ReadAfter(p, steps[..last]), steps[last])
  }

  lemma ReadExtend(p: Params, steps: seq<ReadStep>, step: ReadStep)
    requires ReadLegal(p, steps) && ReadEnabled(p, ReadAfter(p, steps), step)
    ensures ReadLegal(p, steps + [step])
    ensures ReadAfter(p, steps + [step]) == ReadApply(p, ReadAfter(p, steps), step)
  {
    assert (steps + [step])[..|steps|] == steps;
  }

  predicate GivesUp(s: Setup) {
    s.client.pc.Failed? || s.server.pc.Failed?
  }

  ghost predicate NeverGivesUp(p: Params) {
    forall steps :: ReadLegal(p, steps) ==> !GivesUp(ReadAfter(p, steps))
  }

  // With one QP no line follows the "done".
  lemma {:induction false} SingleNeverGulps(p: Params, steps: seq<ReadStep>)
    requires p.Valid() && p.c.n == 1 && ReadLegal(p, steps)
    ensures SetupInv(p, ReadAfter(p, steps))
  {
    if steps == [] {
      var none: seq<SetupStep> := [];
      SetupInvHolds(p, none);
    } else {
      var last := |steps| - 1;
      SingleNeverGulps(p, steps[..last]);
      var s := ReadAfter(p, steps[..last]);
      NoLineFollows(p, s);
      match steps[last]
      case Whole(move) => SetupStepOk(p, s, move);
    }
  }

  lemma NoLineFollows(p: Params, s: Setup)
    requires SetupInv(p, s) && p.c.n == 1
    ensures !ReadEnabled(p, s, Gulp)
  {
  }

  // The server has not read the first "done" yet.
  predicate BeforeDone(server: Pc) {
    || server.Fill?
    || (!server.Looping? && !server.Failed? && server.k == 0)
  }

  // The server is at the "done" of the first QP, and the line of the second follows it.
  predicate CanGulp(s: Setup) {
    s.server.pc == AwaitDone(0) && |s.c2s| >= 2
  }

  // Unless it can be gulped, one end can move and the server stays before it.
  lemma BeforeDoneMoves(p: Params, s: Setup) returns (step: SetupStep)
    requires SetupInv(p, s) && p.c.n >= 2 && BeforeDone(s.server.pc) && !CanGulp(s)
    ensures step == ClientMoves || step == ServerMoves
    ensures SetupEnabled(p, s, step) && BeforeDone(SetupApply(p, s, step).server.pc)
  {
    if Ready(p, s.client, s.net.client, s.s2c) {
      step := ClientMoves;
      ClientWireOk(p, s);
    } else {
      step := ServerMoves;
      ServerMovesOn(p, s);
    }
  }

  lemma ServerMovesOn(p: Params, s: Setup)
    requires SetupInv(p, s) && p.c.n >= 2 && BeforeDone(s.server.pc) && !CanGulp(s)
    requires !Ready(p, s.client, s.net.client, s.s2c)
    ensures Ready(p, s.server, s.net.server, s.c2s) && BeforeDone(ServerNext(p, s).server.pc)
  {
    if s.server.pc.Hear? {
      if Ready(p, s.server, s.net.server, s.c2s) {
        ServerHears(p, s);
      }
    }
  }

  // Moves left in the handshake.
  function MovesLeft(p: Params, s: Setup): int {
    13 * p.c.n - ClientMovesTo(p, s.client.pc) - ServerMovesTo(p, s.server.pc)
  }

  lemma {:induction false} RunToGulp(p: Params, steps: seq<ReadStep>, bound: nat) returns (all: seq<ReadStep>)
    requires p.Valid() && p.c.n >= 2 && ReadLegal(p, steps)
    requires var s := ReadAfter(p, steps);
             SetupInv(p, s) && BeforeDone(s.server.pc) && MovesLeft(p, s) <= bound
    ensures ReadLegal(p, all) && SetupInv(p, ReadAfter(p, all)) && CanGulp(ReadAfter(p, all))
    decreases bound
  {
    var s := ReadAfter(p, steps);
    if CanGulp(s) {
      all := steps;
    } else {
      var step := BeforeDoneMoves(p, s);
      ReadExtend(p, steps, Whole(step));
      SetupStepOk(p, s, step);
      StepCounts(p, s, step);
      MovesBound(p, SetupApply(p, s, step));
      all := RunToGulp(p, steps + [Whole(step)], bound - 1);
    }
  }

  /** With more than one QP some run makes the server give up. */
  lemma GulpGivesUp(p: Params) returns (steps: seq<ReadStep>)
    requires p.Valid() && p.c.n >= 2
    ensures ReadLegal(p, steps) && ReadAfter(p, steps).server.pc.Failed?
  {
    var none: seq<SetupStep> := [];
    SetupInvHolds(p, none);
    MovesBound(p, Start(p));
    var before := RunToGulp(p, [], MovesLeft(p, Start(p)));
    ReadExtend(p, before, Gulp);
    var after := before + [Gulp];
    var t := ReadAfter(p, after);
    assert t.server.pc == Hear(1) && t.c2s[0] == Scrap;
    ReadExtend(p, after, Whole(ServerMoves));
    steps := after + [Whole(ServerMoves)];
  }

  /** No run of the handshake makes an end give up if and only if there is one QP. */
  lemma NeverGivesUpExactly(p: Params)
    requires p.Valid()
    ensures NeverGivesUp(p) <==> p.c.n == 1
  {
    if p.c.n == 1 {
      forall steps | ReadLegal(p, steps)
        ensures !GivesUp(ReadAfter(p, steps))
      {
        SingleNeverGulps(p, steps);
      }
    } else {
      var steps := GulpGivesUp(p);
      assert GivesUp(ReadAfter(p, steps));
    }
  }
}
