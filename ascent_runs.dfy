/** Sequences of ticks: the modes the machine passes through when DriveAscent
    is called once per snapshot, and what the transition rules imply about
    whole ascents. */
module AscentRuns {
  import opened AscentModel

  /** The mode before the first tick, followed by the mode after each tick. */
  function Trace(m: AscentMode, snaps: seq<Snapshot>): (ms: seq<AscentMode>)
    ensures |ms| == |snaps| + 1
    ensures ms[0] == m
    decreases |snaps|
  {
    if snaps == [] then [m]
    else [m] + Trace(Step(m, snaps[0]).next, snaps[1..])
  }

  /** Tick i of the trace is one Step from the mode before it. */
  lemma {:induction false} TraceStep(m: AscentMode, snaps: seq<Snapshot>, i: nat)
    requires i < |snaps|
    ensures Trace(m, snaps)[i + 1] == Step(Trace(m, snaps)[i], snaps[i]).next
    decreases i
  {
    if i > 0 {
      var n := Step(m, snaps[0]).next;
      TraceStep(n, snaps[1..], i - 1);
      assert Trace(m, snaps)[i + 1] == Trace(n, snaps[1..])[i];
      assert Trace(m, snaps)[i] == Trace(n, snaps[1..])[i - 1];
    }
  }

  /** Every tick of every ascent follows an edge of the transition graph. */
  lemma TraceFollowsGraph(m: AscentMode, snaps: seq<Snapshot>)
    ensures forall i :: 0 <= i < |snaps| ==> CanStep(Trace(m, snaps)[i], Trace(m, snaps)[i + 1])
  {
    forall i | 0 <= i < |snaps|
      ensures CanStep(Trace(m, snaps)[i], Trace(m, snaps)[i + 1])
    {
      TraceStep(m, snaps, i);
    }
  }

  /** The ascent never goes back to an earlier phase of a lower rank. */
  lemma {:induction false} RankNeverDecreases(m: AscentMode, snaps: seq<Snapshot>, i: nat, j: nat)
    requires i <= j <= |snaps|
    ensures Rank(Trace(m, snaps)[i]) <= Rank(Trace(m, snaps)[j])
  {
    if i < j {
      RankNeverDecreases(m, snaps, i, j - 1);
      TraceStep(m, snaps, j - 1);
    }
  }

  /** Once left, the vertical ascent is never re-entered. */
  lemma VerticalAscentNotReentered(m: AscentMode, snaps: seq<Snapshot>, i: nat, j: nat)
    requires i <= j <= |snaps|
    requires Trace(m, snaps)[i] != VerticalAscent
    ensures Trace(m, snaps)[j] != VerticalAscent
  {
    RankNeverDecreases(m, snaps, i, j);
  }

  /** Once PEG is reached, the machine is in PEG or EXIT from then on. */
  lemma PegOnlyToExit(m: AscentMode, snaps: seq<Snapshot>, i: nat, j: nat)
    requires i <= j <= |snaps|
    requires Trace(m, snaps)[i] == Peg
    ensures Trace(m, snaps)[j] == Peg || Trace(m, snaps)[j] == Exit
  {
    RankNeverDecreases(m, snaps, i, j);
  }

  /** EXIT is absorbing, so DriveAscent, which reports mode != EXIT, stays
      inactive once it has reported inactive. */
  lemma ExitAbsorbing(m: AscentMode, snaps: seq<Snapshot>, i: nat, j: nat)
    requires i <= j <= |snaps|
    requires Trace(m, snaps)[i] == Exit
    ensures Trace(m, snaps)[j] == Exit
  {
    RankNeverDecreases(m, snaps, i, j);
  }

  /** The gravity turn is entered only from the pitch program. */
  lemma GravityTurnEnteredFromInitiateTurn(m: AscentMode, snaps: seq<Snapshot>, i: nat)
    requires i < |snaps|
    requires Trace(m, snaps)[i + 1] == GravityTurn && Trace(m, snaps)[i] != GravityTurn
    ensures Trace(m, snaps)[i] == InitiateTurn
  {
    TraceStep(m, snaps, i);
  }

  /** EXIT is entered only from PEG. */
  lemma ExitEnteredFromPeg(m: AscentMode, snaps: seq<Snapshot>, i: nat)
    requires i < |snaps|
    requires Trace(m, snaps)[i + 1] == Exit && Trace(m, snaps)[i] != Exit
    ensures Trace(m, snaps)[i] == Peg
  {
    TraceStep(m, snaps, i);
  }

  /** An ascent that has not yet finished reaches EXIT only after passing
      through PEG. */
  lemma {:induction false} ExitOnlyAfterPeg(m: AscentMode, snaps: seq<Snapshot>, j: nat)
    requires j <= |snaps|
    requires m != Exit && Trace(m, snaps)[j] == Exit
    ensures exists i :: 0 <= i < j && Trace(m, snaps)[i] == Peg
  {
    assert j > 0;
    if Trace(m, snaps)[j - 1] == Exit {
      ExitOnlyAfterPeg(m, snaps, j - 1);
    } else {
      ExitEnteredFromPeg(m, snaps, j - 1);
    }
  }

  /** A snapshot with the given flags and numbers; everything else zero. */
  function Probe(met: real, pitchEndToggle: bool, solverPitch: real, status: PegStatus): (s: Snapshot)
  {
    Snapshot(
      Config(DefaultPitchStartTime, DefaultPitchRate, DefaultPitchEndTime, pitchEndToggle,
             false, 0.0, false, 0.0, -1, false, 0.0, 0.0, 0.0, 0.0, 0.0, 0.0, true),
      Telemetry(met, true, false, 100.0, 0.0, 0.0, 3),
      SolverView(solverPitch, 90.0, true, status),
      false)
  }

  /** Every mode is reachable: with a timed pitch program, one ascent passes
      through all five modes in order, one tick each. */
  lemma FullAscentReachable()
    ensures exists snaps :: Trace(VerticalAscent, snaps) == [VerticalAscent, InitiateTurn, GravityTurn, Peg, Exit]
  {
    var snaps := [
      Probe(11.0, true, 45.0, NotFinished),   // past pitchStartTime: start the turn
      Probe(56.0, true, 45.0, NotFinished),   // past pitchEndTime: gravity turn
      Probe(60.0, true, 45.0, NotFinished),   // gravity-turn pitch 0 < 45, solver stable: PEG
      Probe(61.0, true, 45.0, Finished)];     // solver finished: EXIT
    assert Step(VerticalAscent, snaps[0]).next == InitiateTurn;
    assert Step(InitiateTurn, snaps[1]).next == GravityTurn;
    assert Step(GravityTurn, snaps[2]).next == Peg;
    assert Step(Peg, snaps[3]).next == Exit;
    assert Trace(VerticalAscent, snaps) == [VerticalAscent, InitiateTurn, GravityTurn, Peg, Exit];
  }

  /** If the operator moves the end time of a timed pitch program past the
      current MET while the machine is in the gravity turn, the next tick goes
      back to the pitch program, whatever the stage and the solver say. */
  lemma RegressionScenario(s: Snapshot)
    requires s.config.pitchEndToggle && s.telemetry.met < s.config.pitchEndTime
    ensures Trace(GravityTurn, [s]) == [GravityTurn, InitiateTurn]
  {
  }
}
