/** The PEG ascent module as an object: the mode and status fields it updates
    in place, the enable/disable hooks, and the per-tick DriveAscent with one
    drive method per mode. Each method is proved against the tick functions
    of AscentModel. */
module AscentModule {
  import opened AscentModel

  class AscentPEG {
    var mode: AscentMode
    var status: Status
    /** The enable flag this module sets on the guidance solver. */
    var solverEnabled: bool

    constructor ()
      ensures mode == VerticalAscent && status == NoStatus && !solverEnabled
    {
      mode := VerticalAscent;
      status := NoStatus;
      solverEnabled := false;
    }

    /** Enabling restarts the ascent from the vertical rise, whatever mode the
        module was left in, and switches the solver on. */
    method OnModuleEnabled()
      modifies this`mode, this`solverEnabled
      ensures mode == VerticalAscent && solverEnabled
    {
      mode := VerticalAscent;
      solverEnabled := true;
    }

    method OnModuleDisabled()
      modifies this`solverEnabled
      ensures !solverEnabled
    {
      solverEnabled := false;
    }

    /** One control tick: push the directives, run the current mode's drive
        method, and report whether the ascent is still active. */
    method DriveAscent(s: Snapshot) returns (active: bool, directives: Directives, cmd: Option<Command>)
      modifies this`mode, this`status
      ensures mode == Step(old(mode), s).next
      ensures status == StatusAfter(old(status), Step(old(mode), s).status)
      ensures cmd == Step(old(mode), s).command
      ensures directives == SetTarget(s)
      ensures active <==> mode != Exit
      ensures old(mode) == Exit ==> !active && mode == Exit && cmd.None? && status == old(status)
    {
      directives := SetTarget(s);
      cmd := None;
      match mode {
        case VerticalAscent =>
          cmd := DriveVerticalAscent(s);
        case InitiateTurn =>
          cmd := DriveInitiateTurn(s);
        case GravityTurn =>
          cmd := DriveGravityTurn(s);
        case Peg =>
          cmd := DrivePEG(s);
        case Exit =>
      }
      active := mode != Exit;
    }

    method DriveVerticalAscent(s: Snapshot) returns (cmd: Option<Command>)
      requires mode == VerticalAscent
      modifies this`mode, this`status
      ensures mode == VerticalAscentTick(s).next
      ensures status == StatusAfter(old(status), VerticalAscentTick(s).status)
      ensures cmd == VerticalAscentTick(s).command
    {
      var c, tel := s.config, s.telemetry;
      var attitude := AttitudeToPEG(VerticalPitch, true, c, s.solver);
      var throttle := if c.autoThrottle then Some(FullThrottle) else None;
      cmd := Some(Command(attitude, Some(AxisMask(!tel.landed, !tel.landed, !tel.landed && tel.altitudeBottom > RollClearance)), throttle));
      if !tel.liftedOff || tel.landed {
        status := AwaitingLiftoff;
      } else {
        if tel.met > c.pitchStartTime {
          mode := InitiateTurn;
          return;
        }
        var dt := c.pitchStartTime - tel.met;
        status := VerticalAscentCountdown(dt);
      }
    }

    method DriveInitiateTurn(s: Snapshot) returns (cmd: Option<Command>)
      requires mode == InitiateTurn
      modifies this`mode, this`status
      ensures mode == InitiateTurnTick(s).next
      ensures status == StatusAfter(old(status), InitiateTurnTick(s).status)
      ensures cmd == InitiateTurnTick(s).command
    {
      var c, met := s.config, s.telemetry.met;
      var dt := met - c.pitchStartTime;
      var theta := dt * c.pitchRate;
      var pitch := 90.0 - theta + c.pitchBias;
      assert pitch == ProgramPitch(c, met);

      if c.pitchEndToggle {
        if met > c.pitchEndTime {
          mode := GravityTurn;
          return None;
        }
        status := PitchProgramTime(c.pitchEndTime - c.pitchStartTime - dt);
      } else {
        if pitch < s.solver.pitch {
          mode := Peg;
          return None;
        }
        status := PitchProgramAngle(pitch - s.solver.pitch);
      }

      cmd := Some(AttitudeOnly(AttitudeToPEG(pitch, true, c, s.solver)));
    }

    method DriveGravityTurn(s: Snapshot) returns (cmd: Option<Command>)
      requires mode == GravityTurn
      modifies this`mode, this`status
      ensures mode == GravityTurnTick(s).next
      ensures status == StatusAfter(old(status), GravityTurnTick(s).status)
      ensures cmd == GravityTurnTick(s).command
    {
      var c, tel := s.config, s.telemetry;
      var pitch := Min(Min(90.0, tel.srfvelPitch + c.pitchBias), tel.vesselPitch);

      if c.pitchEndToggle && tel.met < c.pitchEndTime {
        // the operator moved the end time past the current MET
        mode := InitiateTurn;
        return None;
      }

      if c.pegAfterStageToggle {
        if (tel.currentStage as real) < c.pegAfterStage {
          mode := Peg;
          return None;
        }
      } else if pitch < s.solver.pitch && s.solver.stable {
        mode := Peg;
        return None;
      }

      status := UnguidedGravityTurn;
      cmd := Some(AttitudeOnly(AttitudeToPEG(pitch, true, c, s.solver)));
    }

    method DrivePEG(s: Snapshot) returns (cmd: Option<Command>)
      requires mode == Peg
      modifies this`mode, this`status
      ensures mode == PegTick(s).next
      ensures status == StatusAfter(old(status), PegTick(s).status)
      ensures cmd == PegTick(s).command
    {
      if s.solver.status == Finished {
        mode := Exit;
        return None;
      }

      if s.solver.stable {
        status := StableGuidance;
      } else {
        status := UnstableGuidance;
      }

      cmd := Some(AttitudeOnly(AttitudeToPEG(s.solver.pitch, false, s.config, s.solver)));
    }
  }
}
