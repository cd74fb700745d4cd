# PEG ascent phase controller

A Dafny model of the ascent-phase state machine of MechJeb's PEG ascent
autopilot (`MechJebModuleAscentPEG`). The module runs once per control tick.
At the start of each tick it pushes a coast directive and a target directive
into the guidance solver. It then runs the drive method of the current mode:

- `VERTICAL_ASCENT` commands pitch 90 and, if auto-throttle is on, full throttle. It also sets the attitude axis mask.
- `INITIATE_TURN` flies a linear pitch program.
- `GRAVITY_TURN` flies a clamped, velocity-following pitch.
- `PEG` passes the closed-loop solver's pitch and heading through.
- `EXIT` is terminal.

`DriveAscent` reports "still active" until the mode is `EXIT`.

Files:

- `ascent_model.dfy` (module `AscentModel`): the tick snapshot and the setpoint laws. The `*Tick` functions give each mode's transition rule, and `Step` dispatches on the mode. This file also has the transition graph `CanStep` and the progress measure `Rank`.
- `ascent_module.dfy` (module `AscentModule`): the class `AscentPEG`. Its `mode`, `status` and solver-enable fields are updated in place, one drive method per mode, each with the source's early returns. Every method is proved to do exactly what the matching tick function says.
- `ascent_runs.dfy` (module `AscentRuns`): `Trace`, the modes passed through over a sequence of ticks. Its lemmas cover the transition graph, monotone progress through the phases, absorbing `EXIT`, and a witness ascent that passes through all five modes.

Inputs and outputs:

- What a tick reads is a `Snapshot`: configuration, telemetry, the solver's view and whether a rendezvous target exists.
- What a tick writes to other modules is returned as values:
  - the solver directives (`Directives`);
  - the attitude, axis-mask and throttle request (`Command`);
  - the new status line (`Status`, an abstract tag carrying the number shown).
- Angles and times are `real`.

Points where the code's behaviour is easy to misread:

- Leaving the vertical ascent also needs the vessel lifted off and not landed, not just MET past `pitchStartTime`.
- The pitch/yaw axes are gated on "not landed" only.
- Enabling the module resets the mode but not `pitchBias`.
- The vertical ascent issues its command before checking the transition, so it also commands on the tick that leaves it.

## Model

| member | source | states |
|---|---|---|
| AscentModule.AscentPEG.constructor | MechJeb2/MechJebModuleAscentPEG.cs:58-59 | a new module starts in VERTICAL_ASCENT (the enum's first value) |
| AscentModule.AscentPEG.OnModuleEnabled | MechJeb2/MechJebModuleAscentPEG.cs:47-51 | enabling sets mode to VERTICAL_ASCENT whatever it was and enables the solver |
| AscentModule.AscentPEG.OnModuleDisabled | MechJeb2/MechJebModuleAscentPEG.cs:53-56 | disabling turns the solver off and leaves the mode alone |
| AscentModule.AscentPEG.DriveAscent | MechJeb2/MechJebModuleAscentPEG.cs:61-85 | the new mode, status and command are those of Step on the old mode; directives are always pushed; returns false exactly when the new mode is EXIT; in EXIT nothing changes and no command is issued |
| AscentModule.AscentPEG.DriveVerticalAscent | MechJeb2/MechJebModuleAscentPEG.cs:120-142 | the in-place vertical-ascent drive has exactly the effect VerticalAscentTick describes |
| AscentModule.AscentPEG.DriveInitiateTurn | MechJeb2/MechJebModuleAscentPEG.cs:144-168 | the in-place pitch-program drive has exactly the effect InitiateTurnTick describes |
| AscentModule.AscentPEG.DriveGravityTurn | MechJeb2/MechJebModuleAscentPEG.cs:170-197 | the in-place gravity-turn drive has exactly the effect GravityTurnTick describes |
| AscentModule.AscentPEG.DrivePEG | MechJeb2/MechJebModuleAscentPEG.cs:199-213 | the in-place closed-loop drive has exactly the effect PegTick describes |
| AscentModel.Coast | MechJeb2/MechJebModuleAscentPEG.cs:89-92 | with pegCoast the directive is (coastSecs, coastAfterStage), otherwise the no-coast sentinel (-1, 0) |
| AscentModel.SetTarget | MechJeb2/MechJebModuleAscentPEG.cs:87-104 | the coast directive is Coast; the target directive matches the target's plane iff a normal target exists, otherwise matches desiredInclination and launchLANDifference; both carry desiredOrbitAltitude and desiredApoapsis |
| AscentModel.AttitudeToPEG | MechJeb2/MechJebModuleAscentPEG.cs:106-118 | pitch passes unchanged; when the caller allows the manual azimuth the heading follows the open-loop rule, otherwise it is the solver's heading |
| AscentModel.OpenLoopHeading | MechJeb2/MechJebModuleAscentPEG.cs:111-115 | the manual azimuth when its toggle is set, the solver's heading otherwise |
| AscentModel.VerticalAscentAxes | MechJeb2/MechJebModuleAscentPEG.cs:127 | pitch and yaw enabled iff not landed; roll iff not landed and altitudeBottom > 50 |
| AscentModel.ProgramPitch | MechJeb2/MechJebModuleAscentPEG.cs:146-148 | the ramp starts at 90 + bias at pitchStartTime, stays at or below it afterwards for a non-negative rate, and is flat for rate 0 |
| AscentModel.ProgramPitchNonIncreasing | MechJeb2/MechJebModuleAscentPEG.cs:146-148 | with a non-negative rate the program pitch never increases with MET |
| AscentModel.ProgramPitchCrossing | MechJeb2/MechJebModuleAscentPEG.cs:146-159 | with a positive rate the program pitch is below a target pitch iff MET > pitchStartTime + (90 + bias - target)/rate |
| AscentModel.DefaultCrossingScenario | MechJeb2/MechJebModuleAscentPEG.cs:18-20 | with the default start time 10 s and rate 0.75 deg/s, no bias and a solver pitch of 70, the pitch program hands over to PEG iff MET > 10 + 80/3 |
| AscentModel.Min | MechJeb2/MechJebModuleAscentPEG.cs:172 | Math.Min: at most both arguments and equal to one of them |
| AscentModel.GravityTurnPitch | MechJeb2/MechJebModuleAscentPEG.cs:172 | the gravity-turn pitch is at most 90, at most srfvelPitch + bias, at most vesselPitch, and equal to one of the three |
| AscentModel.VerticalAscentTick | MechJeb2/MechJebModuleAscentPEG.cs:120-142 | always commands pitch 90 with the open-loop heading, the axis mask, and full throttle iff autoThrottle; moves to INITIATE_TURN iff lifted off, not landed and MET > pitchStartTime, else stays; "awaiting liftoff" iff not lifted off or landed; when lifted off, not landed and MET <= pitchStartTime the countdown pitchStartTime - MET is shown, and it is never negative |
| AscentModel.InitiateTurnTick | MechJeb2/MechJebModuleAscentPEG.cs:144-168 | with pitchEndToggle: GRAVITY_TURN iff MET > pitchEndTime; without: PEG iff program pitch < solver pitch; otherwise stays and commands the program pitch with the open-loop heading; no command and no status on the transition tick; on a staying tick the remaining time pitchEndTime - MET (timed) or the angle program pitch - solver pitch (crossing) is shown, and neither is negative |
| AscentModel.GravityTurnTick | MechJeb2/MechJebModuleAscentPEG.cs:170-197 | goes back to INITIATE_TURN iff pitchEndToggle and MET < pitchEndTime, before any hand-over; otherwise PEG iff (stage < pegAfterStage with the stage toggle, else clamped pitch < solver pitch and solver stable); otherwise stays, shows the gravity-turn status and commands the clamped pitch with the open-loop heading |
| AscentModel.PegTick | MechJeb2/MechJebModuleAscentPEG.cs:199-213 | EXIT iff the solver is FINISHED, with no command; otherwise stays in PEG, commands the solver's pitch and heading verbatim and shows stable or unstable guidance |
| AscentModel.Step | MechJeb2/MechJebModuleAscentPEG.cs:65-84 | every tick follows an edge of the transition graph and never lowers the rank; EXIT changes nothing; the new mode is EXIT iff it was EXIT or it was PEG and the solver finished; VERTICAL_ASCENT is never entered; GRAVITY_TURN only from INITIATE_TURN or itself; outside the vertical ascent a transition tick issues no command |
| AscentModel.HeadingRules | MechJeb2/MechJebModuleAscentPEG.cs:106-117 | every open-loop command uses the open-loop heading; the PEG command is the solver's attitude, ignoring the manual azimuth |
| AscentModel.PegIgnoresConfiguration | MechJeb2/MechJebModuleAscentPEG.cs:199-213 | a PEG tick depends only on the solver view |
| AscentModel.NoFlapOnOneSnapshot | MechJeb2/MechJebModuleAscentPEG.cs:150-179 | on one snapshot the forward pitch-program exit and the backward gravity-turn rule exclude each other |
| AscentRuns.Trace | MechJeb2/MechJebModuleAscentPEG.cs:61-85 | the modes of a run: one more than the ticks, starting with the initial mode |
| AscentRuns.TraceStep | MechJeb2/MechJebModuleAscentPEG.cs:61-85 | each mode of a run is Step of the one before on that tick's snapshot |
| AscentRuns.TraceFollowsGraph | MechJeb2/MechJebModuleAscentPEG.cs:65-84 | every tick of every run follows an edge of the transition graph |
| AscentRuns.RankNeverDecreases | MechJeb2/MechJebModuleAscentPEG.cs:134-204 | progress VERTICAL_ASCENT < {INITIATE_TURN, GRAVITY_TURN} < PEG < EXIT never decreases along a run |
| AscentRuns.VerticalAscentNotReentered | MechJeb2/MechJebModuleAscentPEG.cs:134-136 | once left, VERTICAL_ASCENT never comes back |
| AscentRuns.PegOnlyToExit | MechJeb2/MechJebModuleAscentPEG.cs:199-205 | after PEG every later mode is PEG or EXIT |
| AscentRuns.ExitAbsorbing | MechJeb2/MechJebModuleAscentPEG.cs:65-84 | after EXIT every later mode is EXIT, so the module stays inactive |
| AscentRuns.GravityTurnEnteredFromInitiateTurn | MechJeb2/MechJebModuleAscentPEG.cs:150-156 | a tick that enters GRAVITY_TURN starts in INITIATE_TURN |
| AscentRuns.ExitEnteredFromPeg | MechJeb2/MechJebModuleAscentPEG.cs:199-205 | a tick that enters EXIT starts in PEG |
| AscentRuns.ExitOnlyAfterPeg | MechJeb2/MechJebModuleAscentPEG.cs:201-204 | a run that did not start in EXIT reaches EXIT only after a tick spent in PEG |
| AscentRuns.FullAscentReachable | MechJeb2/MechJebModuleAscentPEG.cs:120-205 | some run of four ticks passes through all five modes in order |
| AscentRuns.RegressionScenario | MechJeb2/MechJebModuleAscentPEG.cs:174-179 | when the timed pitch program's end time is moved past MET, GRAVITY_TURN goes back to INITIATE_TURN on the next tick |

## Left out

- The solver's targeting (`TargetPeInsertMatchOrbitPlane`, `TargetPeInsertMatchInc`) is foreign code. The model records only which directive is issued and with which configuration values. The target orbit object is not modelled.
- The write-back of the displayed inclination is left out. It uses vector algebra and `Math.Acos` on the solver's orbit normal.
- `peg.AssertStart()` and the solver's internals are left out. The solver view is an input of the tick.
- The actuation layers are not part of this model: `attitudeTo`, `AxisControl` and `core.thrust`. The model returns the requested pitch, heading, axis mask and throttle unchanged.
- Heading wrapping, pitch clamping and any processing of the command downstream are left out.
- Status text formatting is left out. The status is an abstract tag with the number it would display.
- Persistence and the `EditableDouble`/`EditableInt` wrappers are left out. Configuration is plain values read fresh each tick. The default values are kept only as constants in `DefaultCrossingScenario` and in the snapshots of the witness `FullAscentReachable`.
- Floating-point rounding, NaN and infinities are left out. Angles and times are exact reals, and `Math.Min` is the real minimum.
- The `PegStatus` enum is defined in a file that is not part of this model. Only FINISHED versus anything else is modelled, because that is all the ascent logic examines.
- The solver's enabled flag is owned by the solver module, whose initial state is not visible. The constructor starts it as false.
