/** The pure part of the PEG ascent autopilot: what one control tick sees (a
    snapshot of configuration, telemetry and the guidance solver), the setpoint
    law of each ascent mode, and the rule each mode uses to pick the next mode.
    The imperative controller in AscentModule is proved against `Step`. */
module AscentModel {

  datatype Option<T> = None | Some(value: T)

  /** The ascent modes, in the order the source declares them. */
  datatype AscentMode = VerticalAscent | InitiateTurn | GravityTurn | Peg | Exit

  /** The solver's status; the ascent logic only asks whether it is FINISHED. */
  datatype PegStatus = Finished | NotFinished

  /** Operator-tunable configuration, read afresh every tick. */
  datatype Config = Config(
    pitchStartTime: real,        // s of MET at which the pitch program starts
    pitchRate: real,             // deg/s of the pitch program
    pitchEndTime: real,          // s of MET at which a timed pitch program ends
    pitchEndToggle: bool,        // end the pitch program on pitchEndTime
    pegAfterStageToggle: bool,   // hand over to PEG on a staging event
    pegAfterStage: real,         // stage index below which PEG takes over
    pegCoast: bool,
    coastSecs: real,
    coastAfterStage: int,
    pegManualAzimuthToggle: bool,
    pegManualAzimuth: real,
    pitchBias: real,             // emergency pitch offset, never persisted
    desiredApoapsis: real,
    desiredOrbitAltitude: real,
    desiredInclination: real,
    launchLANDifference: real,
    autoThrottle: bool)

  /** Vehicle state for the tick. */
  datatype Telemetry = Telemetry(
    met: real,
    liftedOff: bool,
    landed: bool,
    altitudeBottom: real,
    srfvelPitch: real,
    vesselPitch: real,
    currentStage: int)

  /** What the guidance solver currently recommends. */
  datatype SolverView = SolverView(pitch: real, heading: real, stable: bool, status: PegStatus)

  datatype Snapshot = Snapshot(
    config: Config,
    telemetry: Telemetry,
    solver: SolverView,
    normalTargetExists: bool)

  datatype Attitude = Attitude(pitch: real, heading: real)

  /** Which attitude axes the attitude controller may drive. */
  datatype AxisMask = AxisMask(pitch: bool, yaw: bool, roll: bool)

  /** What one tick asks of the actuation layer: an attitude, and optionally an
      axis mask and a throttle setting. */
  datatype Command = Command(attitude: Attitude, axes: Option<AxisMask>, throttle: Option<real>)

  /** The status line, as a tag with the number it displays. */
  datatype Status =
    | NoStatus
    | AwaitingLiftoff
    | VerticalAscentCountdown(secs: real)
    | PitchProgramTime(secs: real)
    | PitchProgramAngle(degrees: real)
    | UnguidedGravityTurn
    | StableGuidance
    | UnstableGuidance

  /** The effect of one tick: the mode afterwards, the status written (None:
      left as it was) and the command issued (None: nothing issued). */
  datatype Tick = Tick(next: AscentMode, status: Option<Status>, command: Option<Command>)

  datatype CoastDirective = CoastDirective(secs: real, afterStage: int)

  datatype TargetDirective =
    | MatchOrbitPlane(altitude: real, apoapsis: real)
    | MatchInclination(altitude: real, apoapsis: real, inclination: real, lanDifference: real)

  /** What is pushed into the guidance solver at the start of every tick. */
  datatype Directives = Directives(coast: CoastDirective, target: TargetDirective)

  const VerticalPitch: real := 90.0
  const RollClearance: real := 50.0
  const FullThrottle: real := 1.0
  const NoCoastSecs: real := -1.0
  const NoCoastStage: int := 0

  const DefaultPitchStartTime: real := 10.0
  const DefaultPitchRate: real := 0.75
  const DefaultPitchEndTime: real := 55.0

  /** Math.Min on two doubles (NaN left out). */
  function Min(a: real, b: real): (r: real)
    ensures r <= a && r <= b
    ensures r == a || r == b
  {
    if a <= b then a else b
  }

  /** The status shown after a tick that wrote `update`. */
  function StatusAfter(prev: Status, update: Option<Status>): (s: Status)
    ensures update.None? ==> s == prev
    ensures update.Some? ==> s == update.value
  {
    match update
    case None => prev
    case Some(u) => u
  }

  /** The coast half of setTarget. */
  function Coast(c: Config): (d: CoastDirective)
    ensures c.pegCoast ==> d.secs == c.coastSecs && d.afterStage == c.coastAfterStage
    ensures !c.pegCoast ==> d.secs == NoCoastSecs && d.afterStage == NoCoastStage
  {
    if c.pegCoast then CoastDirective(c.coastSecs, c.coastAfterStage)
    else CoastDirective(NoCoastSecs, NoCoastStage)
  }

  /** setTarget: the coast directive and which kind of target directive is
      issued; the solver's own targeting is not part of this model. */
  function SetTarget(s: Snapshot): (d: Directives)
    ensures d.coast == Coast(s.config)
    ensures d.target.MatchOrbitPlane? <==> s.normalTargetExists
    ensures d.target.altitude == s.config.desiredOrbitAltitude
    ensures d.target.apoapsis == s.config.desiredApoapsis
    ensures d.target.MatchInclination? ==>
      d.target.inclination == s.config.desiredInclination &&
      d.target.lanDifference == s.config.launchLANDifference
  {
    var c := s.config;
    var target :=
      if s.normalTargetExists then MatchOrbitPlane(c.desiredOrbitAltitude, c.desiredApoapsis)
      else MatchInclination(c.desiredOrbitAltitude, c.desiredApoapsis, c.desiredInclination, c.launchLANDifference);
    Directives(Coast(c), target)
  }

  /** The heading of the open-loop modes: the manual azimuth when the operator
      has switched it on, otherwise the solver's heading. */
  function OpenLoopHeading(c: Config, solver: SolverView): (h: real)
    ensures c.pegManualAzimuthToggle ==> h == c.pegManualAzimuth
    ensures !c.pegManualAzimuthToggle ==> h == solver.heading
  {
    if c.pegManualAzimuthToggle then c.pegManualAzimuth else solver.heading
  }

  /** attitudeToPEG: the pitch is passed on unchanged; the manual azimuth may
      replace the solver's heading only when the caller allows it. */
  function AttitudeToPEG(pitch: real, maybeManualAz: bool, c: Config, solver: SolverView): (a: Attitude)
    ensures a.pitch == pitch
    ensures maybeManualAz ==> a.heading == OpenLoopHeading(c, solver)
    ensures !maybeManualAz ==> a.heading == solver.heading
  {
    var heading := if maybeManualAz && c.pegManualAzimuthToggle then c.pegManualAzimuth else solver.heading;
    Attitude(pitch, heading)
  }

  /** The axis mask of the vertical ascent. */
  function VerticalAscentAxes(t: Telemetry): (m: AxisMask)
    ensures m.pitch <==> !t.landed
    ensures m.yaw <==> !t.landed
    ensures m.roll <==> m.pitch && t.altitudeBottom > RollClearance
  {
    AxisMask(!t.landed, !t.landed, !t.landed && t.altitudeBottom > RollClearance)
  }

  /** The pitch program: a linear ramp down from vertical, plus the bias. */
  function ProgramPitch(c: Config, met: real): (p: real)
    ensures met == c.pitchStartTime ==> p == VerticalPitch + c.pitchBias
    ensures c.pitchRate >= 0.0 && met >= c.pitchStartTime ==> p <= VerticalPitch + c.pitchBias
    ensures c.pitchRate == 0.0 ==> p == VerticalPitch + c.pitchBias
  {
    var dt := met - c.pitchStartTime;
    var theta := dt * c.pitchRate;
    VerticalPitch - theta + c.pitchBias
  }

  /** The gravity-turn pitch: the largest value that is at most vertical, at
      most the surface-velocity pitch plus bias, and at most the vessel's
      current pitch. */
  function GravityTurnPitch(t: Telemetry, pitchBias: real): (p: real)
    ensures p <= VerticalPitch
    ensures p <= t.srfvelPitch + pitchBias
    ensures p <= t.vesselPitch
    ensures p == VerticalPitch || p == t.srfvelPitch + pitchBias || p == t.vesselPitch
  {
    Min(Min(VerticalPitch, t.srfvelPitch + pitchBias), t.vesselPitch)
  }

  /** A command that only sets the attitude. */
  function AttitudeOnly(a: Attitude): (c: Command)
  {
    Command(a, None, None)
  }

  /** DriveVerticalAscent. The command is issued before the transition check,
      so it is issued on the transition tick too. */
  function VerticalAscentTick(s: Snapshot): (t: Tick)
    ensures t.command.Some?
    ensures t.command.value.attitude == Attitude(VerticalPitch, OpenLoopHeading(s.config, s.solver))
    ensures t.command.value.axes == Some(VerticalAscentAxes(s.telemetry))
    ensures s.config.autoThrottle ==> t.command.value.throttle == Some(FullThrottle)
    ensures !s.config.autoThrottle ==> t.command.value.throttle.None?
    ensures t.next == InitiateTurn <==>
      s.telemetry.liftedOff && !s.telemetry.landed && s.telemetry.met > s.config.pitchStartTime
    ensures t.next == VerticalAscent || t.next == InitiateTurn
    ensures t.status.None? <==> t.next == InitiateTurn
    ensures t.status == Some(AwaitingLiftoff) <==> !s.telemetry.liftedOff || s.telemetry.landed
    ensures s.telemetry.liftedOff && !s.telemetry.landed && s.telemetry.met <= s.config.pitchStartTime ==>
      t.status == Some(VerticalAscentCountdown(s.config.pitchStartTime - s.telemetry.met))
    ensures t.status.Some? && t.status.value.VerticalAscentCountdown? ==>
      0.0 <= t.status.value.secs == s.config.pitchStartTime - s.telemetry.met
  {
    var c, tel := s.config, s.telemetry;
    var cmd := Command(
      AttitudeToPEG(VerticalPitch, true, c, s.solver),
      Some(VerticalAscentAxes(tel)),
      if c.autoThrottle then Some(FullThrottle) else None);
    if !tel.liftedOff || tel.landed then
      Tick(VerticalAscent, Some(AwaitingLiftoff), Some(cmd))
    else if tel.met > c.pitchStartTime then
      Tick(InitiateTurn, None, Some(cmd))
    else
      Tick(VerticalAscent, Some(VerticalAscentCountdown(c.pitchStartTime - tel.met)), Some(cmd))
  }

  /** DriveInitiateTurn: the pitch program. Which exit rule applies is chosen
      by pitchEndToggle alone; the transition tick issues no command. */
  function InitiateTurnTick(s: Snapshot): (t: Tick)
    ensures s.config.pitchEndToggle ==>
      (t.next == GravityTurn <==> s.telemetry.met > s.config.pitchEndTime) &&
      (t.next == GravityTurn || t.next == InitiateTurn)
    ensures !s.config.pitchEndToggle ==>
      (t.next == Peg <==> ProgramPitch(s.config, s.telemetry.met) < s.solver.pitch) &&
      (t.next == Peg || t.next == InitiateTurn)
    ensures t.command.None? <==> t.next != InitiateTurn
    ensures t.status.None? <==> t.next != InitiateTurn
    ensures t.next == InitiateTurn ==>
      t.command == Some(AttitudeOnly(Attitude(ProgramPitch(s.config, s.telemetry.met), OpenLoopHeading(s.config, s.solver))))
    ensures s.config.pitchEndToggle && s.telemetry.met <= s.config.pitchEndTime ==>
      t.status == Some(PitchProgramTime(s.config.pitchEndTime - s.telemetry.met))
    ensures !s.config.pitchEndToggle && ProgramPitch(s.config, s.telemetry.met) >= s.solver.pitch ==>
      t.status == Some(PitchProgramAngle(ProgramPitch(s.config, s.telemetry.met) - s.solver.pitch))
    ensures t.status.Some? && t.status.value.PitchProgramTime? ==>
      0.0 <= t.status.value.secs == s.config.pitchEndTime - s.telemetry.met
    ensures t.status.Some? && t.status.value.PitchProgramAngle? ==>
      0.0 <= t.status.value.degrees == ProgramPitch(s.config, s.telemetry.met) - s.solver.pitch
  {
    var c, met := s.config, s.telemetry.met;
    var dt := met - c.pitchStartTime;
    var pitch := ProgramPitch(c, met);
    var cmd := AttitudeOnly(AttitudeToPEG(pitch, true, c, s.solver));
    if c.pitchEndToggle then
      if met > c.pitchEndTime then Tick(GravityTurn, None, None)
      else Tick(InitiateTurn, Some(PitchProgramTime(c.pitchEndTime - c.pitchStartTime - dt)), Some(cmd))
    else
      if pitch < s.solver.pitch then Tick(Peg, None, None)
      else Tick(InitiateTurn, Some(PitchProgramAngle(pitch - s.solver.pitch)), Some(cmd))
  }

  /** DriveGravityTurn. The backward move to the pitch program is checked
      before either hand-over rule; a transition tick issues no command. */
  function GravityTurnTick(s: Snapshot): (t: Tick)
    ensures s.config.pitchEndToggle && s.telemetry.met < s.config.pitchEndTime ==> t.next == InitiateTurn
    ensures t.next == InitiateTurn ==> s.config.pitchEndToggle && s.telemetry.met < s.config.pitchEndTime
    ensures t.next == Peg <==>
      !(s.config.pitchEndToggle && s.telemetry.met < s.config.pitchEndTime) &&
      (if s.config.pegAfterStageToggle
       then (s.telemetry.currentStage as real) < s.config.pegAfterStage
       else GravityTurnPitch(s.telemetry, s.config.pitchBias) < s.solver.pitch && s.solver.stable)
    ensures t.next == InitiateTurn || t.next == GravityTurn || t.next == Peg
    ensures t.command.Some? <==> t.next == GravityTurn
    ensures t.status.Some? <==> t.next == GravityTurn
    ensures t.next == GravityTurn ==>
      t.status == Some(UnguidedGravityTurn) &&
      t.command == Some(AttitudeOnly(Attitude(GravityTurnPitch(s.telemetry, s.config.pitchBias), OpenLoopHeading(s.config, s.solver))))
  {
    var c, tel := s.config, s.telemetry;
    var pitch := GravityTurnPitch(tel, c.pitchBias);
    if c.pitchEndToggle && tel.met < c.pitchEndTime then
      Tick(InitiateTurn, None, None)
    else if c.pegAfterStageToggle && (tel.currentStage as real) < c.pegAfterStage then
      Tick(Peg, None, None)
    else if !c.pegAfterStageToggle && pitch < s.solver.pitch && s.solver.stable then
      Tick(Peg, None, None)
    else
      Tick(GravityTurn, Some(UnguidedGravityTurn), Some(AttitudeOnly(AttitudeToPEG(pitch, true, c, s.solver))))
  }

  /** DrivePEG: closed-loop guidance. The solver's pitch and heading are
      commanded verbatim (no manual azimuth) until it reports FINISHED. */
  function PegTick(s: Snapshot): (t: Tick)
    ensures t.next == Exit <==> s.solver.status == Finished
    ensures t.next == Exit ==> t.status.None? && t.command.None?
    ensures t.next != Exit ==>
      t.next == Peg &&
      t.command == Some(AttitudeOnly(Attitude(s.solver.pitch, s.solver.heading))) &&
      t.status == Some(if s.solver.stable then StableGuidance else UnstableGuidance)
  {
    if s.solver.status == Finished then Tick(Exit, None, None)
    else
      var st := if s.solver.stable then StableGuidance else UnstableGuidance;
      Tick(Peg, Some(st), Some(AttitudeOnly(AttitudeToPEG(s.solver.pitch, false, s.config, s.solver))))
  }

  /** The transition graph of the drive methods: staying put, or one of the
      listed edges. */
  predicate CanStep(from: AscentMode, to: AscentMode)
  {
    from == to ||
    match from
    case VerticalAscent => to == InitiateTurn
    case InitiateTurn => to == GravityTurn || to == Peg
    case GravityTurn => to == InitiateTurn || to == Peg
    case Peg => to == Exit
    case Exit => false
  }

  /** Progress of the ascent; the pitch program and the gravity turn share a
      rank because the machine may move between them either way. */
  function Rank(m: AscentMode): (r: nat)
  {
    match m
    case VerticalAscent => 0
    case InitiateTurn => 1
    case GravityTurn => 1
    case Peg => 2
    case Exit => 3
  }

  /** One tick of DriveAscent's dispatch on the mode. */
  function Step(m: AscentMode, s: Snapshot): (t: Tick)
    ensures CanStep(m, t.next)
    ensures Rank(m) <= Rank(t.next)
    ensures m == Exit ==> t == Tick(Exit, None, None)
    ensures t.next == Exit <==> m == Exit || (m == Peg && s.solver.status == Finished)
    ensures t.next == VerticalAscent ==> m == VerticalAscent
    ensures t.next == GravityTurn ==> m == InitiateTurn || m == GravityTurn
    ensures m != VerticalAscent && t.next != m ==> t.command.None? && t.status.None?
    ensures t.command.Some? ==> t.next != Exit
  {
    match m
    case VerticalAscent => VerticalAscentTick(s)
    case InitiateTurn => InitiateTurnTick(s)
    case GravityTurn => GravityTurnTick(s)
    case Peg => PegTick(s)
    case Exit => Tick(Exit, None, None)
  }

  /** Every open-loop attitude command uses the open-loop heading rule; the
      closed-loop one uses the solver's heading. */
  lemma HeadingRules(m: AscentMode, s: Snapshot)
    requires Step(m, s).command.Some?
    ensures m != Peg ==> Step(m, s).command.value.attitude.heading == OpenLoopHeading(s.config, s.solver)
    ensures m == Peg ==> Step(m, s).command.value.attitude == Attitude(s.solver.pitch, s.solver.heading)
  {
  }

  /** The closed-loop tick depends on the solver view alone: configuration
      (the manual azimuth among it) and telemetry make no difference. */
  lemma PegIgnoresConfiguration(s: Snapshot, s': Snapshot)
    requires s.solver == s'.solver
    ensures Step(Peg, s) == Step(Peg, s')
  {
  }

  /** On one snapshot the pitch program and the gravity turn cannot send the
      machine back and forth: the forward rule (MET after the end time) and the
      backward rule (MET before it) exclude each other. */
  lemma NoFlapOnOneSnapshot(s: Snapshot)
    ensures Step(InitiateTurn, s).next == GravityTurn ==> Step(GravityTurn, s).next != InitiateTurn
    ensures Step(GravityTurn, s).next == InitiateTurn ==> Step(InitiateTurn, s).next == InitiateTurn
  {
  }

  /** With a non-negative rate, the ramp never climbs. */
  lemma ProgramPitchNonIncreasing(c: Config, t1: real, t2: real)
    requires c.pitchRate >= 0.0 && t1 <= t2
    ensures ProgramPitch(c, t2) <= ProgramPitch(c, t1)
  {
    assert (t2 - c.pitchStartTime) * c.pitchRate - (t1 - c.pitchStartTime) * c.pitchRate
        == (t2 - t1) * c.pitchRate;
    MulNonNegative(t2 - t1, c.pitchRate);
  }

  lemma MulNonNegative(a: real, b: real)
    requires a >= 0.0 && b >= 0.0
    ensures a * b >= 0.0
  {
  }

  /** With a positive rate, the ramp is below `target` exactly after the
      crossing time start + (90 + bias - target) / rate. */
  lemma ProgramPitchCrossing(c: Config, met: real, target: real)
    requires c.pitchRate > 0.0
    ensures ProgramPitch(c, met) < target <==>
      met > c.pitchStartTime + (VerticalPitch + c.pitchBias - target) / c.pitchRate
  {
    var r := c.pitchRate;
    var k := VerticalPitch + c.pitchBias - target;
    var d := met - c.pitchStartTime;
    assert ProgramPitch(c, met) < target <==> d * r > k;
    assert k == (k / r) * r;
    MulStrictMonotone(d, k / r, r);
  }

  lemma MulStrictMonotone(a: real, b: real, r: real)
    requires r > 0.0
    ensures a * r > b * r <==> a > b
  {
    assert a * r - b * r == (a - b) * r;
  }

  /** The default pitch program (start 10 s, 0.75 deg/s) with a solver pitch
      held at 70 deg and no bias hands over to PEG exactly once MET is past
      10 + 80/3 s. */
  lemma DefaultCrossingScenario(s: Snapshot)
    requires s.config.pitchStartTime == DefaultPitchStartTime
    requires s.config.pitchRate == DefaultPitchRate
    requires !s.config.pitchEndToggle && s.config.pitchBias == 0.0
    requires s.solver.pitch == 70.0
    ensures Step(InitiateTurn, s).next == Peg <==> s.telemetry.met > 10.0 + 80.0 / 3.0
  {
    ProgramPitchCrossing(s.config, s.telemetry.met, 70.0);
  }
}
