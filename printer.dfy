/**
 * The Printer: the task state machine one programmable-block run drives
 * (ProcessTasks), the arguments of Main that steer it, and the Printer
 * class that keeps its state. What one run reads from the world (the
 * platform's position, the autopilot, the back connectors, the gyros) is
 * an Observation; what it sends out (a waypoint task for the platform,
 * connector commands) is part of its result.
 */
module Printers {
  import opened Wrappers
  import opened Geometry
  import opened Waypoints
  import opened Paths
  import opened Connectors
  import opened Gyros
  import opened PrinterPaths

  /** PrinterTaskState, in its declaration order. */
  datatype TaskState =
    | ProcessStart
    | PrintLayerStage1
    | YShiftAwait
    | YShiftProcessing
    | GyroAdjust
    | GyroAdjusting
    | GyroAdjusted
    | ConstructionCompleted
    | ConstructionCompletedDock

  /** What the Printer keeps between runs, with its AutoGyro's state. */
  datatype PrinterState = PrinterState(
    taskState: TaskState,
    printerY: int,
    cancelTask: bool,
    accelerate: bool,
    gyro: GyroState)

  /**
   * What one run reads from the world: the remote control's position and
   * autopilot flag, the back connector pair as found and the statuses of
   * its two connectors after a Lock, the gyro blocks a lookup would find,
   * the angle the i-th gyro makes with its target, and Vector3D.Normalize.
   */
  datatype Observation = Observation(
    platformPos: Vec3,
    autoPilotEnabled: bool,
    backConnectors: ConnectorPair,
    backStatusAfterLock: (ConnectorStatus, ConnectorStatus),
    foundGyros: seq<Gyro>,
    gyroAngle: nat -> real,
    normalize: Vec3 -> Vec3)

  /**
   * What one run of ProcessTasks leaves: the new state, the task handed
   * to the platform (SetTask), the connector commands issued, and whether
   * the run ended in a null dereference (the script faults).
   */
  datatype StepResult = StepResult(
    next: PrinterState,
    task: Option<PathValue>,
    actions: seq<Action>,
    faulted: bool)

  /** The angles GyroMain sees: one per gyro of the list it works on. */
  function AnglesFor(g: GyroState, obs: Observation): (angles: seq<real>)
    ensures |angles| == |Lookup(g, obs.foundGyros)|
  {
    seq(|Lookup(g, obs.foundGyros)|, i requires 0 <= i => obs.gyroAngle(i))
  }

  /** The back connector pair as Connected() reads it after the Lock. */
  function AfterLock(obs: Observation): ConnectorPair {
    ConnectorPair(Some(obs.backStatusAfterLock.0), Some(obs.backStatusAfterLock.1))
  }

  /** A run that changes nothing and sends nothing. */
  function Idle(s: PrinterState): StepResult {
    StepResult(s, None, [], false)
  }

  /** The outcome of ShiftPrinterY(delta) on state s, with the state it leaves. */
  function ShiftStep(c: PrinterConfig, s: PrinterState, shiftDelta: int, pos: Vec3, actions: seq<Action>): StepResult {
    match YShiftPlan(c, s.printerY, shiftDelta, pos)
    case Refused => StepResult(s, None, actions, false)
    case Shifted(newY, path) => StepResult(s.(printerY := newY), Some(path), actions, false)
  }

  /** Process_Start: only the layer, the state and the back connectors' power are touched. */
  function StepProcessStart(c: PrinterConfig, s: PrinterState, obs: Observation): (r: StepResult)
    ensures !r.faulted && r.next.cancelTask == s.cancelTask && r.next.accelerate == s.accelerate && r.next.gyro == s.gyro
    ensures r.next.taskState == s.taskState || r.next.taskState == YShiftProcessing
    ensures r.actions == [] || r.actions == obs.backConnectors.PowerOff()
  {
    if IsYShiftSafe(c, s.printerY, obs.platformPos) then
      ShiftStep(c, s.(taskState := YShiftProcessing), c.printerHeight, obs.platformPos, obs.backConnectors.PowerOff())
    else Idle(s)
  }

  /** PrintLayer_Stage1: faults exactly without markers; otherwise at most moves on to YShift_Await. */
  function StepPrintLayer(c: PrinterConfig, s: PrinterState, obs: Observation): (r: StepResult)
    ensures r.next.printerY == s.printerY && r.next.cancelTask == s.cancelTask
    ensures r.next.accelerate == s.accelerate && r.next.gyro == s.gyro
    ensures r.actions == [] && (r.faulted <==> !c.base.HasMarkers())
    ensures r.next.taskState == s.taskState || r.next.taskState == YShiftAwait
  {
    match EndpointOriginPath(c, DataPointAmount, true, s.printerY)
    case None => StepResult(s, None, [], true)
    case Some(eo) =>
      if WithinRadius(eo.waypoints[0].ToVector(), obs.platformPos, 0.5) && !obs.autoPilotEnabled then
        var optimized := OptimizedPath(eo, c.base.GetOriginPos(), true, Some(obs.platformPos));
        StepResult(s.(taskState := YShiftAwait), Some(optimized.value), [], false)
      else Idle(s)
  }

  /** YShift_Await: the layer only ever comes down, never below 0, and no command is sent. */
  function StepYShiftAwait(c: PrinterConfig, s: PrinterState, obs: Observation): (r: StepResult)
    ensures !r.faulted && r.actions == []
    ensures r.next.cancelTask == s.cancelTask && r.next.accelerate == s.accelerate && r.next.gyro == s.gyro
    ensures s.printerY >= 0 ==> 0 <= r.next.printerY <= s.printerY
  {
    if !IsYShiftSafe(c, s.printerY, obs.platformPos) then Idle(s)
    else if s.printerY == 0 then Idle(s.(taskState := GyroAdjust))
    else
      var delta := if s.cancelTask then -s.printerY else -1;
      ShiftStep(c, s.(taskState := YShiftProcessing), delta, obs.platformPos, [])
  }

  /** YShift_Processing: nothing but the state changes, and only once the platform has arrived. */
  function StepYShiftProcessing(c: PrinterConfig, s: PrinterState, obs: Observation): (r: StepResult)
    ensures r.task.None? && r.actions == [] && !r.faulted
    ensures r.next.(taskState := s.taskState) == s
    ensures r.next.taskState != s.taskState ==>
      r.next.taskState == GyroAdjust && IsYShiftSafe(c, s.printerY, obs.platformPos) && !obs.autoPilotEnabled
  {
    if IsYShiftSafe(c, s.printerY, obs.platformPos) && !obs.autoPilotEnabled then Idle(s.(taskState := GyroAdjust))
    else Idle(s)
  }

  /** Gyro_Adjust: faults exactly without markers, sends nothing and keeps the layer. */
  function StepGyroAdjust(c: PrinterConfig, s: PrinterState, obs: Observation): (r: StepResult)
    ensures r.task.None? && r.actions == [] && (r.faulted <==> !c.base.HasMarkers())
    ensures r.next.printerY == s.printerY && r.next.cancelTask == s.cancelTask
  {
    match OriginEndpointPath(c, DataPointAmount, true, s.printerY)
    case None => StepResult(s, None, [], true)
    case Some(p) =>
      var heading := obs.normalize(Sub(obs.platformPos, p.waypoints[|p.waypoints| - 1].ToVector()));
      var aimed := s.gyro.(target := heading);
      var steered := GyroMainSpec(aimed, obs.foundGyros, AnglesFor(aimed, obs));
      Idle(s.(gyro := steered, accelerate := true, taskState := GyroAdjusting))
  }

  /** Gyro_Adjusting: only the gyros and the state change, and the target stays where Gyro_Adjust put it. */
  function StepGyroAdjusting(c: PrinterConfig, s: PrinterState, obs: Observation): (r: StepResult)
    ensures r.task.None? && r.actions == [] && !r.faulted
    ensures r.next.printerY == s.printerY && r.next.cancelTask == s.cancelTask && r.next.accelerate == s.accelerate
    ensures r.next.gyro.target == s.gyro.target
  {
    if !(s.gyro.currentAngle < s.gyro.accuracy) then
      Idle(s.(gyro := GyroMainSpec(s.gyro, obs.foundGyros, AnglesFor(s.gyro, obs))))
    else Idle(s.(taskState := GyroAdjusted))
  }

  /** Gyro_Adjusted: Accelerate is always cleared; a fault needs a layer above 0 and a missing marker. */
  function StepGyroAdjusted(c: PrinterConfig, s: PrinterState, obs: Observation): (r: StepResult)
    ensures !r.next.accelerate && r.actions == []
    ensures r.next.printerY == s.printerY && r.next.cancelTask == s.cancelTask && r.next.gyro == s.gyro
    ensures r.faulted <==> s.printerY != 0 && !c.base.HasMarkers()
  {
    var released := s.(accelerate := false);
    if s.printerY == 0 then Idle(released.(taskState := ConstructionCompletedDock))
    else
      var printing := released.(taskState := PrintLayerStage1);
      match OriginEndpointPath(c, DataPointAmount, true, s.printerY)
      case None => StepResult(printing, None, [], true)
      case Some(oe) =>
        StepResult(printing, Some(OptimizedPath(oe, c.base.GetEndpointPos(), true, Some(obs.platformPos)).value), [], false)
  }

  /** Construction_Completed_Dock: CancelTask is always cleared; a fault is exactly a missing back connector. */
  function StepDock(c: PrinterConfig, s: PrinterState, obs: Observation): (r: StepResult)
    ensures !r.next.cancelTask && r.task.None?
    ensures r.next.printerY == s.printerY && r.next.accelerate == s.accelerate && r.next.gyro == s.gyro
    ensures r.faulted <==> !obs.backConnectors.IsValid()
  {
    var cleared := s.(cancelTask := false);
    if !obs.backConnectors.IsValid() then StepResult(cleared, None, [], true)
    else
      var on := obs.backConnectors.PowerOn();
      var lock := if obs.backConnectors.Connectable() then obs.backConnectors.Lock() else [];
      if AfterLock(obs).Connected() then StepResult(cleared.(taskState := ConstructionCompleted), None, on + lock, false)
      else StepResult(cleared, None, on + lock, false)
  }

  /**
   * One run of ProcessTasks. No state sets CancelTask (only Main's
   * "cancel" does); only Process_Start and docking command the
   * connectors; only the gyro states touch the gyros or Accelerate.
   */
  function Step(c: PrinterConfig, s: PrinterState, obs: Observation): (r: StepResult)
    ensures r.next.cancelTask ==> s.cancelTask
    ensures r.actions != [] ==> s.taskState == ProcessStart || s.taskState == ConstructionCompletedDock
    ensures r.next.gyro != s.gyro ==> s.taskState == GyroAdjust || s.taskState == GyroAdjusting
    ensures r.next.accelerate != s.accelerate ==> s.taskState == GyroAdjust || s.taskState == GyroAdjusted
  {
    match s.taskState
    case ProcessStart => StepProcessStart(c, s, obs)
    case PrintLayerStage1 => StepPrintLayer(c, s, obs)
    case YShiftAwait => StepYShiftAwait(c, s, obs)
    case YShiftProcessing => StepYShiftProcessing(c, s, obs)
    case GyroAdjust => StepGyroAdjust(c, s, obs)
    case GyroAdjusting => StepGyroAdjusting(c, s, obs)
    case GyroAdjusted => StepGyroAdjusted(c, s, obs)
    case ConstructionCompletedDock => StepDock(c, s, obs)
    case ConstructionCompleted => Idle(s)
  }

  /** Main's arguments: "start" restarts the state machine, "cancel" requests the way home. */
  function ApplyArgument(s: PrinterState, argument: string): (r: PrinterState)
    ensures r.printerY == s.printerY && r.accelerate == s.accelerate && r.gyro == s.gyro
    ensures r.taskState == (if argument == "start" then ProcessStart else s.taskState)
    ensures r.cancelTask == (argument == "cancel" || s.cancelTask)
  {
    var started := if argument == "start" then s.(taskState := ProcessStart) else s;
    if argument == "cancel" then started.(cancelTask := true) else started
  }

  /** One run of Main on an initialised printer: the argument, then ProcessTasks. */
  function Tick(c: PrinterConfig, s: PrinterState, argument: string, obs: Observation): (r: StepResult)
    ensures argument == "start" ==> r == Step(c, s.(taskState := ProcessStart), obs)
    ensures argument == "cancel" ==> r == Step(c, s.(cancelTask := true), obs)
    ensures argument != "start" && argument != "cancel" ==> r == Step(c, s, obs)
  {
    Step(c, ApplyArgument(s, argument), obs)
  }

  /** One run's input. */
  datatype Input = Input(argument: string, obs: Observation)

  /**
   * Successive runs; a faulted run ends the script. CancelTask is only
   * ever set by a "cancel" argument.
   */
  function Run(c: PrinterConfig, s: PrinterState, inputs: seq<Input>): (r: PrinterState)
    ensures inputs == [] ==> r == s
    ensures !s.cancelTask && (forall i :: 0 <= i < |inputs| ==> inputs[i].argument != "cancel") ==> !r.cancelTask
    decreases |inputs|
  {
    if inputs == [] then s
    else
      var r := Tick(c, s, inputs[0].argument, inputs[0].obs);
      if r.faulted then r.next else Run(c, r.next, inputs[1..])
  }

  // ---------------------------------------------------------------------
  // Properties of one run

  /** Construction_Completed is a fixed point: nothing changes, nothing is sent. */
  lemma CompletedIsFixedPoint(c: PrinterConfig, s: PrinterState, obs: Observation)
    requires s.taskState == ConstructionCompleted
    ensures Step(c, s, obs) == StepResult(s, None, [], false)
  {
  }

  /**
   * Process_Start moves to YShift_Processing exactly when the platform
   * is at its layer's origin, even when the shift itself is refused;
   * otherwise nothing changes. A safe start climbs by PrinterHeight and
   * switches the back connectors off.
   */
  lemma ProcessStartMovesIffSafe(c: PrinterConfig, s: PrinterState, obs: Observation)
    requires s.taskState == ProcessStart
    ensures var r := Step(c, s, obs);
      && (r.next.taskState == YShiftProcessing <==> IsYShiftSafe(c, s.printerY, obs.platformPos))
      && (!IsYShiftSafe(c, s.printerY, obs.platformPos) ==> r == Idle(s))
      && (IsYShiftSafe(c, s.printerY, obs.platformPos) ==>
            && r.next.printerY == s.printerY + c.printerHeight
            && r.actions == obs.backConnectors.PowerOff()
            && (r.task.Some? <==> c.printerHeight != 0))
  {
  }

  /**
   * In YShift_Await, safe and above layer 0: the layer drops by one, or
   * to 0 when CancelTask is set, and a shift path flying Up to it is
   * sent.
   */
  lemma AwaitDescends(c: PrinterConfig, s: PrinterState, obs: Observation)
    requires s.taskState == YShiftAwait && s.printerY > 0
    requires IsYShiftSafe(c, s.printerY, obs.platformPos)
    ensures var r := Step(c, s, obs);
      && r.next.printerY == (if s.cancelTask then 0 else s.printerY - 1)
      && 0 <= r.next.printerY < s.printerY
      && r.next.taskState == YShiftProcessing
      && r.task.Some? && r.task.value.flightDirection == Up && r.task.value.pathYShift == r.next.printerY
  {
    var delta := if s.cancelTask then -s.printerY else -1;
    var plan := YShiftPlan(c, s.printerY, delta, obs.platformPos);
    YShiftPathFrame(c, s.printerY, plan.newY);
  }

  /** In YShift_Await, safe at layer 0: on to Gyro_Adjust, nothing sent. */
  lemma AwaitAtHomeAligns(c: PrinterConfig, s: PrinterState, obs: Observation)
    requires s.taskState == YShiftAwait && s.printerY == 0
    requires IsYShiftSafe(c, s.printerY, obs.platformPos)
    ensures Step(c, s, obs) == Idle(s.(taskState := GyroAdjust))
  {
  }

  /**
   * Gyro_Adjust sets Accelerate, aims the gyros from the last waypoint of
   * the current layer's path towards the platform and moves to
   * Gyro_Adjusting; with a marker missing it faults and changes nothing.
   */
  lemma GyroAdjustAccelerates(c: PrinterConfig, s: PrinterState, obs: Observation)
    requires s.taskState == GyroAdjust
    ensures var r := Step(c, s, obs);
      && (c.base.HasMarkers() ==> !r.faulted && r.next.accelerate && r.next.taskState == GyroAdjusting)
      && (c.base.HasMarkers() ==> r.next.printerY == s.printerY && r.next.cancelTask == s.cancelTask)
      && (c.base.HasMarkers() ==>
            var p := OriginEndpointPath(c, DataPointAmount, true, s.printerY).value;
            r.next.gyro.target == obs.normalize(Sub(obs.platformPos, p.waypoints[|p.waypoints| - 1].ToVector())))
      && (!c.base.HasMarkers() ==> r.faulted && r.next == s)
  {
  }

  /** Gyro_Adjusting moves on exactly when the gyro reports alignment, and only steers otherwise. */
  lemma GyroAdjustingWaitsForAlignment(c: PrinterConfig, s: PrinterState, obs: Observation)
    requires s.taskState == GyroAdjusting
    ensures var r := Step(c, s, obs);
      && (r.next.taskState == GyroAdjusted <==> s.gyro.currentAngle < s.gyro.accuracy)
      && (r.next.taskState == GyroAdjusted || r.next.taskState == GyroAdjusting)
      && r.next.printerY == s.printerY && r.task.None? && !r.faulted
  {
  }

  /**
   * Gyro_Adjusted clears Accelerate, then docks exactly at layer 0 and
   * otherwise goes back to PrintLayer_Stage1, sending the current
   * layer's origin-to-endpoint path.
   */
  lemma GyroAdjustedBranches(c: PrinterConfig, s: PrinterState, obs: Observation)
    requires s.taskState == GyroAdjusted
    ensures var r := Step(c, s, obs);
      && !r.next.accelerate
      && (r.next.taskState == ConstructionCompletedDock <==> s.printerY == 0)
      && (s.printerY != 0 ==> r.next.taskState == PrintLayerStage1)
      && (s.printerY != 0 && c.base.HasMarkers() ==> r.task.Some? && r.task.value.pathYShift == s.printerY)
  {
  }

  /**
   * Construction_Completed_Dock always clears CancelTask and completes
   * exactly when the back pair exists and both its connectors report
   * Connected after the lock.
   */
  lemma DockClearsCancel(c: PrinterConfig, s: PrinterState, obs: Observation)
    requires s.taskState == ConstructionCompletedDock
    ensures var r := Step(c, s, obs);
      && !r.next.cancelTask
      && (r.next.taskState == ConstructionCompleted <==>
            obs.backConnectors.IsValid() && obs.backStatusAfterLock.0 == Connected && obs.backStatusAfterLock.1 == Connected)
      && (r.next.taskState == ConstructionCompleted || r.next.taskState == ConstructionCompletedDock)
  {
  }

  /**
   * PrintLayer_Stage1 waits for the platform to stop at the first
   * waypoint of the return path; then it sends the part of that path
   * still closer to the origin than the platform and awaits the shift.
   */
  lemma PrintLayerReturns(c: PrinterConfig, s: PrinterState, obs: Observation)
    requires s.taskState == PrintLayerStage1 && c.base.HasMarkers()
    ensures var eo := EndpointOriginPath(c, DataPointAmount, true, s.printerY).value;
      var r := Step(c, s, obs);
      var arrived := WithinRadius(eo.waypoints[0].ToVector(), obs.platformPos, 0.5) && !obs.autoPilotEnabled;
      && (arrived ==> r.next == s.(taskState := YShiftAwait) && r.task.Some?)
      && (arrived ==> forall w :: w in r.task.value.waypoints ==> w in eo.waypoints)
      && (!arrived ==> r == Idle(s))
  {
  }

  /** A shift either leaves the layer alone or moves it by exactly delta and sends the path to the new layer. */
  lemma ShiftStepMoves(c: PrinterConfig, s: PrinterState, delta: int, pos: Vec3, actions: seq<Action>)
    ensures var r := ShiftStep(c, s, delta, pos, actions);
      && (r.next.printerY == s.printerY || r.next.printerY == s.printerY + delta)
      && r.next.taskState == s.taskState
      && (r.next.printerY != s.printerY ==> r.task.Some? && r.task.value.pathYShift == r.next.printerY)
  {
    match YShiftPlan(c, s.printerY, delta, pos)
    case Refused =>
    case Shifted(newY, path) =>
      assert path == YShiftPath(c, s.printerY, newY);
  }

  /** Every state but Process_Start and YShift_Await leaves the layer where it is. */
  lemma OtherStatesKeepLayer(c: PrinterConfig, s: PrinterState, obs: Observation)
    requires s.taskState != ProcessStart && s.taskState != YShiftAwait
    ensures Step(c, s, obs).next.printerY == s.printerY
  {
    match s.taskState
    case PrintLayerStage1 =>
    case YShiftProcessing =>
    case GyroAdjust =>
    case GyroAdjusting =>
    case GyroAdjusted =>
    case ConstructionCompletedDock =>
    case ConstructionCompleted =>
  }

  /** Only the two shifting states move the layer, and then they send the path to the new layer. */
  lemma LayerMovesOnlyWithShiftPath(c: PrinterConfig, s: PrinterState, obs: Observation)
    ensures var r := Step(c, s, obs);
      r.next.printerY != s.printerY ==>
        && (s.taskState == ProcessStart || s.taskState == YShiftAwait)
        && r.task.Some? && r.task.value.pathYShift == r.next.printerY
  {
    match s.taskState
    case ProcessStart =>
      ShiftStepMoves(c, s.(taskState := YShiftProcessing), c.printerHeight, obs.platformPos, obs.backConnectors.PowerOff());
    case YShiftAwait =>
      var delta := if s.cancelTask then -s.printerY else -1;
      ShiftStepMoves(c, s.(taskState := YShiftProcessing), delta, obs.platformPos, []);
    case _ =>
      OtherStatesKeepLayer(c, s, obs);
  }

  /** With a non-negative PrinterHeight, a run never takes the layer below 0. */
  lemma StepKeepsLayerNonNegative(c: PrinterConfig, s: PrinterState, obs: Observation)
    requires c.printerHeight >= 0 && s.printerY >= 0
    ensures Step(c, s, obs).next.printerY >= 0
  {
    match s.taskState
    case ProcessStart =>
      ShiftStepMoves(c, s.(taskState := YShiftProcessing), c.printerHeight, obs.platformPos, obs.backConnectors.PowerOff());
    case YShiftAwait =>
      var delta := if s.cancelTask then -s.printerY else -1;
      ShiftStepMoves(c, s.(taskState := YShiftProcessing), delta, obs.platformPos, []);
    case _ =>
      OtherStatesKeepLayer(c, s, obs);
  }

  // ---------------------------------------------------------------------
  // Properties of successive runs

  /** Over any sequence of runs the layer stays non-negative. */
  lemma {:induction false} RunKeepsLayerNonNegative(c: PrinterConfig, s: PrinterState, inputs: seq<Input>)
    requires c.printerHeight >= 0 && s.printerY >= 0
    ensures Run(c, s, inputs).printerY >= 0
    decreases |inputs|
  {
    if inputs != [] {
      var a := ApplyArgument(s, inputs[0].argument);
      StepKeepsLayerNonNegative(c, a, inputs[0].obs);
      var r := Tick(c, s, inputs[0].argument, inputs[0].obs);
      if !r.faulted {
        RunKeepsLayerNonNegative(c, r.next, inputs[1..]);
      }
    }
  }

  /** Once construction has completed, only a "start" argument leaves Construction_Completed. */
  lemma {:induction false} CompletedUntilStarted(c: PrinterConfig, s: PrinterState, inputs: seq<Input>)
    requires s.taskState == ConstructionCompleted
    requires forall i :: 0 <= i < |inputs| ==> inputs[i].argument != "start"
    ensures Run(c, s, inputs).taskState == ConstructionCompleted
    ensures Run(c, s, inputs).printerY == s.printerY
    decreases |inputs|
  {
    if inputs != [] {
      var a := ApplyArgument(s, inputs[0].argument);
      CompletedIsFixedPoint(c, a, inputs[0].obs);
      RunTail(inputs);
      CompletedUntilStarted(c, a, inputs[1..]);
    }
  }

  lemma RunTail(inputs: seq<Input>)
    requires inputs != []
    ensures forall i :: 0 <= i < |inputs[1..]| ==> inputs[1..][i] == inputs[i + 1]
  {
  }

  // ---------------------------------------------------------------------
  // The Printer class

  class Printer {
    const config: PrinterConfig
    const autoGyro: AutoGyro
    var printerY: int
    var accelerate: bool
    var cancelTask: bool
    var taskState: TaskState

    function State(): PrinterState
      reads this, autoGyro
    {
      PrinterState(taskState, printerY, cancelTask, accelerate, autoGyro.Value())
    }

    /**
     * The constructor: the given configuration and layer, a fresh
     * AutoGyro (found through the platform's remote control), and the
     * state machine at rest in Construction_Completed.
     */
    constructor (config: PrinterConfig, printerY: int, rcFound: bool, foundGyros: seq<Gyro>)
      ensures this.config == config && fresh(autoGyro)
      ensures State() == PrinterState(ConstructionCompleted, printerY, false, false,
                                      GyroState(if rcFound then Truncate(foundGyros, 99) else [], 0.0, Zero, rcFound, 99, 0.5, 0.01))
    {
      this.config := config;
      this.printerY := printerY;
      this.autoGyro := new AutoGyro(rcFound, foundGyros);
      this.taskState := ConstructionCompleted;
      this.accelerate := false;
      this.cancelTask := false;
    }

    method GetOriginEndpointPath(dataPointAmount: int, shiftPathToPrinterY: bool) returns (path: Path?)
      requires dataPointAmount != 0
      ensures path == null <==> !config.base.HasMarkers()
      ensures path != null ==> fresh(path) && path.Value() == OriginEndpointPath(config, dataPointAmount, shiftPathToPrinterY, printerY).value
    {
      if config.base.originMarker.None? || config.base.endpointMarker.None? {
        return null;
      }
      var direction := config.base.GetForwardDirection();
      var origin := Add(config.base.GetOriginPos(), Scale(direction, config.forwardOffset));
      var distanceBetweenPoints := config.railLength / dataPointAmount as real;
      ghost var target := Interpolated(origin, direction, distanceBetweenPoints, PointCount(dataPointAmount));
      var waypoints: seq<GpsWaypoint> := [];
      var i := 0;
      while i < dataPointAmount + 1
        invariant 0 <= i <= |target|
        invariant waypoints == target[..i]
      {
        assert target[..i + 1] == target[..i] + [target[i]];
        waypoints := waypoints + [FromVector(IntToString(i + 1), Add(origin, Scale(Scale(direction, distanceBetweenPoints), i as real)))];
        i := i + 1;
      }
      assert waypoints == target;
      path := new Path(waypoints, config.direction, config.base.GetUpDirection(), 0, PathShiftMagnitude);
      if shiftPathToPrinterY {
        path.ShiftPathAbsolute(printerY);
      }
    }

    method GetEndpointOriginPath(dataPointAmount: int, shiftPathToPrinterY: bool) returns (path: Path?)
      requires dataPointAmount != 0
      ensures path == null <==> !config.base.HasMarkers()
      ensures path != null ==> fresh(path) && path.Value() == EndpointOriginPath(config, dataPointAmount, shiftPathToPrinterY, printerY).value
    {
      path := GetOriginEndpointPath(dataPointAmount, shiftPathToPrinterY);
      if path == null {
        return null;
      }
      path.ReversePathDirection();
      path.ReverseFlightDirection();
    }

    /** OptimizePath; rcPosition is the remote control's position, None when there is none. */
    method OptimizePath(path: Path, targetPosition: Vec3, shiftTargetPosition: bool, rcPosition: Option<Vec3>) returns (r: Path?)
      ensures r == null <==> rcPosition.None?
      ensures r != null ==> fresh(r) && r.Value() == OptimizedPath(path.Value(), targetPosition, shiftTargetPosition, rcPosition).value
    {
      var target := targetPosition;
      if shiftTargetPosition {
        target := Add(targetPosition, Scale(path.up, path.shiftMagnitude * path.pathYShift as real));
      }
      assert target == OptimizeTarget(path.Value(), targetPosition, shiftTargetPosition);
      if rcPosition.None? {
        return null;
      }
      var relevant := CloserWaypoints(path.waypoints, target, rcPosition.value);
      r := new Path(relevant, path.flightDirection, path.up, path.pathYShift, path.shiftMagnitude);
    }

    /** The foreach of OptimizePath: the waypoints closer to the target than the platform, in order. */
    static method CloserWaypoints(ws: seq<GpsWaypoint>, target: Vec3, platform: Vec3) returns (relevant: seq<GpsWaypoint>)
      ensures relevant == KeepCloser(ws, target, platform)
    {
      relevant := [];
      var i := 0;
      while i < |ws|
        invariant 0 <= i <= |ws|
        invariant relevant == KeepCloser(ws[..i], target, platform)
      {
        assert ws[..i + 1] == ws[..i] + [ws[i]];
        KeepCloserAppend(ws[..i], [ws[i]], target, platform);
        KeepCloserSingle(ws[i], target, platform);
        if Closer(ws[i], target, platform) {
          relevant := relevant + [ws[i]];
        }
        i := i + 1;
      }
      assert ws[..i] == ws;
    }

    /**
     * ShiftPrinterY(delta) with the platform at platformPos: the plan's
     * verdict, the task it sends and the layer it leaves.
     */
    method ShiftPrinterY(shiftDelta: int, platformPos: Vec3) returns (shifted: bool, task: Option<PathValue>)
      modifies this
      ensures var plan := YShiftPlan(config, old(printerY), shiftDelta, platformPos);
        && shifted == plan.Shifted?
        && task == (if plan.Shifted? then Some(plan.path) else None)
        && printerY == (if plan.Shifted? then plan.newY else old(printerY))
      ensures taskState == old(taskState) && cancelTask == old(cancelTask) && accelerate == old(accelerate)
    {
      if !IsYShiftSafe(config, printerY, platformPos) {
        return false, None;
      }
      var newY := printerY + shiftDelta;
      if newY == printerY {
        return false, None;
      }
      var path := ShiftPath(config, printerY, newY);
      printerY := newY;
      return true, Some(path.Value());
    }

    /** The waypoints and the Path ShiftPrinterY builds for a move from layer printerY to layer newY. */
    static method ShiftPath(config: PrinterConfig, printerY: int, newY: int) returns (path: Path)
      requires newY != printerY
      ensures fresh(path) && path.Value() == YShiftPath(config, printerY, newY)
    {
      var hitboxSafeDistance := HitboxSafeDistance(config);
      var originSafe := FromVector("yshift_origin_safe", Add(LayerOrigin(config, printerY), hitboxSafeDistance));
      var layers := LayerSteps(config, printerY, newY);
      var direction := if printerY < newY then Down else Up;
      // The source builds the Path before appending the last waypoint, on the same list, so the path ends with it.
      var endpointSafe := FromVector("yshift_endpoint_safe", LayerOrigin(config, newY));
      path := new Path([originSafe] + layers + [endpointSafe], direction, config.base.GetUpDirection(), newY, PathShiftMagnitude);
    }

    /**
     * The counting loops of ShiftPrinterY: one waypoint per layer index
     * from `from` to `to` inclusive, upwards or downwards.
     */
    static method LayerSteps(config: PrinterConfig, from: int, to: int) returns (waypoints: seq<GpsWaypoint>)
      requires from != to
      ensures waypoints == LayerWaypoints(config, from, to)
    {
      if from < to {
        waypoints := RisingSteps(config, from, to);
      } else {
        waypoints := FallingSteps(config, from, to);
      }
    }

    /** The counting loop from the old layer up to the new one. */
    static method RisingSteps(config: PrinterConfig, from: int, to: int) returns (waypoints: seq<GpsWaypoint>)
      requires from < to
      ensures waypoints == LayerWaypoints(config, from, to)
    {
      var hitboxSafeDistance := HitboxSafeDistance(config);
      waypoints := [];
      var i := from;
      while i < to + 1
        invariant from <= i <= to + 1
        invariant waypoints == LayerPrefix(config, from, to, i - from)
      {
        LayerPrefixStep(config, from, to, i - from, i, waypoints);
        var localOrigin := Add(LayerOrigin(config, i), hitboxSafeDistance);
        waypoints := waypoints + [FromVector(IntToString(i), localOrigin)];
        i := i + 1;
      }
    }

    /** The counting loop from the old layer down to the new one. */
    static method FallingSteps(config: PrinterConfig, from: int, to: int) returns (waypoints: seq<GpsWaypoint>)
      requires from > to
      ensures waypoints == LayerWaypoints(config, from, to)
    {
      var hitboxSafeDistance := HitboxSafeDistance(config);
      waypoints := [];
      var i := from;
      while i > to - 1
        invariant to - 1 <= i <= from
        invariant waypoints == LayerPrefix(config, from, to, from - i)
      {
        LayerPrefixStep(config, from, to, from - i, i, waypoints);
        var localOrigin := Add(LayerOrigin(config, i), hitboxSafeDistance);
        waypoints := waypoints + [FromVector(IntToString(i), localOrigin)];
        i := i - 1;
      }
    }

    /** ProcessTasks: one step of the state machine, as Step describes it. */
    method ProcessTasks(obs: Observation) returns (task: Option<PathValue>, actions: seq<Action>, faulted: bool)
      modifies this, autoGyro
      ensures StepResult(State(), task, actions, faulted) == Step(config, old(State()), obs)
    {
      match taskState
      case ProcessStart => task, actions, faulted := ProcessStartCase(obs);
      case PrintLayerStage1 => task, actions, faulted := PrintLayerCase(obs);
      case YShiftAwait => task, actions, faulted := YShiftAwaitCase(obs);
      case YShiftProcessing =>
        task, actions, faulted := None, [], false;
        if IsYShiftSafe(config, printerY, obs.platformPos) && !obs.autoPilotEnabled {
          taskState := GyroAdjust;
        }
      case GyroAdjust => task, actions, faulted := GyroAdjustCase(obs);
      case GyroAdjusting =>
        task, actions, faulted := None, [], false;
        if !autoGyro.IsAligned() {
          autoGyro.GyroMain(obs.foundGyros, AnglesFor(autoGyro.Value(), obs));
          return;
        }
        taskState := GyroAdjusted;
      case GyroAdjusted => task, actions, faulted := GyroAdjustedCase(obs);
      case ConstructionCompletedDock => task, actions, faulted := DockCase(obs);
      case ConstructionCompleted => task, actions, faulted := None, [], false;
    }

    method ProcessStartCase(obs: Observation) returns (task: Option<PathValue>, actions: seq<Action>, faulted: bool)
      requires taskState == ProcessStart
      modifies this
      ensures StepResult(State(), task, actions, faulted) == StepProcessStart(config, old(State()), obs)
    {
      task, actions, faulted := None, [], false;
      if IsYShiftSafe(config, printerY, obs.platformPos) {
        actions := obs.backConnectors.PowerOff();
        taskState := YShiftProcessing;
        var shifted, sent := ShiftPrinterY(config.printerHeight, obs.platformPos);
        task := sent;
      }
    }

    method PrintLayerCase(obs: Observation) returns (task: Option<PathValue>, actions: seq<Action>, faulted: bool)
      requires taskState == PrintLayerStage1
      modifies this
      ensures StepResult(State(), task, actions, faulted) == StepPrintLayer(config, old(State()), obs)
    {
      task, actions, faulted := None, [], false;
      var eo := GetEndpointOriginPath(DataPointAmount, true);
      if eo == null {
        faulted := true;
        return;
      }
      if WithinRadius(eo.waypoints[0].ToVector(), obs.platformPos, 0.5) && !obs.autoPilotEnabled {
        taskState := YShiftAwait;
        var returnPath := GetEndpointOriginPath(DataPointAmount, true);
        var pathEo := OptimizePath(returnPath, config.base.GetOriginPos(), true, Some(obs.platformPos));
        task := Some(pathEo.Value());
      }
    }

    method YShiftAwaitCase(obs: Observation) returns (task: Option<PathValue>, actions: seq<Action>, faulted: bool)
      requires taskState == YShiftAwait
      modifies this
      ensures StepResult(State(), task, actions, faulted) == StepYShiftAwait(config, old(State()), obs)
    {
      task, actions, faulted := None, [], false;
      if !IsYShiftSafe(config, printerY, obs.platformPos) {
        return;
      }
      if printerY == 0 {
        taskState := GyroAdjust;
        return;
      }
      var shifted, sent;
      if cancelTask {
        shifted, sent := ShiftPrinterY(-printerY, obs.platformPos);
      } else {
        shifted, sent := ShiftPrinterY(-1, obs.platformPos);
      }
      task := sent;
      taskState := YShiftProcessing;
    }

    method GyroAdjustCase(obs: Observation) returns (task: Option<PathValue>, actions: seq<Action>, faulted: bool)
      requires taskState == GyroAdjust
      modifies this, autoGyro
      ensures StepResult(State(), task, actions, faulted) == StepGyroAdjust(config, old(State()), obs)
    {
      task, actions, faulted := None, [], false;
      var p := GetOriginEndpointPath(DataPointAmount, true);
      if p == null {
        faulted := true;
        return;
      }
      var direction := obs.normalize(Sub(obs.platformPos, p.waypoints[|p.waypoints| - 1].ToVector()));
      autoGyro.SetTarget(direction);
      accelerate := true;
      autoGyro.GyroMain(obs.foundGyros, AnglesFor(autoGyro.Value(), obs));
      taskState := GyroAdjusting;
    }

    method GyroAdjustedCase(obs: Observation) returns (task: Option<PathValue>, actions: seq<Action>, faulted: bool)
      requires taskState == GyroAdjusted
      modifies this
      ensures StepResult(State(), task, actions, faulted) == StepGyroAdjusted(config, old(State()), obs)
    {
      task, actions, faulted := None, [], false;
      accelerate := false;
      if printerY == 0 {
        taskState := ConstructionCompletedDock;
        return;
      }
      taskState := PrintLayerStage1;
      var oe := GetOriginEndpointPath(DataPointAmount, true);
      if oe == null {
        faulted := true;
        return;
      }
      var pathOe := OptimizePath(oe, config.base.GetEndpointPos(), true, Some(obs.platformPos));
      task := Some(pathOe.Value());
    }

    method DockCase(obs: Observation) returns (task: Option<PathValue>, actions: seq<Action>, faulted: bool)
      requires taskState == ConstructionCompletedDock
      modifies this
      ensures StepResult(State(), task, actions, faulted) == StepDock(config, old(State()), obs)
    {
      task, actions, faulted := None, [], false;
      cancelTask := false;
      if !obs.backConnectors.IsValid() {
        faulted := true;
        return;
      }
      actions := obs.backConnectors.PowerOn();
      if obs.backConnectors.Connectable() {
        actions := actions + obs.backConnectors.Lock();
      }
      if AfterLock(obs).Connected() {
        taskState := ConstructionCompleted;
      }
    }

    /** Main on an initialised printer: apply the argument, then run ProcessTasks. */
    method Run(argument: string, obs: Observation) returns (task: Option<PathValue>, actions: seq<Action>, faulted: bool)
      modifies this, autoGyro
      ensures StepResult(State(), task, actions, faulted) == Tick(config, old(State()), argument, obs)
    {
      if argument == "start" {
        taskState := ProcessStart;
      }
      if argument == "cancel" {
        cancelTask := true;
      }
      task, actions, faulted := ProcessTasks(obs);
    }
  }
}
