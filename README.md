# Platform printer: a Dafny model

This project models the control script of a Space Engineers "printer": a
programmable-block script (`Platform/Main.cs`) that flies a welding
platform along a rail between two marker blocks, one layer at a time,
climbing or descending between layers, and finally re-aligns and docks
the platform. The model covers:

- **MyGPSWaypoint**: its constructors and their `IsEmpty` handling, and
  the colon-delimited `GPS:<name>:<x>:<y>:<z>:` record written by
  `Serialize` and read by `Deserialize` (module `Waypoints`).
- **ConnectorPair**: the `Connected` and `Connectable` status predicates,
  the constructor that keeps a pair only when both connectors exist, and
  the `IsValid` guard of `Lock`, `Unlock`, `PowerOn` and `PowerOff`
  (module `Connectors`).
- **MyAutoGyro**: the gyro list cut to `MaxGyroAmount`, `GyrosOff`, the
  control flow of `GyroMain` with each gyro's angle to the target given as
  an input, the clamped control rate, `IsAligned` and `SetTarget`
  (module `Gyros`, class `AutoGyro`).
- **Path**: reversal of the waypoint order, which also bumps the layer
  index, the flight-direction flip, and the absolute and relative layer
  shifts in their in-place and static forms (module `Paths`, class `Path`).
- **The Printer's geometry**: the numbered waypoints along the rail
  (`GetOriginEndpointPath`, `GetEndpointOriginPath`), the order-keeping
  filter `OptimizePath`, the layer-origin check `IsYShiftSafe` and the
  vertical-shift path built by `ShiftPrinterY` (module `PrinterPaths`).
- **The task state machine**: `Printer.ProcessTasks` over
  `PrinterTaskState`, one step per run, driven by the `start` and `cancel`
  arguments of `Main` (module `Printers`, class `Printer`).

Each part that changes state in place is a class whose methods are proved
against a pure specification function: `Path` against `PathValue`
functions, `AutoGyro` against `GyroMainSpec`, and `Printer.ProcessTasks`
against `Step`. The properties are proved as lemmas about those
functions.

Positions are exact real triples. Every distance comparison in the
source (`Distance < 0.5`, `Distance(a, t) < Distance(b, t)`) is stated on
squared distances, which order points the same way. What a run reads from
the game is an `Observation` parameter:

- the remote control's position and autopilot flag;
- the back connector pair and its statuses after a lock;
- the gyro blocks a lookup would find;
- each gyro's angle to the target;
- vector normalisation.

What a run sends out is part of its result:

- the waypoint path handed to the platform;
- the connector commands;
- whether the run ended in a null dereference.

## Model

| member | source | states |
|---|---|---|
| Waypoints.Empty | Platform/Main.cs:286-289 | the parameterless constructor is the only one that marks a waypoint empty; its position is zero and its name null (`""`) |
| Waypoints.FromCoordinates | Platform/Main.cs:277-284 | the (x, y, z, name) constructor stores exactly its arguments and marks the waypoint non-empty |
| Waypoints.FromVector | Platform/Main.cs:291-297 | the (name, vector) constructor stores the name and position, and IsEmpty keeps its default, false |
| Waypoints.Serialize | Platform/Main.cs:243-246 | a record is at least five characters long and always ends with the ':' separator |
| Waypoints.Split | Platform/Main.cs:256 | `Split(':')` yields one field more than there are colons, and no field contains a colon |
| Waypoints.JoinSplit | Platform/Main.cs:256 | joining the fields with the separator gives back the original string, so Split loses nothing |
| Waypoints.ParseFields | Platform/Main.cs:258-263 | the field checks succeed exactly when field 0 is "GPS" and fields 2-4 parse; the result holds field 1 as the name and the three parsed numbers, still marked empty |
| Waypoints.Deserialize | Platform/Main.cs:253-264 | a result exists only for exactly five fields, and is then the field check's verdict; every result is marked empty because it comes from the parameterless constructor |
| Waypoints.FromString | Platform/Main.cs:266-275 | the string constructor never yields an empty-marked waypoint; a successful parse gives the parsed waypoint, and a failed one leaves the zero position and a null name, still not marked empty |
| Waypoints.SerializeNeverDeserializes | Platform/Main.cs:243-264 | for every waypoint and number format, Deserialize rejects what Serialize writes, and the string constructor yields the default object |
| Waypoints.DeserializeTerminated | Platform/Main.cs:253-264 | the corrected reader accepts only six fields whose last is empty, and then gives the field check's verdict |
| Waypoints.FromStringTerminated | Platform/Main.cs:266-275 | the string constructor over the corrected reader never yields an empty-marked waypoint; a successful parse gives the parsed waypoint, and a failed one the zero position and a null name |
| Waypoints.SplitSerialized | Platform/Main.cs:243-246 | a record whose name and numbers hold no colon splits into "GPS", the name, the three numbers and an empty sixth field |
| Waypoints.SerializeRoundTrip | Platform/Main.cs:243-275 | with the corrected reader, a waypoint written by Serialize reads back equal to itself (marked empty by Deserialize, non-empty by the string constructor), given colon-free parts and a parse that undoes the format |
| Connectors.ConnectorPair.Connected | Platform/Main.cs:324-332 | both connectors Connected implies that the pair is Connectable |
| Connectors.ConnectorPair.Connectable | Platform/Main.cs:328-332 | the pair is connectable exactly when neither connector is Unconnected |
| Connectors.ConnectorPair.Guarded | Platform/Main.cs:333-356 | Lock, Unlock, PowerOn and PowerOff issue commands exactly when the pair is valid: the command to the left connector, then the right one |
| Connectors.NewConnectorPair | Platform/Main.cs:316-323 | the pair is valid exactly when both connectors exist; a valid pair keeps them, and an invalid one keeps neither |
| Gyros.Truncate | Platform/Main.cs:113-114 | the gyro list is cut to at most MaxGyroAmount gyros; it is unchanged when short enough, and is always a prefix of what was found |
| Gyros.ControlRate | Platform/Main.cs:181-183 | the commanded rate is at least 0.01 and at most the gyro's maximum when that maximum is at least 0.01; inside those bounds it is the proportional rate itself, it is the maximum when the proportional rate reaches it, and 0.01 when the proportional rate or the maximum is at most 0.01 |
| Gyros.GyroMainSpec | Platform/Main.cs:121-199 | with no gyros nothing changes; with no remote control or no target every override is off; otherwise a gyro's override is on exactly when its angle is at least the accuracy, each gyro keeps its maximum rate, an overridden gyro runs at the clamped control rate of its angle and a released one keeps its rate, and CurrentAngle ends as the last gyro's angle; the gyro count and the settings are kept |
| Gyros.AlignedIsLastGyro | Platform/Main.cs:200-203 | after a steering pass, `IsAligned(t)` holds exactly when the last gyro's angle is below t |
| Gyros.AutoGyro.constructor | Platform/Main.cs:212-233 | the defaults of Init (99 gyros, coefficient 0.5, accuracy 0.01, no target), then the gyro lookup only when a remote control was found |
| Gyros.AutoGyro.UpdateGyroList | Platform/Main.cs:110-115 | the list becomes the found gyros cut to MaxGyroAmount, and nothing else changes |
| Gyros.AutoGyro.GyrosOff | Platform/Main.cs:116-120 | every gyro's override is released, and nothing else changes |
| Gyros.AutoGyro.GyroMain | Platform/Main.cs:121-199 | the loop leaves exactly the state GyroMainSpec describes |
| Gyros.AutoGyro.SetTarget | Platform/Main.cs:208-211 | only the target direction changes |
| Geometry.Opposite | Platform/Main.cs:766 | GetOppositeDirection never answers the direction it is given |
| Geometry.OppositeInvolution | Platform/Main.cs:766 | the opposite of the opposite is the original direction |
| Paths.ReverseReverse | Platform/Main.cs:771 | reversing a list twice gives back the list |
| Paths.ShiftAbsoluteMoves | Platform/Main.cs:778-790 | the instance shift keeps the names, count and order of the waypoints and every other attribute, sets PathYShift, and moves every waypoint by Up·ShiftMagnitude·(old PathYShift − shift) |
| Paths.ShiftAbsoluteCompose | Platform/Main.cs:773-790 | shifting to layer a and then to layer b gives the same waypoints as shifting straight to b |
| Paths.ShiftAbsoluteIdempotent | Platform/Main.cs:778-790 | a second shift to the same layer changes nothing |
| Paths.ShiftThereAndBack | Platform/Main.cs:778-790 | shifting away and back to the original layer restores every waypoint's position and name |
| Paths.StaticShiftOpposesInstance | Platform/Main.cs:798-809 | the static shift moves every waypoint by Up·ShiftMagnitude·(shift − old PathYShift): the instance shift's displacement negated |
| Paths.ReverseTwice | Platform/Main.cs:768-772 | reversing a path twice restores the order but leaves PathYShift two higher, so the path is never restored |
| Paths.FlipFlightTwice | Platform/Main.cs:764-767 | flipping the flight direction always changes it, and flipping twice is the identity |
| Paths.Path.constructor | Platform/Main.cs:756-763 | the path holds exactly its arguments, with layer 0 and magnitude 2.5 by default |
| Paths.Path.ReverseFlightDirection | Platform/Main.cs:764-767 | only the flight direction changes, to its opposite |
| Paths.Path.ReversePathDirection | Platform/Main.cs:768-772 | the waypoint order is reversed and PathYShift grows by one |
| Paths.Path.ShiftPathRelative | Platform/Main.cs:773-777 | a relative shift by d is the absolute shift to PathYShift + d |
| Paths.Path.ShiftPathAbsolute | Platform/Main.cs:778-790 | the loop leaves the path the instance shift describes |
| Paths.Path.ShiftedPathRelative | Platform/Main.cs:792-796 | a fresh path, the static absolute shift to PathYShift + d |
| Paths.Path.ShiftedPathAbsolute | Platform/Main.cs:798-809 | a fresh path that the static shift describes, with the argument untouched |
| PrinterPaths.NatToStringInjective | Platform/Main.cs:572 | distinct naturals are written differently |
| PrinterPaths.IntToStringSign | Platform/Main.cs:624 | a written integer starts with '-' exactly when it is negative |
| PrinterPaths.IntToStringInjective | Platform/Main.cs:572 | distinct integers are written differently, so numbered waypoints have distinct names |
| PrinterPaths.OriginEndpointPath | Platform/Main.cs:563-577 | no path exactly when a marker is missing; otherwise n + 1 waypoints, at layer printerY or 0 depending on the flag, in the printer's flight direction, with the base's Up axis and magnitude 2.5 |
| PrinterPaths.EndpointOriginPath | Platform/Main.cs:578-584 | no path exactly when a marker is missing; otherwise as many waypoints as the origin-to-endpoint path |
| PrinterPaths.OriginEndpointAt | Platform/Main.cs:567-576 | waypoint i is named i + 1, is not marked empty, and lies at the rail origin plus i rail steps plus the offset of the path's layer |
| PrinterPaths.OriginEndpointShape | Platform/Main.cs:567-576 | the same, for all n + 1 waypoints at once |
| PrinterPaths.OriginEndpointSpacing | Platform/Main.cs:569-572 | consecutive waypoints are exactly one rail step, forward·(railLength / n), apart |
| PrinterPaths.OriginEndpointEnds | Platform/Main.cs:566-572 | an unshifted path starts at the rail origin and ends railLength along the origin marker's forward axis |
| PrinterPaths.OriginEndpointReachesEndpoint | Platform/Main.cs:566-572 | when railLength is the distance between the markers and the endpoint marker lies ahead on the origin's unit forward axis, the last waypoint of an unshifted path is the endpoint marker |
| PrinterPaths.EndpointOriginIsReversed | Platform/Main.cs:578-584 | the endpoint-to-origin path is the origin-to-endpoint list reversed, one layer higher, flying the opposite way |
| PrinterPaths.KeepCloser | Platform/Main.cs:591-593 | a waypoint is kept exactly when it is in the path and strictly closer to the target than the platform; the result is no longer than the path |
| PrinterPaths.KeepCloserAppend | Platform/Main.cs:592-593 | filtering a concatenation is concatenating the filtered parts, so the filter keeps the original order |
| PrinterPaths.KeepCloserAtTarget | Platform/Main.cs:593 | a platform standing on the target keeps no waypoint |
| PrinterPaths.OptimizedPath | Platform/Main.cs:585-595 | no path exactly when there is no remote control; otherwise exactly the waypoints KeepCloser keeps, those closer to the (optionally layer-shifted) target than the platform, with flight direction, Up, PathYShift and magnitude kept |
| PrinterPaths.LayerDropIsProduct | Platform/Main.cs:598 | the layer offset built by repeated addition is the source's product Up·(ShiftMagnitude·(y·−1)) |
| PrinterPaths.LayerOriginStep | Platform/Main.cs:598 | the origin of layer y + 1 is ShiftMagnitude below that of layer y along Up |
| PrinterPaths.SafeOnlyAtOwnLayer | Platform/Main.cs:596-601 | IsYShiftSafe holds for a platform at its layer's origin; with a unit Up axis and layers at least 0.5 apart, the same position is not safe for the layer above or below |
| PrinterPaths.LayerWaypoints | Platform/Main.cs:619-636 | the counting loops produce one waypoint per layer from the old one to the new one inclusive |
| PrinterPaths.LayerPrefixAt | Platform/Main.cs:619-636 | after k rounds of the counting loop, entry j is the waypoint of the j-th layer visited |
| PrinterPaths.LayerWaypointsAt | Platform/Main.cs:619-636 | the k-th layer waypoint is named by its layer index and lies at that layer's origin plus the hitbox safe distance |
| PrinterPaths.LayerWaypointsEnds | Platform/Main.cs:619-636 | the layer waypoints start with the old layer's number and end with the new layer's |
| PrinterPaths.YShiftPlan | Platform/Main.cs:602-645 | the shift is refused exactly when the platform is not within 0.5 of the current layer's origin or the delta is 0; otherwise the new layer is the old one plus delta and the shift path is sent |
| PrinterPaths.YShiftPathFrame | Platform/Main.cs:610-639 | the shift path has PathYShift equal to the new layer, flies Down exactly when the layer index rises, holds abs(delta) + 3 waypoints, and starts and ends with the named safe points at the old and new layer origins |
| PrinterPaths.YShiftPathLayers | Platform/Main.cs:618-639 | between the two safe points the shift path holds exactly the layer waypoints from the old layer to the new one |
| Printers.ApplyArgument | Platform/Main.cs:57-65 | "start" restarts at Process_Start, "cancel" sets CancelTask, and nothing else changes |
| Printers.StepProcessStart | Platform/Main.cs:650-660 | Process_Start never faults, keeps CancelTask, Accelerate and the gyro, either stays or moves to YShift_Processing, and at most powers the back connectors off |
| Printers.StepPrintLayer | Platform/Main.cs:661-669 | PrintLayer_Stage1 faults exactly when a marker is missing, sends no connector command, keeps the layer, the flags and the gyro, and either stays or moves to YShift_Await |
| Printers.StepYShiftAwait | Platform/Main.cs:670-683 | YShift_Await never faults or commands connectors, keeps the flags and the gyro, and from a non-negative layer only lowers it, never below 0 |
| Printers.StepYShiftProcessing | Platform/Main.cs:684-686 | YShift_Processing sends nothing and changes only the state, and only to Gyro_Adjust when the platform is at the layer origin with autopilot off |
| Printers.StepGyroAdjust | Platform/Main.cs:687-698 | Gyro_Adjust sends nothing, faults exactly when a marker is missing, and keeps the layer and CancelTask |
| Printers.StepGyroAdjusting | Platform/Main.cs:699-707 | Gyro_Adjusting sends nothing, never faults, and keeps the layer, both flags and the gyro target |
| Printers.StepGyroAdjusted | Platform/Main.cs:708-722 | Gyro_Adjusted always clears Accelerate, sends no connector command, keeps the layer, CancelTask and the gyro, and faults exactly when the layer is not 0 and a marker is missing |
| Printers.StepDock | Platform/Main.cs:723-730 | docking always clears CancelTask, sends no path, keeps the layer, Accelerate and the gyro, and faults exactly when the back connector pair is invalid |
| Printers.Step | Platform/Main.cs:646-735 | no state sets CancelTask; only Process_Start and docking command connectors; only the gyro states change the gyro or Accelerate |
| Printers.Tick | Platform/Main.cs:57-67 | Main runs one step after "start" has reset the state to Process_Start or "cancel" has set CancelTask; any other argument runs the step on the state as it is |
| Printers.Run | Platform/Main.cs:44-67 | no inputs leave the state unchanged, and CancelTask is never set over runs none of whose arguments is "cancel" |
| Printers.CompletedIsFixedPoint | Platform/Main.cs:731-733 | Construction_Completed changes nothing and sends nothing |
| Printers.ProcessStartMovesIffSafe | Platform/Main.cs:650-660 | Process_Start moves to YShift_Processing exactly when the shift is safe, even if the shift itself then fails; a safe start climbs PrinterHeight layers and powers the back connectors off; an unsafe one changes nothing |
| Printers.AwaitDescends | Platform/Main.cs:670-683 | in YShift_Await, when safe and above layer 0, the layer drops by one, or to 0 when cancelling, never below 0, and an upward shift path to the new layer is sent |
| Printers.AwaitAtHomeAligns | Platform/Main.cs:670-676 | in YShift_Await, when safe at layer 0, the machine moves on to Gyro_Adjust and sends nothing |
| Printers.GyroAdjustAccelerates | Platform/Main.cs:688-698 | Gyro_Adjust sets Accelerate, aims the gyro at the normalised direction from the layer path's last waypoint to the platform, and moves on to Gyro_Adjusting, keeping the layer; with a marker missing it faults and changes nothing |
| Printers.GyroAdjustingWaitsForAlignment | Platform/Main.cs:699-707 | Gyro_Adjusting moves on to Gyro_Adjusted exactly when the gyro reports alignment, and otherwise keeps steering |
| Printers.GyroAdjustedBranches | Platform/Main.cs:708-722 | Gyro_Adjusted clears Accelerate, then docks exactly at layer 0, and otherwise prints the layer, sending the path at the current layer |
| Printers.DockClearsCancel | Platform/Main.cs:723-730 | docking always clears CancelTask and completes exactly when both back connectors report Connected |
| Printers.PrintLayerReturns | Platform/Main.cs:661-669 | PrintLayer_Stage1 waits until the platform has stopped at the return path's first waypoint, then sends waypoints of that path and awaits the shift |
| Printers.ShiftStepMoves | Platform/Main.cs:602-645 | a shift leaves the layer alone or moves it by exactly delta, and a move always sends a path to the new layer |
| Printers.OtherStatesKeepLayer | Platform/Main.cs:646-735 | every state except Process_Start and YShift_Await leaves the layer unchanged |
| Printers.LayerMovesOnlyWithShiftPath | Platform/Main.cs:646-735 | the layer changes only in the two shifting states, and then a path to the new layer is sent |
| Printers.StepKeepsLayerNonNegative | Platform/Main.cs:646-735 | with a non-negative PrinterHeight, a run never takes the layer below 0 |
| Printers.RunKeepsLayerNonNegative | Platform/Main.cs:44-67 | over any sequence of runs the layer stays non-negative |
| Printers.CompletedUntilStarted | Platform/Main.cs:57-67 | once construction has completed, only a "start" argument leaves Construction_Completed, and the layer does not move |
| Printers.Printer.constructor | Platform/Main.cs:542-562 | the printer starts in Construction_Completed at the given layer, with a fresh AutoGyro and both flags clear |
| Printers.Printer.GetOriginEndpointPath | Platform/Main.cs:563-577 | the loop builds exactly the path OriginEndpointPath describes, or null when a marker is missing |
| Printers.Printer.GetEndpointOriginPath | Platform/Main.cs:578-584 | exactly the path EndpointOriginPath describes, or null when a marker is missing |
| Printers.Printer.OptimizePath | Platform/Main.cs:585-595 | exactly the path OptimizedPath describes, or null without a remote control |
| Printers.Printer.CloserWaypoints | Platform/Main.cs:591-593 | the foreach keeps exactly the waypoints KeepCloser keeps, in order |
| Printers.Printer.ShiftPrinterY | Platform/Main.cs:602-645 | the verdict, the task sent and the new layer are those of YShiftPlan; the other fields are kept |
| Printers.Printer.ShiftPath | Platform/Main.cs:610-639 | the path built, including the endpoint waypoint appended after the Path captured the list, is YShiftPath |
| Printers.Printer.LayerSteps | Platform/Main.cs:619-638 | the counting loops build exactly LayerWaypoints |
| Printers.Printer.RisingSteps | Platform/Main.cs:619-627 | the upward loop builds exactly LayerWaypoints |
| Printers.Printer.FallingSteps | Platform/Main.cs:629-637 | the downward loop builds exactly LayerWaypoints |
| Printers.Printer.ProcessTasks | Platform/Main.cs:646-735 | one run leaves the state, task, connector commands and fault that Step describes |
| Printers.Printer.ProcessStartCase | Platform/Main.cs:650-660 | the Process_Start branch agrees with its step function |
| Printers.Printer.PrintLayerCase | Platform/Main.cs:661-669 | the PrintLayer_Stage1 branch agrees with its step function |
| Printers.Printer.YShiftAwaitCase | Platform/Main.cs:670-683 | the YShift_Await branch agrees with its step function |
| Printers.Printer.GyroAdjustCase | Platform/Main.cs:688-698 | the Gyro_Adjust branch agrees with its step function |
| Printers.Printer.GyroAdjustedCase | Platform/Main.cs:708-722 | the Gyro_Adjusted branch agrees with its step function |
| Printers.Printer.DockCase | Platform/Main.cs:723-730 | the Construction_Completed_Dock branch agrees with its step function |
| Printers.Printer.Run | Platform/Main.cs:44-67 | Main on an initialised printer applies the argument and then runs one step |

## Left out

- Floating point: positions, distances and rates are exact reals. The
  single-precision `Vector3` conversions in `OptimizePath`,
  `ShiftPrinterY` and the `MyGPSWaypoint(string, Vector3)` constructor
  are not modelled.
- Square roots: the rail length `Vector3.Distance(origin, endpoint)` is
  the configuration field `railLength`, and `Vector3D.Normalize` in
  Gyro_Adjust is part of the observation.
- PrinterPaths.OriginEndpointEnds: the configuration does not tie
  `railLength` to the markers. The predicate RailMeasured states that tie,
  and OriginEndpointReachesEndpoint assumes it, plus an endpoint marker
  on the origin's unit forward axis. The source's origin-to-endpoint
  direction is the origin marker's forward axis, which need not point at
  the endpoint marker.
- The angle computation of `GyroMain` (`Platform/Main.cs:145-174`) is not
  modelled: the orientation matrices, `Cross`, `Dot` and `Atan2`, and the
  mode that picks the "down" axis. Each gyro's angle is an input.
- The gyros' physical rotation is not modelled: the per-axis
  `SetValueFloat` values and the normalised rotation vector. A gyro
  records only the magnitude of its commanded rate.
- Side effects on the game are not modelled: `GyroPower`,
  `UpdateFrequency`, `Echo`, and the connector `Connect`/`ApplyAction`
  calls. The latter appear only as the commands a run issues.
- `PrinterPlatform` (`SetTask`, `CancelTask`, `GetCurrentWaypoints`) is
  not part of this model. The path a run hands to `SetTask` is its
  result.
- `Program.Initialize` and the printer's re-initialisation in `Main`
  (`Platform/Main.cs:17-56`) are not modelled. The model starts from an
  initialised printer.
- The block lookups through `GridTerminalSystem` in the constructors are
  not modelled. The gyros found are an input; markers and connectors are
  present or absent.
- `PrinterBase.GetPrinterLength` is not used by the modelled code.
- The implicit conversions to and from `MyWaypointInfo` are not part of
  this model.
- `double.ToString` and `double.TryParse` are the parameters `format`
  and `parse`. `int.ToString` is decimal, with a leading '-'.
- A null waypoint name is the empty string.
- 32-bit wrap-around of `PrinterY + shiftDelta` and of the loop counters
  is not modelled. Layer numbers are unbounded integers.
- PrinterPaths.OriginEndpointPath: requires a non-zero point count.
  The source's division by zero would yield a floating-point infinity,
  which the reals cannot express. The state machine always uses 10.
- Printers.Printer.GetEndpointOriginPath: returns null when a marker is
  missing. The source dereferences the null path there and faults. The
  state machine turns that case into a faulted run.
- Gyros.AutoGyro.IsAligned: carries no contract of its own. What it
  answers is stated by AlignedIsLastGyro and
  GyroAdjustingWaitsForAlignment.
- Gyros.AutoGyro.constructor: the early return when the program is null
  is not modelled.
- PrinterPaths.LayerDrop: builds the layer offset by repeated addition
  rather than as the product the source writes. LayerDropIsProduct
  proves the two equal.
- Printers.Printer.ShiftPrinterY: the list the `Path` captures and then
  grows afterwards is modelled by its effect. The sent path ends with the
  endpoint waypoint.
- Printers.Printer.ProcessTasks: the branches of the switch are helper
  methods, one per state. Each is proved against its own step function.

## Findings

| source | as written | input that shows it | evidently intended | confidence | as-written member | corrected member |
|---|---|---|---|---|---|---|
| Platform/Main.cs:243-264 | `Serialize` ends its record with ':', so the record splits into six fields, while `Deserialize` accepts exactly five | any waypoint, e.g. name "a" at (1, 2, 3): "GPS:a:1:2:3:" splits into six fields and `Deserialize` returns null | a record written by `Serialize` reads back as the same waypoint | not executed | Waypoints.SerializeNeverDeserializes | Waypoints.SerializeRoundTrip |
