/**
 * The geometry the Printer plans with: the two rail markers of
 * PrinterBase, the waypoint paths along the rail, the filter that keeps
 * what is still ahead, and the vertical-shift path between layers. All
 * of it is pure; the Printer class builds the same values with loops.
 */
module PrinterPaths {
  import opened Wrappers
  import opened Geometry
  import opened Waypoints
  import opened Paths

  /** A marker block: its position and the forward and up axes of its world matrix. */
  datatype Marker = Marker(position: Vec3, forward: Vec3, up: Vec3)

  /** PrinterBase: either marker may be missing, and then its getters answer Zero. */
  datatype PrinterBase = PrinterBase(originMarker: Option<Marker>, endpointMarker: Option<Marker>)
  {
    predicate HasMarkers() {
      originMarker.Some? && endpointMarker.Some?
    }

    function GetOriginPos(): Vec3 {
      if originMarker.None? then Zero else originMarker.value.position
    }

    function GetEndpointPos(): Vec3 {
      if endpointMarker.None? then Zero else endpointMarker.value.position
    }

    function GetForwardDirection(): Vec3 {
      if originMarker.None? then Zero else originMarker.value.forward
    }

    function GetForwardDirectionInverse(): Vec3 {
      if endpointMarker.None? then Zero else endpointMarker.value.forward
    }

    function GetUpDirection(): Vec3 {
      if originMarker.None? then Zero else originMarker.value.up
    }
  }

  /**
   * The Printer's fixed configuration. `railLength` is
   * Vector3.Distance between the rail's offset origin and offset
   * endpoint, which GetOriginEndpointPath measures; it is given rather
   * than computed because the reals here have no square root.
   */
  datatype PrinterConfig = PrinterConfig(
    base: PrinterBase,
    printerHeight: int,
    shiftMagnitude: real,
    forwardOffset: real,
    direction: Direction,
    railLength: real)

  /** The layer height every path the Printer builds is given (2.5f). */
  const PathShiftMagnitude: real := 2.5

  /** The waypoint count of every path the task state machine builds. */
  const DataPointAmount: int := 10

  /** The rail's start: the origin marker pushed forward by ForwardOffset. */
  function RailOrigin(c: PrinterConfig): Vec3 {
    Add(c.base.GetOriginPos(), Scale(c.base.GetForwardDirection(), c.forwardOffset))
  }

  /** The rail's end: the endpoint marker pushed along its own forward by ForwardOffset. */
  function RailEndpoint(c: PrinterConfig): Vec3 {
    Add(c.base.GetEndpointPos(), Scale(c.base.GetForwardDirectionInverse(), c.forwardOffset))
  }

  // ---------------------------------------------------------------------
  // int.ToString

  function DigitChar(d: nat): (ch: char)
    requires d < 10
    ensures '0' <= ch <= '9'
  {
    ('0' as int + d) as char
  }

  function NatToString(n: nat): (s: string)
    ensures |s| >= 1
    ensures forall i :: 0 <= i < |s| ==> '0' <= s[i] <= '9'
  {
    if n < 10 then [DigitChar(n)] else NatToString(n / 10) + [DigitChar(n % 10)]
  }

  function IntToString(i: int): (s: string)
    ensures |s| >= 1
  {
    if i < 0 then "-" + NatToString(-i) else NatToString(i)
  }

  lemma {:induction false} NatToStringInjective(a: nat, b: nat)
    requires NatToString(a) == NatToString(b)
    ensures a == b
  {
    if a >= 10 && b >= 10 {
      var s := NatToString(a);
      var sa := NatToString(a / 10);
      var sb := NatToString(b / 10);
      assert s == sa + [DigitChar(a % 10)] == sb + [DigitChar(b % 10)];
      assert sa == s[..|s| - 1] == sb;
      NatToStringInjective(a / 10, b / 10);
      assert DigitChar(a % 10) == DigitChar(b % 10);
    }
  }

  /** A written int starts with '-' exactly when it is negative. */
  lemma IntToStringSign(i: int)
    ensures IntToString(i)[0] == '-' <==> i < 0
  {
    if i >= 0 {
      assert '0' <= NatToString(i)[0] <= '9';
    }
  }

  /** Distinct numbers are written differently, so the numbered waypoints of a path have distinct names. */
  lemma IntToStringInjective(a: int, b: int)
    requires IntToString(a) == IntToString(b)
    ensures a == b
  {
    IntToStringSign(a);
    IntToStringSign(b);
    if a < 0 {
      assert NatToString(-a) == IntToString(a)[1..] == NatToString(-b);
      NatToStringInjective(-a, -b);
    } else {
      NatToStringInjective(a, b);
    }
  }

  // ---------------------------------------------------------------------
  // GetOriginEndpointPath and GetEndpointOriginPath

  /** Waypoints "1".."count", the i-th (from 0) at origin + (direction * spacing) * i. */
  function Interpolated(origin: Vec3, direction: Vec3, spacing: real, count: nat): (ws: seq<GpsWaypoint>)
    ensures |ws| == count
  {
    seq(count, i =>
          FromVector(IntToString(i + 1), Add(origin, Scale(Scale(direction, spacing), i as real))))
  }

  /** The number of waypoints `for (i = 0; i < n + 1; i++)` produces. */
  function PointCount(n: int): nat {
    if n + 1 > 0 then n + 1 else 0
  }

  /**
   * GetOriginEndpointPath(n, shift): None when a marker is missing;
   * otherwise n + 1 waypoints from the rail origin along the origin
   * marker's forward axis, spaced railLength / n apart, in the printer's
   * flight direction, at layer 0 or moved to layer printerY. A zero n
   * divides by zero in the source and is excluded.
   */
  function OriginEndpointPath(c: PrinterConfig, n: int, shiftToPrinterY: bool, printerY: int): (r: Option<PathValue>)
    requires n != 0
    ensures r.Some? <==> c.base.HasMarkers()
    ensures r.Some? ==> |r.value.waypoints| == PointCount(n)
    ensures r.Some? ==> r.value.pathYShift == (if shiftToPrinterY then printerY else 0)
    ensures r.Some? ==> r.value.flightDirection == c.direction && r.value.up == c.base.GetUpDirection()
    ensures r.Some? ==> r.value.shiftMagnitude == PathShiftMagnitude
  {
    if c.base.originMarker.None? || c.base.endpointMarker.None? then None
    else
      var direction := c.base.GetForwardDirection();
      var spacing := c.railLength / n as real;
      var path := PathValue(Interpolated(RailOrigin(c), direction, spacing, PointCount(n)),
                            c.direction, 0, PathShiftMagnitude, c.base.GetUpDirection());
      Some(if shiftToPrinterY then ShiftedAbsolute(path, printerY) else path)
  }

  /** GetEndpointOriginPath: the origin-to-endpoint path reversed in order and in flight direction. */
  function EndpointOriginPath(c: PrinterConfig, n: int, shiftToPrinterY: bool, printerY: int): (r: Option<PathValue>)
    requires n != 0
    ensures r.Some? <==> c.base.HasMarkers()
    ensures r.Some? ==> |r.value.waypoints| == PointCount(n)
  {
    match OriginEndpointPath(c, n, shiftToPrinterY, printerY)
    case None => None
    case Some(p) => Some(WithFlightReversed(WithOrderReversed(p)))
  }

  /** The offset every waypoint of a path at layer y carries: Up * 2.5 * (-y). */
  function LayerOffset(c: PrinterConfig, y: int): Vec3 {
    Scale(c.base.GetUpDirection(), PathShiftMagnitude * (-y) as real)
  }

  /** The rail step of an n-point path: forward * (railLength / n). */
  function RailStep(c: PrinterConfig, n: int): Vec3
    requires n != 0
  {
    Scale(c.base.GetForwardDirection(), c.railLength / n as real)
  }

  /**
   * Waypoint i of GetOriginEndpointPath is named i + 1 and lies at the
   * rail origin plus i rail steps, plus the offset of the path's layer.
   */
  lemma OriginEndpointAt(c: PrinterConfig, n: int, shiftToPrinterY: bool, printerY: int, i: int)
    requires n > 0 && c.base.HasMarkers() && 0 <= i <= n
    ensures var p := OriginEndpointPath(c, n, shiftToPrinterY, printerY).value;
      && p.waypoints[i].name == IntToString(i + 1)
      && !p.waypoints[i].isEmpty
      && p.waypoints[i].ToVector() == Add(Add(RailOrigin(c), Scale(RailStep(c, n), i as real)), LayerOffset(c, p.pathYShift))
  {
    var base := PathValue(Interpolated(RailOrigin(c), c.base.GetForwardDirection(), c.railLength / n as real, n + 1),
                          c.direction, 0, PathShiftMagnitude, c.base.GetUpDirection());
    var at := Add(RailOrigin(c), Scale(RailStep(c, n), i as real));
    assert base.waypoints[i].ToVector() == at;
    if shiftToPrinterY {
      ShiftAbsoluteMoves(base, printerY);
    } else {
      assert LayerOffset(c, 0) == Scale(c.base.GetUpDirection(), 0.0);
      AddScaledZero(at, c.base.GetUpDirection());
    }
  }

  /** The shape of GetOriginEndpointPath, over all its waypoints. */
  lemma OriginEndpointShape(c: PrinterConfig, n: int, shiftToPrinterY: bool, printerY: int)
    requires n > 0 && c.base.HasMarkers()
    ensures var p := OriginEndpointPath(c, n, shiftToPrinterY, printerY).value;
      && |p.waypoints| == n + 1
      && forall i :: 0 <= i <= n ==>
           && p.waypoints[i].name == IntToString(i + 1)
           && p.waypoints[i].ToVector() ==
                Add(Add(RailOrigin(c), Scale(RailStep(c, n), i as real)), LayerOffset(c, p.pathYShift))
  {
    forall i | 0 <= i <= n {
      OriginEndpointAt(c, n, shiftToPrinterY, printerY, i);
    }
  }

  /** Consecutive waypoints are one rail step apart. */
  lemma OriginEndpointSpacing(c: PrinterConfig, n: int, shiftToPrinterY: bool, printerY: int, i: int)
    requires n > 0 && c.base.HasMarkers() && 0 <= i < n
    ensures var p := OriginEndpointPath(c, n, shiftToPrinterY, printerY).value;
      Sub(p.waypoints[i + 1].ToVector(), p.waypoints[i].ToVector()) == RailStep(c, n)
  {
    var p := OriginEndpointPath(c, n, shiftToPrinterY, printerY).value;
    OriginEndpointAt(c, n, shiftToPrinterY, printerY, i);
    OriginEndpointAt(c, n, shiftToPrinterY, printerY, i + 1);
    assert (i + 1) as real == i as real + 1.0;
    StepDifference(RailOrigin(c), RailStep(c, n), LayerOffset(c, p.pathYShift), i as real);
  }

  /**
   * A layer-0 path starts at the rail origin and ends railLength along
   * the origin marker's forward axis (OriginEndpointReachesEndpoint says
   * when that is the rail's endpoint).
   */
  lemma OriginEndpointEnds(c: PrinterConfig, n: int)
    requires n > 0 && c.base.HasMarkers()
    ensures var p := OriginEndpointPath(c, n, false, 0).value;
      && p.waypoints[0].ToVector() == RailOrigin(c)
      && p.waypoints[n].ToVector() == Add(RailOrigin(c), Scale(c.base.GetForwardDirection(), c.railLength))
  {
    var up := c.base.GetUpDirection();
    OriginEndpointAt(c, n, false, 0, 0);
    OriginEndpointAt(c, n, false, 0, n);
    assert LayerOffset(c, 0) == Scale(up, 0.0);
    ZeroStride(RailOrigin(c), RailStep(c, n), up);
    FullStride(RailOrigin(c), c.base.GetForwardDirection(), c.railLength, n as real, up);
  }

  /**
   * railLength is what GetOriginEndpointPath measures: the distance from
   * the rail origin to the rail endpoint, non-negative.
   */
  predicate RailMeasured(c: PrinterConfig) {
    c.railLength >= 0.0 && c.railLength * c.railLength == SqDist(RailOrigin(c), RailEndpoint(c))
  }

  /**
   * With the measured rail length, a unit forward axis and the rail
   * endpoint ahead of the rail origin on that axis (t along it), the last
   * waypoint of a layer-0 path is the rail endpoint itself.
   */
  lemma OriginEndpointReachesEndpoint(c: PrinterConfig, n: int, t: real)
    requires n > 0 && c.base.HasMarkers() && RailMeasured(c)
    requires Dot(c.base.GetForwardDirection(), c.base.GetForwardDirection()) == 1.0
    requires t >= 0.0 && RailEndpoint(c) == Add(RailOrigin(c), Scale(c.base.GetForwardDirection(), t))
    ensures OriginEndpointPath(c, n, false, 0).value.waypoints[n].ToVector() == RailEndpoint(c)
  {
    assert c.railLength == t by {
      SqDistAlongUnit(RailOrigin(c), c.base.GetForwardDirection(), t);
      SquaresEqual(c.railLength, t);
    }
    OriginEndpointEnds(c, n);
  }

  /** GetEndpointOriginPath is the same waypoints reversed, one layer up, flying the other way. */
  lemma EndpointOriginIsReversed(c: PrinterConfig, n: int, shiftToPrinterY: bool, printerY: int)
    requires n != 0 && c.base.HasMarkers()
    ensures var oe := OriginEndpointPath(c, n, shiftToPrinterY, printerY).value;
      var eo := EndpointOriginPath(c, n, shiftToPrinterY, printerY).value;
      && eo.waypoints == Reverse(oe.waypoints)
      && eo.pathYShift == oe.pathYShift + 1
      && eo.flightDirection == Opposite(oe.flightDirection)
      && eo.flightDirection != oe.flightDirection
      && forall i :: 0 <= i < |oe.waypoints| ==> eo.waypoints[i] == oe.waypoints[|oe.waypoints| - 1 - i]
  {
    var oe := OriginEndpointPath(c, n, shiftToPrinterY, printerY).value;
    forall i | 0 <= i < |oe.waypoints|
      ensures Reverse(oe.waypoints)[i] == oe.waypoints[|oe.waypoints| - 1 - i]
    {
      ReverseAt(oe.waypoints, i);
    }
  }

  // ---------------------------------------------------------------------
  // OptimizePath

  /** Vector3.Distance(waypoint, target) < Vector3.Distance(platform, target). */
  predicate Closer(w: GpsWaypoint, target: Vec3, platform: Vec3) {
    SqDist(w.ToVector(), target) < SqDist(platform, target)
  }

  /** The waypoints strictly closer to the target than the platform, in their original order. */
  function KeepCloser(ws: seq<GpsWaypoint>, target: Vec3, platform: Vec3): (kept: seq<GpsWaypoint>)
    ensures |kept| <= |ws|
    ensures forall w :: w in kept <==> w in ws && Closer(w, target, platform)
  {
    if ws == [] then []
    else if Closer(ws[0], target, platform) then [ws[0]] + KeepCloser(ws[1..], target, platform)
    else KeepCloser(ws[1..], target, platform)
  }

  /** Filtering distributes over concatenation: the filter never reorders. */
  lemma {:induction false} KeepCloserAppend(a: seq<GpsWaypoint>, b: seq<GpsWaypoint>, target: Vec3, platform: Vec3)
    ensures KeepCloser(a + b, target, platform) == KeepCloser(a, target, platform) + KeepCloser(b, target, platform)
  {
    if a == [] {
      assert a + b == b;
    } else {
      assert (a + b)[0] == a[0];
      assert (a + b)[1..] == a[1..] + b;
      KeepCloserAppend(a[1..], b, target, platform);
    }
  }

  lemma KeepCloserSingle(w: GpsWaypoint, target: Vec3, platform: Vec3)
    ensures KeepCloser([w], target, platform) == if Closer(w, target, platform) then [w] else []
  {
    assert [w][1..] == [];
  }

  /** A platform standing on the target keeps nothing. */
  lemma {:induction false} KeepCloserAtTarget(ws: seq<GpsWaypoint>, target: Vec3)
    ensures KeepCloser(ws, target, target) == []
  {
    if ws != [] {
      NothingCloserThanSelf(ws[0].ToVector(), target);
      KeepCloserAtTarget(ws[1..], target);
    }
  }

  /** The target OptimizePath measures against: moved by Up * ShiftMagnitude * PathYShift when asked. */
  function OptimizeTarget(p: PathValue, targetPosition: Vec3, shiftTargetPosition: bool): Vec3 {
    if shiftTargetPosition then Add(targetPosition, Scale(p.up, p.shiftMagnitude * p.pathYShift as real))
    else targetPosition
  }

  /**
   * OptimizePath: None without a remote control (rcPosition); otherwise
   * the path cut to the waypoints closer to the target than the platform,
   * every other attribute kept.
   */
  function OptimizedPath(p: PathValue, targetPosition: Vec3, shiftTargetPosition: bool, rcPosition: Option<Vec3>): (r: Option<PathValue>)
    ensures r.Some? <==> rcPosition.Some?
    ensures r.Some? ==>
      && r.value.flightDirection == p.flightDirection && r.value.up == p.up
      && r.value.pathYShift == p.pathYShift && r.value.shiftMagnitude == p.shiftMagnitude
      && |r.value.waypoints| <= |p.waypoints|
      && r.value.waypoints == KeepCloser(p.waypoints, OptimizeTarget(p, targetPosition, shiftTargetPosition), rcPosition.value)
      && forall w :: w in r.value.waypoints <==>
           w in p.waypoints && Closer(w, OptimizeTarget(p, targetPosition, shiftTargetPosition), rcPosition.value)
  {
    if rcPosition.None? then None
    else
      var target := OptimizeTarget(p, targetPosition, shiftTargetPosition);
      Some(p.(waypoints := KeepCloser(p.waypoints, target, rcPosition.value)))
  }

  // ---------------------------------------------------------------------
  // IsYShiftSafe and ShiftPrinterY

  /** How far layer y lies below the rail: Up * ShiftMagnitude, -y times over. */
  function LayerDrop(c: PrinterConfig, y: int): Vec3 {
    Times(Scale(c.base.GetUpDirection(), c.shiftMagnitude), -y)
  }

  /** The drop is the script's single product Up * (ShiftMagnitude * (y * -1)). */
  lemma LayerDropIsProduct(c: PrinterConfig, y: int)
    ensures LayerDrop(c, y) == Scale(c.base.GetUpDirection(), c.shiftMagnitude * (y * -1) as real)
  {
    var up := c.base.GetUpDirection();
    TimesIsScale(Scale(up, c.shiftMagnitude), -y);
    ScaleScale(up, c.shiftMagnitude, (-y) as real);
    assert (y * -1) as real == (-y) as real;
  }

  /** Where the platform stands at layer y: the origin marker, dropped to layer y, pushed forward by ForwardOffset. */
  function LayerOrigin(c: PrinterConfig, y: int): Vec3 {
    Add(Add(c.base.GetOriginPos(), LayerDrop(c, y)), Scale(c.base.GetForwardDirection(), c.forwardOffset))
  }

  /** IsYShiftSafe: the platform is within 0.5 of its layer's origin. */
  predicate IsYShiftSafe(c: PrinterConfig, printerY: int, platformPos: Vec3) {
    WithinRadius(LayerOrigin(c, printerY), platformPos, 0.5)
  }

  /** The origin of layer y + 1 lies one ShiftMagnitude further against Up than that of layer y. */
  lemma LayerOriginStep(c: PrinterConfig, y: int)
    ensures LayerOrigin(c, y + 1) == Add(LayerOrigin(c, y), Scale(c.base.GetUpDirection(), -c.shiftMagnitude))
  {
    var up := c.base.GetUpDirection();
    TimesPred(Scale(up, c.shiftMagnitude), -y);
    SubScaledStep(c.base.GetOriginPos(), LayerDrop(c, y), Scale(c.base.GetForwardDirection(), c.forwardOffset), up, c.shiftMagnitude);
  }

  /**
   * A platform standing on layer y's origin is safe to shift there; with
   * a unit Up axis and layers at least 0.5 apart, it is not safe for the
   * layer above or the layer below.
   */
  lemma SafeOnlyAtOwnLayer(c: PrinterConfig, y: int)
    requires Dot(c.base.GetUpDirection(), c.base.GetUpDirection()) == 1.0
    requires c.shiftMagnitude * c.shiftMagnitude >= 0.25
    ensures IsYShiftSafe(c, y, LayerOrigin(c, y))
    ensures !IsYShiftSafe(c, y + 1, LayerOrigin(c, y))
    ensures !IsYShiftSafe(c, y - 1, LayerOrigin(c, y))
  {
    var up := c.base.GetUpDirection();
    var m := c.shiftMagnitude;
    assert -m * -m == m * m;
    LayerOriginStep(c, y);
    StepLeavesRadius(LayerOrigin(c, y), up, -m);
    LayerOriginStep(c, y - 1);
    StepLeavesRadius(LayerOrigin(c, y - 1), up, -m);
  }

  /** The forward clearance of the vertical shift, forward * 1.5. */
  function HitboxSafeDistance(c: PrinterConfig): Vec3 {
    Scale(c.base.GetForwardDirection(), 1.5)
  }

  /** The k-th layer index met going from layer `from` towards layer `to`. */
  function LayerIndex(from: int, to: int, k: int): int {
    if from < to then from + k else from - k
  }

  function Abs(x: int): nat {
    if x < 0 then -x else x
  }

  /** The waypoint of layer y: named by the index, HitboxSafeDistance in front of the layer's origin. */
  function LayerWaypoint(c: PrinterConfig, y: int): (w: GpsWaypoint)
    ensures w.name == IntToString(y) && w.ToVector() == Add(LayerOrigin(c, y), HitboxSafeDistance(c))
  {
    FromVector(IntToString(y), Add(LayerOrigin(c, y), HitboxSafeDistance(c)))
  }

  /** The first n layer waypoints met going from layer `from` towards layer `to`, as the loop appends them. */
  function LayerPrefix(c: PrinterConfig, from: int, to: int, n: nat): (ws: seq<GpsWaypoint>)
    ensures |ws| == n
  {
    if n == 0 then [] else LayerPrefix(c, from, to, n - 1) + [LayerWaypoint(c, LayerIndex(from, to, n - 1))]
  }

  /** The k-th waypoint of any prefix is the waypoint of the k-th layer index. */
  lemma {:induction false} LayerPrefixAt(c: PrinterConfig, from: int, to: int, n: nat, k: int)
    requires 0 <= k < n
    ensures LayerPrefix(c, from, to, n)[k] == LayerWaypoint(c, LayerIndex(from, to, k))
  {
    if k < n - 1 {
      LayerPrefixAt(c, from, to, n - 1, k);
      AppendAt(LayerPrefix(c, from, to, n - 1), LayerWaypoint(c, LayerIndex(from, to, n - 1)), k);
    } else {
      AppendAt(LayerPrefix(c, from, to, n - 1), LayerWaypoint(c, LayerIndex(from, to, n - 1)), k);
    }
  }

  /** Indexing a sequence grown by one element. */
  lemma AppendAt<T>(s: seq<T>, x: T, k: int)
    requires 0 <= k <= |s|
    ensures (s + [x])[k] == if k < |s| then s[k] else x
  {
  }

  /** One more round of the counting loop: the waypoint it appends for layer y is the next one of the prefix. */
  lemma LayerPrefixStep(c: PrinterConfig, from: int, to: int, k: nat, y: int, ws: seq<GpsWaypoint>)
    requires y == LayerIndex(from, to, k)
    requires ws == LayerPrefix(c, from, to, k)
    ensures ws + [FromVector(IntToString(y), Add(LayerOrigin(c, y), HitboxSafeDistance(c)))] == LayerPrefix(c, from, to, k + 1)
  {
  }

  /**
   * The layer waypoints of a vertical shift: one per layer index from
   * `from` to `to` inclusive.
   */
  function LayerWaypoints(c: PrinterConfig, from: int, to: int): (ws: seq<GpsWaypoint>)
    ensures |ws| == Abs(to - from) + 1
  {
    LayerPrefix(c, from, to, Abs(to - from) + 1)
  }

  /** Every layer waypoint is named by its layer index and stands in front of that layer's origin. */
  lemma LayerWaypointsAt(c: PrinterConfig, from: int, to: int, k: int)
    requires 0 <= k <= Abs(to - from)
    ensures var w := LayerWaypoints(c, from, to)[k];
      w.name == IntToString(LayerIndex(from, to, k))
      && w.ToVector() == Add(LayerOrigin(c, LayerIndex(from, to, k)), HitboxSafeDistance(c))
  {
    LayerPrefixAt(c, from, to, Abs(to - from) + 1, k);
  }

  /** The layer waypoints start at the old layer and end at the new one. */
  lemma LayerWaypointsEnds(c: PrinterConfig, from: int, to: int)
    ensures var ws := LayerWaypoints(c, from, to);
      ws[0].name == IntToString(from) && ws[|ws| - 1].name == IntToString(to)
  {
    LayerIndexEnds(from, to);
    LayerWaypointsAt(c, from, to, 0);
    LayerWaypointsAt(c, from, to, Abs(to - from));
  }

  lemma LayerIndexEnds(from: int, to: int)
    ensures LayerIndex(from, to, 0) == from && LayerIndex(from, to, Abs(to - from)) == to
  {
  }

  /** The middle of [a] + m + [b] is m. */
  lemma MiddleSlice<T>(a: T, m: seq<T>, b: T)
    ensures ([a] + m + [b])[1..|m| + 1] == m
  {
  }

  datatype YShift = Refused | Shifted(newY: int, path: PathValue)

  /**
   * The path ShiftPrinterY sends from layer printerY to layer newY: a
   * safe point in front of the current layer, one point per layer index
   * on the way, then the new layer's origin.
   */
  function YShiftPath(c: PrinterConfig, printerY: int, newY: int): PathValue {
    var originSafe := FromVector("yshift_origin_safe", Add(LayerOrigin(c, printerY), HitboxSafeDistance(c)));
    var endpointSafe := FromVector("yshift_endpoint_safe", LayerOrigin(c, newY));
    var direction := if printerY < newY then Down else Up;
    PathValue([originSafe] + LayerWaypoints(c, printerY, newY) + [endpointSafe],
              direction, newY, PathShiftMagnitude, c.base.GetUpDirection())
  }

  /** ShiftPrinterY(delta): refused off the layer origin or for delta 0, else the new layer and its path. */
  function YShiftPlan(c: PrinterConfig, printerY: int, shiftDelta: int, platformPos: Vec3): (r: YShift)
    ensures r.Refused? <==> !IsYShiftSafe(c, printerY, platformPos) || shiftDelta == 0
    ensures r.Shifted? ==> r.newY == printerY + shiftDelta && r.path == YShiftPath(c, printerY, r.newY)
  {
    if !IsYShiftSafe(c, printerY, platformPos) then Refused
    else
      var newY := printerY + shiftDelta;
      if newY == printerY then Refused
      else Shifted(newY, YShiftPath(c, printerY, newY))
  }

  /**
   * A shift by a non-zero delta has |delta| + 3 waypoints, starts at the
   * origin safe point and ends at the new layer's origin; it flies Down
   * when the index rises and Up when it falls, and the path sits at the
   * new layer.
   */
  lemma YShiftPathFrame(c: PrinterConfig, printerY: int, newY: int)
    requires newY != printerY
    ensures var p := YShiftPath(c, printerY, newY);
      var d := Abs(newY - printerY);
      && p.pathYShift == newY
      && p.flightDirection == (if newY > printerY then Down else Up)
      && |p.waypoints| == d + 3
      && p.waypoints[0].name == "yshift_origin_safe"
      && p.waypoints[0].ToVector() == Add(LayerOrigin(c, printerY), HitboxSafeDistance(c))
      && p.waypoints[d + 2].name == "yshift_endpoint_safe"
      && p.waypoints[d + 2].ToVector() == LayerOrigin(c, newY)
  {
  }

  /**
   * Between the two safe points a shift visits every layer index from the
   * old layer to the new one inclusive (LayerWaypoints).
   */
  lemma YShiftPathLayers(c: PrinterConfig, printerY: int, newY: int)
    requires newY != printerY
    ensures var p := YShiftPath(c, printerY, newY);
      var d := Abs(newY - printerY);
      |p.waypoints| == d + 3 && p.waypoints[1..d + 2] == LayerWaypoints(c, printerY, newY)
  {
    var mid := LayerWaypoints(c, printerY, newY);
    var p := YShiftPath(c, printerY, newY);
    MiddleSlice(p.waypoints[0], mid, p.waypoints[|p.waypoints| - 1]);
  }
}
