/**
 * Path: an ordered waypoint list with a flight direction, an integer
 * layer index (PathYShift), the height of one layer (ShiftMagnitude) and
 * the axis layers are stacked along (Up). Layer k lies at Up * (-k *
 * ShiftMagnitude) from layer 0 in the instance shift, at Up * (k *
 * ShiftMagnitude) in the static one.
 */
module Paths {
  import opened Geometry
  import opened Waypoints

  datatype PathValue = PathValue(
    waypoints: seq<GpsWaypoint>,
    flightDirection: Direction,
    pathYShift: int,
    shiftMagnitude: real,
    up: Vec3)

  /** List.Reverse. */
  function Reverse<T>(s: seq<T>): (r: seq<T>)
    ensures |r| == |s|
  {
    if s == [] then [] else Reverse(s[1..]) + [s[0]]
  }

  lemma {:induction false} ReverseAt<T>(s: seq<T>, k: nat)
    requires k < |s|
    ensures Reverse(s)[k] == s[|s| - 1 - k]
  {
    if k < |s| - 1 {
      ReverseAt(s[1..], k);
    }
  }

  lemma ReverseReverse<T>(s: seq<T>)
    ensures Reverse(Reverse(s)) == s
  {
    forall k | 0 <= k < |s|
      ensures Reverse(Reverse(s))[k] == s[k]
    {
      ReverseAt(Reverse(s), k);
      ReverseAt(s, |s| - 1 - k);
    }
  }

  /** ReverseFlightDirection on a value. */
  function WithFlightReversed(p: PathValue): PathValue {
    p.(flightDirection := Opposite(p.flightDirection))
  }

  /** ReversePathDirection on a value: order reversed and one layer added. */
  function WithOrderReversed(p: PathValue): PathValue {
    p.(waypoints := Reverse(p.waypoints), pathYShift := p.pathYShift + 1)
  }

  /** One waypoint of the instance shift: undo the old layer, apply the new one. */
  function MoveInPlace(w: GpsWaypoint, up: Vec3, magnitude: real, from: int, to: int): GpsWaypoint {
    var vShift := Scale(up, magnitude * from as real);
    var unshifted := Add(w.ToVector(), vShift);
    FromVector(w.name, Add(unshifted, Scale(up, magnitude * (-to) as real)))
  }

  /** Instance ShiftPathAbsolute(shift) on a value. */
  function ShiftedAbsolute(p: PathValue, shift: int): PathValue {
    p.(waypoints := seq(|p.waypoints|, i requires 0 <= i < |p.waypoints| =>
                          MoveInPlace(p.waypoints[i], p.up, p.shiftMagnitude, p.pathYShift, shift)),
       pathYShift := shift)
  }

  /** One waypoint of the static shift: remove the old layer with the sign flipped, add the new one. */
  function MoveStatic(w: GpsWaypoint, up: Vec3, magnitude: real, from: int, to: int): GpsWaypoint {
    var vShift := Scale(up, magnitude * (0 - from) as real);
    var unshifted := Add(w.ToVector(), vShift);
    FromVector(w.name, Add(unshifted, Scale(up, magnitude * to as real)))
  }

  /** Static Path.ShiftPathAbsolute(path, shift) on a value. */
  function ShiftedAbsoluteStatic(p: PathValue, shift: int): PathValue {
    PathValue(
      seq(|p.waypoints|, i requires 0 <= i < |p.waypoints| =>
            MoveStatic(p.waypoints[i], p.up, p.shiftMagnitude, p.pathYShift, shift)),
      p.flightDirection, shift, p.shiftMagnitude, p.up)
  }

  /**
   * The instance shift keeps names, order and count, and moves every
   * waypoint by Up * ShiftMagnitude * (old PathYShift - shift).
   */
  lemma ShiftAbsoluteMoves(p: PathValue, shift: int)
    ensures var r := ShiftedAbsolute(p, shift);
      && |r.waypoints| == |p.waypoints|
      && r.pathYShift == shift
      && r.flightDirection == p.flightDirection && r.up == p.up && r.shiftMagnitude == p.shiftMagnitude
      && forall i :: 0 <= i < |p.waypoints| ==>
           && r.waypoints[i].name == p.waypoints[i].name
           && !r.waypoints[i].isEmpty
           && r.waypoints[i].ToVector() ==
                Add(p.waypoints[i].ToVector(), Scale(p.up, p.shiftMagnitude * (p.pathYShift - shift) as real))
  {
    var r := ShiftedAbsolute(p, shift);
    forall i | 0 <= i < |p.waypoints|
      ensures r.waypoints[i].ToVector() ==
                Add(p.waypoints[i].ToVector(), Scale(p.up, p.shiftMagnitude * (p.pathYShift - shift) as real))
    {
      var m := p.shiftMagnitude;
      AddScaledTwice(p.waypoints[i].ToVector(), p.up, m * p.pathYShift as real, m * (-shift) as real);
      assert m * p.pathYShift as real + m * (-shift) as real == m * (p.pathYShift - shift) as real;
    }
  }

  /** Shifting to layer a and then to layer b is shifting straight to b. */
  lemma ShiftAbsoluteCompose(p: PathValue, a: int, b: int)
    ensures ShiftedAbsolute(ShiftedAbsolute(p, a), b).waypoints == ShiftedAbsolute(p, b).waypoints
    ensures ShiftedAbsolute(ShiftedAbsolute(p, a), b).pathYShift == b
  {
    var q := ShiftedAbsolute(p, a);
    ShiftAbsoluteMoves(p, a);
    ShiftAbsoluteMoves(q, b);
    ShiftAbsoluteMoves(p, b);
    var m := p.shiftMagnitude;
    forall i | 0 <= i < |p.waypoints|
      ensures ShiftedAbsolute(q, b).waypoints[i] == ShiftedAbsolute(p, b).waypoints[i]
    {
      AddScaledTwice(p.waypoints[i].ToVector(), p.up, m * (p.pathYShift - a) as real, m * (a - b) as real);
      assert m * (p.pathYShift - a) as real + m * (a - b) as real == m * (p.pathYShift - b) as real;
    }
  }

  /** A second shift to the same layer changes nothing. */
  lemma ShiftAbsoluteIdempotent(p: PathValue, shift: int)
    ensures ShiftedAbsolute(ShiftedAbsolute(p, shift), shift) == ShiftedAbsolute(p, shift)
  {
    ShiftAbsoluteCompose(p, shift, shift);
  }

  /** Shifting away and back to the original layer restores every position exactly. */
  lemma ShiftThereAndBack(p: PathValue, shift: int)
    ensures var r := ShiftedAbsolute(ShiftedAbsolute(p, shift), p.pathYShift);
      && r.pathYShift == p.pathYShift
      && |r.waypoints| == |p.waypoints|
      && forall i :: 0 <= i < |p.waypoints| ==>
           r.waypoints[i].ToVector() == p.waypoints[i].ToVector() && r.waypoints[i].name == p.waypoints[i].name
  {
    ShiftAbsoluteCompose(p, shift, p.pathYShift);
    ShiftAbsoluteMoves(p, p.pathYShift);
    forall i | 0 <= i < |p.waypoints|
      ensures ShiftedAbsolute(p, p.pathYShift).waypoints[i].ToVector() == p.waypoints[i].ToVector()
    {
      AddScaledZero(p.waypoints[i].ToVector(), p.up);
      assert p.shiftMagnitude * (p.pathYShift - p.pathYShift) as real == 0.0;
    }
  }

  /**
   * The static overload moves by Up * ShiftMagnitude * (shift - old
   * PathYShift): the same distance as the instance shift, the other way.
   */
  lemma StaticShiftOpposesInstance(p: PathValue, shift: int)
    ensures var r := ShiftedAbsoluteStatic(p, shift);
      && |r.waypoints| == |p.waypoints|
      && r.pathYShift == shift
      && r.flightDirection == p.flightDirection && r.up == p.up && r.shiftMagnitude == p.shiftMagnitude
      && forall i :: 0 <= i < |p.waypoints| ==>
           && r.waypoints[i].name == p.waypoints[i].name
           && r.waypoints[i].ToVector() ==
                Add(p.waypoints[i].ToVector(), Scale(p.up, p.shiftMagnitude * (shift - p.pathYShift) as real))
           && Sub(r.waypoints[i].ToVector(), p.waypoints[i].ToVector()) ==
                Scale(Sub(ShiftedAbsolute(p, shift).waypoints[i].ToVector(), p.waypoints[i].ToVector()), -1.0)
  {
    var r := ShiftedAbsoluteStatic(p, shift);
    ShiftAbsoluteMoves(p, shift);
    var m := p.shiftMagnitude;
    forall i | 0 <= i < |p.waypoints|
      ensures r.waypoints[i].ToVector() ==
                Add(p.waypoints[i].ToVector(), Scale(p.up, m * (shift - p.pathYShift) as real))
      ensures Sub(r.waypoints[i].ToVector(), p.waypoints[i].ToVector()) ==
                Scale(Sub(ShiftedAbsolute(p, shift).waypoints[i].ToVector(), p.waypoints[i].ToVector()), -1.0)
    {
      var v := p.waypoints[i].ToVector();
      AddScaledTwice(v, p.up, m * (0 - p.pathYShift) as real, m * shift as real);
      assert m * (0 - p.pathYShift) as real + m * shift as real == m * (shift - p.pathYShift) as real;
      var k := m * (shift - p.pathYShift) as real;
      assert m * (p.pathYShift - shift) as real == -k;
      assert Sub(Add(v, Scale(p.up, k)), v) == Scale(p.up, k);
      assert Sub(Add(v, Scale(p.up, -k)), v) == Scale(p.up, -k);
    }
  }

  /** Reversing twice restores the order and the direction of travel but leaves the layer two higher. */
  lemma ReverseTwice(p: PathValue)
    ensures WithOrderReversed(WithOrderReversed(p)).waypoints == p.waypoints
    ensures WithOrderReversed(WithOrderReversed(p)).pathYShift == p.pathYShift + 2
    ensures WithOrderReversed(WithOrderReversed(p)) != p
  {
    ReverseReverse(p.waypoints);
  }

  /** Flipping the flight direction twice is the identity. */
  lemma FlipFlightTwice(p: PathValue)
    ensures WithFlightReversed(WithFlightReversed(p)) == p
    ensures WithFlightReversed(p) != p
  {
    OppositeInvolution(p.flightDirection);
  }

  /** Path, with the waypoint list held as a sequence that its methods reassign. */
  class Path {
    var waypoints: seq<GpsWaypoint>
    var flightDirection: Direction
    var pathYShift: int
    const shiftMagnitude: real
    const up: Vec3

    function Value(): PathValue
      reads this
    {
      PathValue(waypoints, flightDirection, pathYShift, shiftMagnitude, up)
    }

    constructor (path: seq<GpsWaypoint>, flightDirection: Direction, upDirection: Vec3,
                 pathYShift: int := 0, shiftMagnitude: real := 2.5)
      ensures Value() == PathValue(path, flightDirection, pathYShift, shiftMagnitude, upDirection)
    {
      this.waypoints := path;
      this.flightDirection := flightDirection;
      this.up := upDirection;
      this.pathYShift := pathYShift;
      this.shiftMagnitude := shiftMagnitude;
    }

    method ReverseFlightDirection()
      modifies this
      ensures Value() == WithFlightReversed(old(Value()))
    {
      flightDirection := Opposite(flightDirection);
    }

    method ReversePathDirection()
      modifies this
      ensures Value() == WithOrderReversed(old(Value()))
    {
      pathYShift := pathYShift + 1;
      waypoints := Reverse(waypoints);
    }

    method ShiftPathRelative(shiftDelta: int)
      modifies this
      ensures Value() == ShiftedAbsolute(old(Value()), old(pathYShift) + shiftDelta)
    {
      var newShift := pathYShift + shiftDelta;
      ShiftPathAbsolute(newShift);
    }

    method ShiftPathAbsolute(shift: int)
      modifies this
      ensures Value() == ShiftedAbsolute(old(Value()), shift)
    {
      ghost var target := ShiftedAbsolute(Value(), shift).waypoints;
      var newPath: seq<GpsWaypoint> := [];
      var i := 0;
      while i < |waypoints|
        invariant 0 <= i <= |waypoints|
        invariant Value() == old(Value())
        invariant newPath == target[..i]
      {
        assert target[..i + 1] == target[..i] + [target[i]];
        var waypoint := waypoints[i];
        var vShift := Scale(up, shiftMagnitude * pathYShift as real);
        var unshiftedPos := Add(waypoint.ToVector(), vShift);
        var newShiftedPos := Add(unshiftedPos, Scale(up, shiftMagnitude * (-shift) as real));
        assert target[i] == MoveInPlace(waypoint, up, shiftMagnitude, pathYShift, shift)
                         == FromVector(waypoint.name, newShiftedPos);
        newPath := newPath + [FromVector(waypoint.name, newShiftedPos)];
        i := i + 1;
      }
      assert newPath == target;
      pathYShift := shift;
      waypoints := newPath;
    }

    /** The static overload Path.ShiftPathRelative(path, delta). */
    static method ShiftedPathRelative(pathToShift: Path, shiftDelta: int) returns (r: Path)
      ensures fresh(r)
      ensures r.Value() == ShiftedAbsoluteStatic(pathToShift.Value(), pathToShift.pathYShift + shiftDelta)
    {
      var newShift := pathToShift.pathYShift + shiftDelta;
      r := ShiftedPathAbsolute(pathToShift, newShift);
    }

    /** The static overload Path.ShiftPathAbsolute(path, shift): a fresh path, the argument untouched. */
    static method ShiftedPathAbsolute(pathToShift: Path, shift: int) returns (r: Path)
      ensures fresh(r)
      ensures r.Value() == ShiftedAbsoluteStatic(pathToShift.Value(), shift)
    {
      var p := pathToShift.Value();
      ghost var target := ShiftedAbsoluteStatic(p, shift).waypoints;
      var newPath: seq<GpsWaypoint> := [];
      var i := 0;
      while i < |p.waypoints|
        invariant 0 <= i <= |p.waypoints|
        invariant newPath == target[..i]
      {
        assert target[..i + 1] == target[..i] + [target[i]];
        var waypoint := p.waypoints[i];
        var vShift := Scale(p.up, p.shiftMagnitude * (0 - p.pathYShift) as real);
        var unshiftedPos := Add(waypoint.ToVector(), vShift);
        var newShiftedPos := Add(unshiftedPos, Scale(p.up, p.shiftMagnitude * shift as real));
        newPath := newPath + [FromVector(waypoint.name, newShiftedPos)];
        i := i + 1;
      }
      assert newPath == target;
      r := new Path(newPath, p.flightDirection, p.up, shift, p.shiftMagnitude);
    }
  }
}
