/**
 * MyAutoGyro: points the platform at a target direction with every
 * allowed gyroscope. The angle between a gyro's chosen "down" axis and
 * the target is computed in the source with matrix transforms, a cross
 * product and atan2; here it is an input, one angle per gyro.
 */
module Gyros {
  import opened Geometry

  /** Math.PI as a double. */
  const Pi: real := 3.141592653589793

  /**
   * A gyroscope block: its maximum rate (GetMaximum<float>("Yaw")),
   * whether its override is on, and the magnitude of the last rotation
   * rate commanded to it.
   */
  datatype Gyro = Gyro(maxRate: real, override: bool, rate: real)

  /** The state MyAutoGyro keeps between calls. */
  datatype GyroState = GyroState(
    gyros: seq<Gyro>,
    currentAngle: real,
    target: Vec3,
    hasRC: bool,
    maxGyroAmount: nat,
    ctrlCoeff: real,
    accuracy: real)

  /** The list UpdateGyroList leaves: the blocks found, cut to the first maxGyroAmount. */
  function Truncate(found: seq<Gyro>, maxGyroAmount: nat): (kept: seq<Gyro>)
    ensures |kept| <= maxGyroAmount
    ensures |kept| == if |found| <= maxGyroAmount then |found| else maxGyroAmount
    ensures kept == found[..|kept|]
  {
    if |found| > maxGyroAmount then found[..maxGyroAmount] else found
  }

  /** The unclamped rate: the maximum, scaled by the angle as a fraction of pi and by the coefficient. */
  function Proportional(maxRate: real, angle: real, coeff: real): real {
    maxRate * (angle / Pi) * coeff
  }

  /**
   * The commanded rate: proportional to the angle (a fraction of pi),
   * capped at the gyro's maximum, then floored at 0.01 so that a gyro
   * that is not yet aligned always turns.
   */
  function ControlRate(maxRate: real, angle: real, coeff: real): (rate: real)
    ensures rate >= 0.01
    ensures maxRate >= 0.01 ==> rate <= maxRate
    ensures 0.01 <= Proportional(maxRate, angle, coeff) <= maxRate ==> rate == Proportional(maxRate, angle, coeff)
    ensures maxRate >= 0.01 && Proportional(maxRate, angle, coeff) >= maxRate ==> rate == maxRate
    ensures maxRate <= 0.01 || Proportional(maxRate, angle, coeff) <= 0.01 ==> rate == 0.01
  {
    var proportional := Proportional(maxRate, angle, coeff);
    var capped := if maxRate < proportional then maxRate else proportional;
    if 0.01 < capped then capped else 0.01
  }

  /** One gyro's step: release it when within accuracy, otherwise override and command a rate. */
  function SteerOne(g: Gyro, angle: real, accuracy: real, coeff: real): Gyro {
    if angle < accuracy then g.(override := false)
    else g.(override := true, rate := ControlRate(g.maxRate, angle, coeff))
  }

  function Steered(gs: seq<Gyro>, angles: seq<real>, accuracy: real, coeff: real): (r: seq<Gyro>)
    requires |angles| == |gs|
  {
    seq(|gs|, i requires 0 <= i < |gs| => SteerOne(gs[i], angles[i], accuracy, coeff))
  }

  /** GyrosOff: every override released, nothing else changed. */
  function AllOff(gs: seq<Gyro>): (r: seq<Gyro>) {
    seq(|gs|, i requires 0 <= i < |gs| => gs[i].(override := false))
  }

  /** The gyro list GyroMain works on: the current one, or a fresh lookup when it is empty. */
  function Lookup(g: GyroState, found: seq<Gyro>): seq<Gyro> {
    if |g.gyros| == 0 then Truncate(found, g.maxGyroAmount) else g.gyros
  }

  /**
   * GyroMain. With no gyros it does nothing; with no remote control or no
   * target it releases every gyro; otherwise it steers each gyro in turn,
   * and CurrentAngle ends as the angle of the last one.
   */
  function GyroMainSpec(g: GyroState, found: seq<Gyro>, angles: seq<real>): (r: GyroState)
    requires |angles| == |Lookup(g, found)|
    ensures r.target == g.target && r.hasRC == g.hasRC && r.accuracy == g.accuracy
    ensures r.maxGyroAmount == g.maxGyroAmount && r.ctrlCoeff == g.ctrlCoeff
    ensures |r.gyros| == |angles|
    ensures |g.gyros| == 0 ==> |r.gyros| <= g.maxGyroAmount
    ensures |g.gyros| > 0 ==> |r.gyros| == |g.gyros|
    ensures !g.hasRC || g.target == Zero ==> forall i :: 0 <= i < |r.gyros| ==> !r.gyros[i].override
    ensures g.hasRC && g.target != Zero ==>
      forall i :: 0 <= i < |r.gyros| ==> (r.gyros[i].override <==> angles[i] >= g.accuracy)
    ensures forall i :: 0 <= i < |r.gyros| && r.gyros[i].override ==>
      r.gyros[i].rate >= 0.01 && (r.gyros[i].maxRate >= 0.01 ==> r.gyros[i].rate <= r.gyros[i].maxRate)
    ensures var gs := Lookup(g, found);
      forall i :: 0 <= i < |gs| ==>
        && r.gyros[i].maxRate == gs[i].maxRate
        && (r.gyros[i].override ==> r.gyros[i].rate == ControlRate(gs[i].maxRate, angles[i], g.ctrlCoeff))
        && (!r.gyros[i].override ==> r.gyros[i].rate == gs[i].rate)
    ensures r.currentAngle == if g.hasRC && g.target != Zero && |angles| > 0 then angles[|angles| - 1] else g.currentAngle
  {
    var gs := Lookup(g, found);
    if |gs| == 0 then g.(gyros := gs)
    else if !g.hasRC || g.target == Zero then g.(gyros := AllOff(gs))
    else g.(gyros := Steered(gs, angles, g.accuracy, g.ctrlCoeff), currentAngle := angles[|angles| - 1])
  }

  /** IsAligned(t) after a steering pass answers for the last gyro alone. */
  lemma AlignedIsLastGyro(g: GyroState, found: seq<Gyro>, angles: seq<real>, t: real)
    requires |angles| == |Lookup(g, found)| > 0
    requires g.hasRC && g.target != Zero
    ensures GyroMainSpec(g, found, angles).currentAngle < t <==> angles[|angles| - 1] < t
  {
  }

  /** MyAutoGyro. The gyro blocks are held as values; a block's update is a reassignment of the list. */
  class AutoGyro {
    var gyros: seq<Gyro>
    var currentAngle: real
    var targetDirection: Vec3
    var hasRC: bool
    var maxGyroAmount: nat
    var ctrlCoeff: real
    var accuracy: real

    function Value(): GyroState
      reads this
    {
      GyroState(gyros, currentAngle, targetDirection, hasRC, maxGyroAmount, ctrlCoeff, accuracy)
    }

    /**
     * The constructor: the defaults of Init (99 gyros, coefficient 0.5,
     * accuracy 0.01, no target), then the gyro lookup only when a remote
     * control was found.
     */
    constructor (rcFound: bool, found: seq<Gyro>)
      ensures Value() == GyroState(if rcFound then Truncate(found, 99) else [], 0.0, Zero, rcFound, 99, 0.5, 0.01)
    {
      gyros := [];
      currentAngle := 0.0;
      targetDirection := Zero;
      hasRC := false;
      maxGyroAmount := 99;
      ctrlCoeff := 0.5;
      accuracy := 0.01;
      new;
      if rcFound {
        hasRC := true;
        UpdateGyroList(found);
      }
    }

    method UpdateGyroList(found: seq<Gyro>)
      modifies this
      ensures Value() == old(Value()).(gyros := Truncate(found, old(maxGyroAmount)))
    {
      gyros := found;
      if |gyros| > maxGyroAmount {
        gyros := gyros[..maxGyroAmount];
      }
    }

    method GyrosOff()
      modifies this
      ensures Value() == old(Value()).(gyros := AllOff(old(gyros)))
    {
      var i := 0;
      while i < |gyros|
        invariant 0 <= i <= |gyros| == |old(gyros)|
        invariant gyros[..i] == AllOff(old(gyros))[..i]
        invariant gyros[i..] == old(gyros)[i..]
        invariant Value() == old(Value()).(gyros := gyros)
      {
        gyros := gyros[i := gyros[i].(override := false)];
        i := i + 1;
      }
      assert gyros == gyros[..i];
    }

    method GyroMain(found: seq<Gyro>, angles: seq<real>)
      requires |angles| == |Lookup(Value(), found)|
      modifies this
      ensures Value() == GyroMainSpec(old(Value()), found, angles)
    {
      if |gyros| == 0 {
        UpdateGyroList(found);
      }
      if |gyros| == 0 {
        return;
      }
      if !hasRC {
        GyrosOff();
        return;
      }
      if targetDirection == Zero {
        GyrosOff();
        return;
      }
      ghost var start := Value();
      var i := 0;
      while i < |gyros|
        invariant 0 <= i <= |gyros| == |start.gyros| == |angles|
        invariant gyros[..i] == Steered(start.gyros, angles, accuracy, ctrlCoeff)[..i]
        invariant gyros[i..] == start.gyros[i..]
        invariant Value() == start.(gyros := gyros, currentAngle := currentAngle)
        invariant currentAngle == if i == 0 then start.currentAngle else angles[i - 1]
      {
        assert gyros[i] == gyros[i..][0] == start.gyros[i..][0] == start.gyros[i];
        var ang := angles[i];
        currentAngle := ang;
        if ang < accuracy {
          gyros := gyros[i := gyros[i].(override := false)];
        } else {
          var rate := ControlRate(gyros[i].maxRate, ang, ctrlCoeff);
          gyros := gyros[i := gyros[i].(override := true, rate := rate)];
        }
        assert gyros[i] == Steered(start.gyros, angles, accuracy, ctrlCoeff)[i];
        assert gyros[..i + 1] == gyros[..i] + [gyros[i]];
        i := i + 1;
      }
      assert gyros == gyros[..i];
    }

    /** IsAligned(float midAngleRad). */
    function IsAlignedWithin(midAngleRad: real): bool
      reads this
    {
      currentAngle < midAngleRad
    }

    /** IsAligned(): against the configured accuracy. */
    function IsAligned(): bool
      reads this
    {
      currentAngle < accuracy
    }

    method SetTarget(direction: Vec3)
      modifies this
      ensures Value() == old(Value()).(target := direction)
    {
      targetDirection := direction;
    }
  }
}
