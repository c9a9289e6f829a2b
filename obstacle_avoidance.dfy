/**
 * The obstacle-avoidance controller. Its live rule looks only at the first
 * lidar reading: when that reading is a real return and the car is driving at
 * full throttle and at least unit speed, it commands full reverse and full
 * brake; otherwise it passes the command through. The controller keeps no
 * state between calls.
 *
 * The proximity-based steering that follows the live rule in the source is
 * unreachable there (the live rule always returns first). It is modelled
 * separately as `AvoidByProximity`, which `Run` never calls.
 */
module Avoidance {
  import opened Parts

  /** The lidar value that marks "no return". */
  const NoReturn := -1.0

  /** The emergency command for an input steering `angle`: full reverse, steering kept, full brake. */
  function Emergency(angle: real): Command {
    Command(-1.0, angle, 1.0)
  }

  predicate Overrides(throttle: real, speed: real, lidar: seq<real>)
    requires |lidar| > 0
  {
    lidar[0] != NoReturn && throttle >= 1.0 && speed >= 1.0
  }

  /** One call of `run`. The mode is accepted and ignored, as on the live path of the source. */
  function Run(mode: string, inputThrottle: real, inputAngle: real, speed: real, lidar: seq<real>, inputBrake: real)
    : (out: Command)
    requires |lidar| > 0
    ensures out.angle == inputAngle
    ensures Overrides(inputThrottle, speed, lidar) ==> out == Emergency(inputAngle)
    ensures !Overrides(inputThrottle, speed, lidar) ==> out == Command(inputThrottle, inputAngle, inputBrake)
  {
    if lidar[0] != NoReturn then
      if inputThrottle < 1.0 then Command(inputThrottle, inputAngle, inputBrake)
      else if speed < 1.0 then Command(inputThrottle, inputAngle, inputBrake)
      else Command(-1.0, inputAngle, 1.0)
    else
      Command(inputThrottle, inputAngle, inputBrake)
  }

  /** The result of the live rule does not depend on the mode. */
  lemma ModeIrrelevant(m1: string, m2: string, throttle: real, angle: real, speed: real, lidar: seq<real>, brake: real)
    requires |lidar| > 0
    ensures Run(m1, throttle, angle, speed, lidar, brake) == Run(m2, throttle, angle, speed, lidar, brake)
  {
  }

  /** A well-formed input command gives a well-formed output command. */
  lemma RunKeepsRange(mode: string, throttle: real, angle: real, speed: real, lidar: seq<real>, brake: real)
    requires |lidar| > 0 && InRange(Command(throttle, angle, brake))
    ensures InRange(Run(mode, throttle, angle, speed, lidar, brake))
  {
  }

  // ---------------------------------------------------------------------------
  // Unreachable proximity avoidance (never called by Run)
  // ---------------------------------------------------------------------------

  /** Readings at or above this distance are never taken as the nearest one. */
  const ScanStart := 100.0
  const FarDistance := 4.5
  const CloseDistance := 1.5
  /** Degrees per lidar index. */
  const DegreesPerIndex := 20

  /**
   * The index and value of the nearest reading below ScanStart, scanning from
   * the front of `lidar`; (-1, ScanStart) when there is none. Among equal
   * nearest readings the first wins.
   */
  function Nearest(lidar: seq<real>): (res: (int, real))
    ensures -1 <= res.0 < |lidar|
    ensures res.1 <= ScanStart
    ensures forall i :: 0 <= i < |lidar| ==> res.1 <= lidar[i]
    ensures res.0 == -1 <==> forall i :: 0 <= i < |lidar| ==> lidar[i] >= ScanStart
    ensures res.0 == -1 ==> res.1 == ScanStart
    ensures res.0 != -1 ==> res.1 == lidar[res.0] && res.1 < ScanStart
    ensures res.0 != -1 ==> forall i :: 0 <= i < res.0 ==> lidar[i] > res.1
    decreases |lidar|
  {
    if lidar == [] then (-1, ScanStart)
    else
      var prev := Nearest(lidar[..|lidar| - 1]);
      var v := lidar[|lidar| - 1];
      if v < prev.1 then (|lidar| - 1, v) else prev
  }

  /** The loop over the scan that finds the nearest reading. */
  method ScanMinimum(lidar: seq<real>) returns (minK: int, minV: real)
    ensures (minK, minV) == Nearest(lidar)
  {
    minK := -1;
    minV := ScanStart;
    for k := 0 to |lidar|
      invariant (minK, minV) == Nearest(lidar[..k])
    {
      assert lidar[..k + 1][..k] == lidar[..k];
      if lidar[k] < minV {
        minV := lidar[k];
        minK := k;
      }
    }
    assert lidar[..|lidar|] == lidar;
  }

  /** The proximity factor: 1 up close, falling linearly to 0 at the far distance. */
  function Alfa(minV: real): (alfa: real)
    requires 0.0 < minV < FarDistance
    ensures 0.0 < alfa <= 1.0
    ensures minV < CloseDistance ==> alfa == 1.0
    ensures minV >= CloseDistance ==> alfa * (FarDistance - CloseDistance) == FarDistance - minV
  {
    if minV < CloseDistance then 1.0 else (FarDistance - minV) / (FarDistance - CloseDistance)
  }

  /** A nearer obstacle never gives a smaller proximity factor. */
  lemma AlfaAntitone(u: real, v: real)
    requires 0.0 < u <= v < FarDistance
    ensures Alfa(u) >= Alfa(v)
  {
  }

  function Clamp(x: real): (r: real)
    ensures -1.0 <= r <= 1.0
    ensures -1.0 <= x <= 1.0 ==> r == x
    ensures x > 1.0 ==> r == 1.0
    ensures x < -1.0 ==> r == -1.0
  {
    if x < -1.0 then -1.0 else if x > 1.0 then 1.0 else x
  }

  /**
   * The output of the proximity rule for the nearest reading `nearest`: when
   * an obstacle lies between 0 and the far distance, the steering is pushed
   * away from it by half the proximity factor and clamped, the brake is
   * released and the throttle is kept; otherwise the command passes through.
   */
  function ProximityOutput(inputThrottle: real, inputAngle: real, inputBrake: real, nearest: (int, real))
    : (out: Command)
    ensures out.throttle == inputThrottle
    ensures nearest.0 == -1 || !(0.0 < nearest.1 < FarDistance) ==>
              out == Command(inputThrottle, inputAngle, inputBrake)
    ensures nearest.0 != -1 && 0.0 < nearest.1 < FarDistance ==>
              && out.brake == 0.0 && -1.0 <= out.angle <= 1.0
              && (nearest.0 * DegreesPerIndex <= 180 && inputAngle > -1.0 ==> out.angle < inputAngle)
              && (nearest.0 * DegreesPerIndex > 180 && inputAngle < 1.0 ==> out.angle > inputAngle)
              && (-1.0 <= inputAngle <= 1.0 ==> Abs(out.angle - inputAngle) <= 0.5 * Alfa(nearest.1))
              && (nearest.0 * DegreesPerIndex <= 180 && -1.0 <= inputAngle - 0.5 * Alfa(nearest.1) <= 1.0 ==>
                    out.angle == inputAngle - 0.5 * Alfa(nearest.1))
              && (nearest.0 * DegreesPerIndex > 180 && -1.0 <= inputAngle + 0.5 * Alfa(nearest.1) <= 1.0 ==>
                    out.angle == inputAngle + 0.5 * Alfa(nearest.1))
              && (nearest.0 * DegreesPerIndex <= 180 && inputAngle - 0.5 * Alfa(nearest.1) < -1.0 ==> out.angle == -1.0)
              && (nearest.0 * DegreesPerIndex <= 180 && inputAngle - 0.5 * Alfa(nearest.1) > 1.0 ==> out.angle == 1.0)
              && (nearest.0 * DegreesPerIndex > 180 && inputAngle + 0.5 * Alfa(nearest.1) < -1.0 ==> out.angle == -1.0)
              && (nearest.0 * DegreesPerIndex > 180 && inputAngle + 0.5 * Alfa(nearest.1) > 1.0 ==> out.angle == 1.0)
  {
    var (minK, minV) := nearest;
    if minK == -1 then
      Command(inputThrottle, inputAngle, inputBrake)
    else if 0.0 < minV < FarDistance then
      var alfa := Alfa(minV);
      var mult := if minK * DegreesPerIndex <= 180 then -1.0 else 1.0;
      Command(inputThrottle, Clamp(inputAngle + mult * alfa * 0.5), 0.0)
    else
      Command(inputThrottle, inputAngle, inputBrake)
  }

  /** A reading closer than the close distance deflects the steering by a full half unit (before clamping). */
  lemma CloseObstacleFullDeflection(inputThrottle: real, inputAngle: real, inputBrake: real, nearest: (int, real))
    requires nearest.0 >= 0 && 0.0 < nearest.1 < CloseDistance
    requires -0.5 <= inputAngle <= 0.5
    ensures var out := ProximityOutput(inputThrottle, inputAngle, inputBrake, nearest);
            out.angle == if nearest.0 * DegreesPerIndex <= 180 then inputAngle - 0.5 else inputAngle + 0.5
  {
  }

  /**
   * The unreachable tail of `run`: find the nearest reading, then apply the
   * proximity rule. Speed and mode do not affect the result.
   */
  method AvoidByProximity(mode: string, inputThrottle: real, inputAngle: real, speed: real, lidar: seq<real>,
                          inputBrake: real) returns (out: Command)
    ensures out == ProximityOutput(inputThrottle, inputAngle, inputBrake, Nearest(lidar))
  {
    var minK, minV := ScanMinimum(lidar);
    if minK == -1 {
      return Command(inputThrottle, inputAngle, inputBrake);
    }
    if 0.0 < minV < FarDistance {
      var alfa := Alfa(minV);
      var mult := if minK * DegreesPerIndex <= 180 then -1.0 else 1.0;
      var newAngle := inputAngle + mult * alfa * 0.5;
      if newAngle < -1.0 {
        newAngle := -1.0;
      }
      if newAngle > 1.0 {
        newAngle := 1.0;
      }
      return Command(inputThrottle, newAngle, 0.0);
    }
    return Command(inputThrottle, inputAngle, inputBrake);
  }
}
