/**
 * Shared vocabulary of the override controllers: the drive command that flows
 * from the autopilot through each controller to the actuators, and the mode
 * string under which the controllers are allowed to act.
 */
module Parts {

  datatype Option<T> = None | Some(value: T)

  /** One drive command: throttle and steering in [-1, 1], brake in [0, 1] when well-formed. */
  datatype Command = Command(throttle: real, angle: real, brake: real)

  /** The mode string that means "the autopilot drives". */
  const Autopilot: string := "local"

  /** The declared ranges of a drive command. */
  predicate InRange(c: Command) {
    -1.0 <= c.throttle <= 1.0 && -1.0 <= c.angle <= 1.0 && 0.0 <= c.brake <= 1.0
  }

  function Abs(x: real): real {
    if x < 0.0 then -x else x
  }

  function Min(a: int, b: int): int {
    if a < b then a else b
  }
}
