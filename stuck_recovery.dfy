/**
 * The stuck-recovery controller: a three-state machine
 * (1 = detecting stop, 2 = detecting stuck, 3 = recovering) that, once the car
 * has stood still in autopilot mode for longer than the stuck duration, drives
 * it backwards with full steering to one side for the recovery duration.
 *
 * The steering side comes from the signed difference between the current yaw
 * and the circular mean of recent headings. The circular mean needs
 * trigonometry, so it enters the model as a parameter `meanAngle` that is only
 * known to satisfy `IsMeanAngle`.
 */
module Recovery {
  import opened Parts

  /** At most this many headings are kept. */
  const Capacity := 20
  /** Minimum time between two heading samples, in seconds. */
  const SampleInterval := 0.25
  /** A heading is sampled only above this speed. */
  const SampleSpeed := 10.0
  /** Below this speed the car counts as stopped. */
  const StopSpeed := 0.5
  /** A recovery whose heading error still exceeds this many degrees is extended. */
  const ErrorLimit := 45.0
  /** How much recovery time an extension leaves, in seconds. */
  const Extension := 0.5

  // ---------------------------------------------------------------------------
  // Angle helpers
  // ---------------------------------------------------------------------------

  predicate IsWhole(x: real) {
    x == x.Floor as real
  }

  /** The floating-point `%` with divisor 360: the representative of `x` modulo 360 in [0, 360). */
  function Mod360(x: real): (r: real)
    ensures 0.0 <= r < 360.0
    ensures IsWhole((x - r) / 360.0)
  {
    var q := (x / 360.0).Floor;
    assert (x - (x - 360.0 * q as real)) / 360.0 == q as real;
    x - 360.0 * q as real
  }

  /**
   * The signed angle from `prev` to `curr`: the value congruent to
   * `curr - prev` modulo 360 that lies in [-180, 180). The `< -180` branch
   * is kept as written; the range of Mod360 makes it unreachable.
   */
  function DiffAngle(prev: real, curr: real): (r: real)
    ensures -180.0 <= r < 180.0
    ensures IsWhole((curr - prev - r) / 360.0)
  {
    var diff := Mod360(curr - prev + 180.0) - 180.0;
    assert (curr - prev - diff) / 360.0 == (curr - prev + 180.0 - Mod360(curr - prev + 180.0)) / 360.0;
    assert diff >= -180.0;
    if diff < -180.0 then diff + 360.0 else diff
  }

  /** Two values congruent modulo 360 that both lie in [-180, 180) are equal. */
  lemma CongruentInRangeEqual(d: real, u: real, v: real)
    requires -180.0 <= u < 180.0 && -180.0 <= v < 180.0
    requires IsWhole((d - u) / 360.0) && IsWhole((d - v) / 360.0)
    ensures u == v
  {
    var a := ((d - u) / 360.0).Floor;
    var b := ((d - v) / 360.0).Floor;
    assert (a - b) as real == (v - u) / 360.0;
    assert -1 < a - b < 1;
  }

  /** DiffAngle is the only value in [-180, 180) congruent to `curr - prev`. */
  lemma DiffAngleUnique(prev: real, curr: real, v: real)
    requires -180.0 <= v < 180.0
    requires IsWhole((curr - prev - v) / 360.0)
    ensures v == DiffAngle(prev, curr)
  {
    var r := DiffAngle(prev, curr);
    CongruentInRangeEqual(curr - prev, v, r);
  }

  lemma DiffAngleSelf(a: real)
    ensures DiffAngle(a, a) == 0.0
  {
    assert (a - a - 0.0) / 360.0 == 0.0;
    DiffAngleUnique(a, a, 0.0);
  }

  /** Swapping the arguments negates the difference, except at the half-turn -180. */
  lemma DiffAngleAntisymmetric(a: real, b: real)
    requires DiffAngle(b, a) != -180.0
    ensures DiffAngle(a, b) == -DiffAngle(b, a)
  {
    var r := DiffAngle(b, a);
    var k := ((a - b - r) / 360.0).Floor;
    assert (a - b - r) / 360.0 == k as real;
    var x := (b - a - (-r)) / 360.0;
    assert x == (-k) as real;
    assert IsWhole(x);
    DiffAngleUnique(a, b, -r);
  }

  /**
   * What the code fixes about the circular mean of a list of headings: it is 0
   * for the empty list and lies in [0, 360) otherwise.
   */
  ghost predicate IsMeanAngle(f: seq<real> -> real) {
    f([]) == 0.0 && forall w: seq<real> :: 0.0 <= f(w) < 360.0
  }

  /**
   * The mean that the heading error is measured from lies in [0, 360), and it
   * is 0 while fewer than two headings are kept (the window is then empty).
   */
  lemma WindowMean(f: seq<real> -> real, d: seq<real>)
    requires IsMeanAngle(f)
    ensures 0.0 <= f(RecentWindow(d)) < 360.0
    ensures |d| <= 1 ==> f(RecentWindow(d)) == 0.0
  {
  }

  /**
   * The slice `directions[-10:-1]`: up to nine of the most recent headings,
   * never including the newest one.
   */
  function RecentWindow(d: seq<real>): (w: seq<real>)
    ensures |w| == if |d| <= 1 then 0 else Min(9, |d| - 1)
    ensures |d| >= 1 ==> w == d[|d| - 1 - |w| .. |d| - 1]
  {
    if |d| <= 1 then [] else d[(if |d| > 10 then |d| - 10 else 0) .. |d| - 1]
  }

  // ---------------------------------------------------------------------------
  // Configuration, state and inputs
  // ---------------------------------------------------------------------------

  datatype Config = Config(
    stuckDuration: real,
    timerDuration: real,
    recoveryThrottle: real,
    meanAngle: seq<real> -> real)

  /** The controller's mutable fields as a value. */
  datatype Snapshot = Snapshot(
    state: int,
    stuckStart: Option<real>,
    timerStart: Option<real>,
    directions: seq<real>,
    lastSaved: real)

  /** The inputs of one call of `run` that the controller looks at. */
  datatype Reading = Reading(mode: string, throttle: real, angle: real, speed: real, brake: real, yaw: real)

  /**
   * The state is one of 1, 2, 3; the heading list is within capacity; and the
   * timestamp each state reads has been set.
   */
  predicate Consistent(s: Snapshot) {
    && 1 <= s.state <= 3
    && |s.directions| <= Capacity
    && (s.state == 2 ==> s.stuckStart.Some?)
    && (s.state == 3 ==> s.timerStart.Some?)
  }

  function Passed(r: Reading): Command {
    Command(r.throttle, r.angle, r.brake)
  }

  /** A stopped reading is one below the stop speed; it is never fast enough for a heading sample. */
  function DetectIsStop(speed: real): (stopped: bool)
    ensures stopped <==> speed < StopSpeed
    ensures stopped ==> speed <= SampleSpeed
  {
    speed < StopSpeed
  }

  predicate SampleDue(s: Snapshot, r: Reading, now: real) {
    now - s.lastSaved >= SampleInterval && r.throttle > 0.0 && r.speed > SampleSpeed && s.state == 1
  }

  /**
   * The heading sampling at the top of `run`: when due, the yaw is appended,
   * the sample time is recorded, and the list keeps only its newest entries.
   */
  function Sample(s: Snapshot, r: Reading, now: real): (t: Snapshot)
    requires |s.directions| <= Capacity
    ensures |t.directions| <= Capacity
    ensures t.state == s.state && t.stuckStart == s.stuckStart && t.timerStart == s.timerStart
    ensures SampleDue(s, r, now) ==>
              && t.lastSaved == now
              && |t.directions| == Min(|s.directions| + 1, Capacity)
              && t.directions == (s.directions + [r.yaw])[|s.directions| + 1 - |t.directions|..]
              && t.directions[|t.directions| - 1] == r.yaw
    ensures !SampleDue(s, r, now) ==> t == s
  {
    if SampleDue(s, r, now) then
      var d := s.directions + [r.yaw];
      s.(directions := if |d| > Capacity then d[1..] else d, lastSaved := now)
    else
      s
  }

  /** The heading error: the signed angle from the mean of the recent window to the yaw. */
  function ErrorAngle(c: Config, directions: seq<real>, yaw: real): (e: real)
    ensures -180.0 <= e < 180.0
    ensures IsWhole((yaw - c.meanAngle(RecentWindow(directions)) - e) / 360.0)
  {
    DiffAngle(c.meanAngle(RecentWindow(directions)), yaw)
  }

  /** The steering used while recovering: full right or full left, by the sign of the error. */
  function RecoveryDirection(c: Config, directions: seq<real>, yaw: real): (d: real)
    ensures d == 1.0 || d == -1.0
    ensures d == 1.0 <==> ErrorAngle(c, directions, yaw) >= 0.0
  {
    if ErrorAngle(c, directions, yaw) >= 0.0 then 1.0 else -1.0
  }

  /** The recovery command: reverse at the configured throttle, full steering, no brake. */
  function RecoveryOutput(c: Config, directions: seq<real>, yaw: real): (out: Command)
    ensures out.throttle == c.recoveryThrottle && out.brake == 0.0
    ensures out.angle == 1.0 || out.angle == -1.0
    ensures out.angle == 1.0 <==> ErrorAngle(c, directions, yaw) >= 0.0
  {
    Command(c.recoveryThrottle, RecoveryDirection(c, directions, yaw), 0.0)
  }

  /** The neutral command emitted on the tick a recovery ends. */
  const Neutral := Command(0.0, 0.0, 1.0)

  /** One call of `run`: the new state and the command it returns. */
  function Step(c: Config, s: Snapshot, r: Reading, now: real): (res: (Snapshot, Command))
    requires Consistent(s)
    ensures Consistent(res.0)
    ensures res.0.directions == Sample(s, r, now).directions
    ensures res.0.lastSaved == Sample(s, r, now).lastSaved
    ensures res.1 == Passed(r) || res.1 == Neutral || res.1 == RecoveryOutput(c, res.0.directions, r.yaw)
  {
    var t := Sample(s, r, now);
    if r.mode != Autopilot then
      (t, Passed(r))
    else if t.state == 1 then
      (if DetectIsStop(r.speed) then t.(state := 2, stuckStart := Some(now)) else t, Passed(r))
    else if t.state == 2 then
      if !DetectIsStop(r.speed) then
        (t.(state := 1), Passed(r))
      else if now - t.stuckStart.value > c.stuckDuration then
        (t.(state := 3, timerStart := Some(now)), RecoveryOutput(c, t.directions, r.yaw))
      else
        (t, Passed(r))
    else if now - t.timerStart.value <= c.timerDuration then
      (t, RecoveryOutput(c, t.directions, r.yaw))
    else if Abs(ErrorAngle(c, t.directions, r.yaw)) > ErrorLimit then
      (t.(timerStart := Some(now - c.timerDuration + Extension)), RecoveryOutput(c, t.directions, r.yaw))
    else
      (t.(state := 1), Neutral)
  }

  // ---------------------------------------------------------------------------
  // Properties of one step
  // ---------------------------------------------------------------------------

  /** Outside autopilot the command passes through and only the sampling may change the state. */
  lemma PassThroughOutsideAutopilot(c: Config, s: Snapshot, r: Reading, now: real)
    requires Consistent(s) && r.mode != Autopilot
    ensures Step(c, s, r, now).1 == Passed(r)
    ensures Step(c, s, r, now).0 == Sample(s, r, now)
    ensures var t := Step(c, s, r, now).0;
            t.state == s.state && t.stuckStart == s.stuckStart && t.timerStart == s.timerStart
  {
  }

  /** A heading is recorded only in state 1, moving fast, with forward throttle, and not too soon. */
  lemma SamplingConditions(c: Config, s: Snapshot, r: Reading, now: real)
    requires Consistent(s)
    ensures var t := Step(c, s, r, now).0;
            (t.lastSaved != s.lastSaved || t.directions != s.directions) ==>
              s.state == 1 && r.throttle > 0.0 && r.speed > SampleSpeed && now - s.lastSaved >= SampleInterval
  {
  }

  /** State 1 always passes the command through and moves to state 2 exactly when stopped. */
  lemma DetectingStop(c: Config, s: Snapshot, r: Reading, now: real)
    requires Consistent(s) && s.state == 1 && r.mode == Autopilot
    ensures var (t, out) := Step(c, s, r, now);
            && out == Passed(r)
            && (t.state == 2 <==> r.speed < StopSpeed)
            && (r.speed < StopSpeed ==> t.stuckStart == Some(now))
            && (r.speed >= StopSpeed ==> t.state == 1 && t.stuckStart == s.stuckStart)
            && t.timerStart == s.timerStart
  {
  }

  /** State 2: moving again returns to state 1; stopped for long enough starts a recovery. */
  lemma DetectingStuck(c: Config, s: Snapshot, r: Reading, now: real)
    requires Consistent(s) && s.state == 2 && r.mode == Autopilot
    ensures var (t, out) := Step(c, s, r, now);
            && (r.speed >= StopSpeed ==> t.state == 1 && out == Passed(r))
            && (r.speed < StopSpeed && now - s.stuckStart.value > c.stuckDuration ==>
                  t.state == 3 && t.timerStart == Some(now) && out == RecoveryOutput(c, s.directions, r.yaw))
            && (r.speed < StopSpeed && now - s.stuckStart.value <= c.stuckDuration ==>
                  t == s && out == Passed(r))
  {
  }

  /**
   * State 3: within the recovery duration it keeps recovering; past it, a large
   * heading error extends the recovery, otherwise the controller returns to
   * state 1 with the neutral command.
   */
  lemma Recovering(c: Config, s: Snapshot, r: Reading, now: real)
    requires Consistent(s) && s.state == 3 && r.mode == Autopilot
    ensures var (t, out) := Step(c, s, r, now);
            var err := ErrorAngle(c, s.directions, r.yaw);
            && (now - s.timerStart.value <= c.timerDuration ==>
                  t == s && out == RecoveryOutput(c, s.directions, r.yaw))
            && (now - s.timerStart.value > c.timerDuration && Abs(err) > ErrorLimit ==>
                  && t.state == 3 && out == RecoveryOutput(c, s.directions, r.yaw)
                  && t.timerStart.value + c.timerDuration - now == Extension)
            && (now - s.timerStart.value > c.timerDuration && Abs(err) <= ErrorLimit ==>
                  t.state == 1 && out == Neutral)
  {
  }

  /** An extension keeps the controller recovering for every tick in the next half second. */
  lemma ExtensionLastsHalfSecond(c: Config, s: Snapshot, r: Reading, now: real, r2: Reading, later: real)
    requires Consistent(s) && s.state == 3 && r.mode == Autopilot && r2.mode == Autopilot
    requires now - s.timerStart.value > c.timerDuration
    requires Abs(ErrorAngle(c, s.directions, r.yaw)) > ErrorLimit
    requires now <= later <= now + Extension
    ensures var t := Step(c, s, r, now).0;
            var (u, out) := Step(c, t, r2, later);
            u.state == 3 && out == RecoveryOutput(c, t.directions, r2.yaw)
  {
    Recovering(c, s, r, now);
    var t := Step(c, s, r, now).0;
    assert t.state == 3 && later - t.timerStart.value <= c.timerDuration;
    Recovering(c, t, r2, later);
  }

  /** With fewer than two headings the mean is of no headings, so the steering follows the yaw alone. */
  lemma ShortHistorySteering(c: Config, directions: seq<real>, yaw: real)
    requires IsMeanAngle(c.meanAngle) && |directions| <= 1
    ensures RecoveryDirection(c, directions, yaw) == if DiffAngle(0.0, yaw) >= 0.0 then 1.0 else -1.0
  {
    assert RecentWindow(directions) == [];
  }

  /** A well-formed input command and recovery throttle give a well-formed output command. */
  lemma StepKeepsRange(c: Config, s: Snapshot, r: Reading, now: real)
    requires Consistent(s)
    requires InRange(Passed(r)) && -1.0 <= c.recoveryThrottle <= 1.0
    ensures InRange(Step(c, s, r, now).1)
  {
  }

  // ---------------------------------------------------------------------------
  // Sequences of ticks
  // ---------------------------------------------------------------------------

  datatype Tick = Tick(reading: Reading, now: real)

  /** The state after running the controller over `ticks`. */
  function Replay(c: Config, s: Snapshot, ticks: seq<Tick>): (t: Snapshot)
    requires Consistent(s)
    ensures Consistent(t)
    ensures |t.directions| <= Capacity && 1 <= t.state <= 3
    decreases |ticks|
  {
    if ticks == [] then s
    else Replay(c, Step(c, s, ticks[0].reading, ticks[0].now).0, ticks[1..])
  }

  predicate StoppedInAutopilot(ticks: seq<Tick>) {
    forall i :: 0 <= i < |ticks| ==> ticks[i].reading.mode == Autopilot && ticks[i].reading.speed < StopSpeed
  }

  /**
   * In state 2, stopped autopilot ticks keep the controller waiting while the
   * stuck duration has not passed, and the first tick past it starts a recovery.
   */
  lemma {:induction false} StuckStartsRecovery(c: Config, s: Snapshot, ticks: seq<Tick>)
    requires Consistent(s) && s.state == 2
    requires |ticks| > 0 && StoppedInAutopilot(ticks)
    requires forall i :: 0 <= i < |ticks| - 1 ==> ticks[i].now - s.stuckStart.value <= c.stuckDuration
    requires ticks[|ticks| - 1].now - s.stuckStart.value > c.stuckDuration
    ensures Replay(c, s, ticks).state == 3
    ensures Replay(c, s, ticks).timerStart == Some(ticks[|ticks| - 1].now)
    ensures Replay(c, s, ticks).directions == s.directions
    decreases |ticks|
  {
    var t := Step(c, s, ticks[0].reading, ticks[0].now).0;
    if |ticks| == 1 {
      assert ticks[1..] == [];
    } else {
      assert t == s;
      StuckStartsRecovery(c, t, ticks[1..]);
    }
  }

  /**
   * From state 1, a car that stops in autopilot mode and stays stopped past
   * the stuck duration (measured from the first stopped tick) is recovering.
   */
  lemma {:induction false} SustainedStopStartsRecovery(c: Config, s: Snapshot, ticks: seq<Tick>)
    requires Consistent(s) && s.state == 1
    requires |ticks| >= 2 && StoppedInAutopilot(ticks)
    requires forall i :: 1 <= i < |ticks| - 1 ==> ticks[i].now - ticks[0].now <= c.stuckDuration
    requires ticks[|ticks| - 1].now - ticks[0].now > c.stuckDuration
    ensures Replay(c, s, ticks).state == 3
    ensures Replay(c, s, ticks).timerStart == Some(ticks[|ticks| - 1].now)
  {
    var t := Step(c, s, ticks[0].reading, ticks[0].now).0;
    assert t.state == 2 && t.stuckStart == Some(ticks[0].now);
    var rest := ticks[1..];
    assert forall i :: 0 <= i < |rest| - 1 ==> rest[i].now - t.stuckStart.value <= c.stuckDuration by {
      forall i | 0 <= i < |rest| - 1 ensures rest[i].now - t.stuckStart.value <= c.stuckDuration {
        assert rest[i] == ticks[i + 1];
      }
    }
    StuckStartsRecovery(c, t, rest);
  }

  // ---------------------------------------------------------------------------
  // The controller object
  // ---------------------------------------------------------------------------

  class StuckRecovery {
    const stuckDuration: real
    const timerDuration: real
    const recoveryThrottle: real
    const meanAngle: seq<real> -> real

    var state: int
    var stuckStart: Option<real>
    var timerStart: Option<real>
    var directions: seq<real>
    var lastTimeDirectionsSaved: real

    function Cfg(): Config {
      Config(stuckDuration, timerDuration, recoveryThrottle, meanAngle)
    }

    function View(): Snapshot
      reads this
    {
      Snapshot(state, stuckStart, timerStart, directions, lastTimeDirectionsSaved)
    }

    ghost predicate Valid()
      reads this
    {
      IsMeanAngle(meanAngle) && Consistent(View())
    }

    constructor (meanAngle: seq<real> -> real, now: real,
                 recoveryDuration: real := 2.2, recoveryThrottle: real := -0.5, stuckDuration: real := 0.5)
      requires IsMeanAngle(meanAngle)
      ensures Valid()
      ensures View() == Snapshot(1, None, None, [], now)
      ensures this.stuckDuration == stuckDuration && this.timerDuration == recoveryDuration
      ensures this.recoveryThrottle == recoveryThrottle && this.meanAngle == meanAngle
    {
      this.stuckDuration := stuckDuration;
      this.timerDuration := recoveryDuration;
      this.recoveryThrottle := recoveryThrottle;
      this.meanAngle := meanAngle;
      stuckStart := None;
      timerStart := None;
      state := 1;
      directions := [];
      lastTimeDirectionsSaved := now;
    }

    /** One control tick: returns the (possibly replaced) throttle, steering and brake. */
    method Run(mode: string, inputThrottle: real, inputAngle: real, speed: real, inputBrake: real,
               yaw: real, now: real) returns (out: Command)
      requires Valid()
      modifies this
      ensures Valid()
      ensures (View(), out) == Step(Cfg(), old(View()), Reading(mode, inputThrottle, inputAngle, speed, inputBrake, yaw), now)
    {
      if now - lastTimeDirectionsSaved >= SampleInterval {
        if inputThrottle > 0.0 && speed > SampleSpeed && state == 1 {
          directions := directions + [yaw];
          lastTimeDirectionsSaved := now;
          if |directions| > Capacity {
            directions := directions[1..];
          }
        }
      }

      if mode != Autopilot {
        return Command(inputThrottle, inputAngle, inputBrake);
      }

      if state == 1 {
        if DetectIsStop(speed) {
          StartDetectingStuck(now);
        }
        return Command(inputThrottle, inputAngle, inputBrake);
      }

      if state == 2 {
        if DetectIsStop(speed) {
          var isStuck := MaintainDetectingStuck(now);
          if isStuck {
            StartRecovery(now);
            return RecoveryOutput(Cfg(), directions, yaw);
          } else {
            return Command(inputThrottle, inputAngle, inputBrake);
          }
        } else {
          FinishDetectingStuck();
          return Command(inputThrottle, inputAngle, inputBrake);
        }
      }

      var isRecovering := MaintainRecovery(yaw, now);
      if isRecovering {
        return RecoveryOutput(Cfg(), directions, yaw);
      } else {
        FinishRecovery();
        return Neutral;
      }
    }

    /**
     * Decides whether the recovery goes on. Past the recovery duration with a
     * heading error above 45 degrees, it moves the timer so that exactly half
     * a second of recovery remains.
     */
    method MaintainRecovery(yaw: real, now: real) returns (recovering: bool)
      requires Valid() && state == 3
      modifies this`timerStart
      ensures Valid()
      ensures var expired := now - old(timerStart).value > timerDuration;
              var wrongWay := Abs(ErrorAngle(Cfg(), directions, yaw)) > ErrorLimit;
              && recovering == (!expired || wrongWay)
              && timerStart == if expired && wrongWay then Some(now - timerDuration + Extension) else old(timerStart)
    {
      var duration := now - timerStart.value;
      var durationResult := duration <= timerDuration;
      if !durationResult && Abs(ErrorAngle(Cfg(), directions, yaw)) > ErrorLimit {
        timerStart := Some(now - timerDuration + Extension);
        return true;
      }
      return durationResult;
    }

    method StartRecovery(now: real)
      requires Valid()
      modifies this`state, this`timerStart
      ensures Valid() && state == 3 && timerStart == Some(now)
    {
      state := 3;
      timerStart := Some(now);
    }

    method FinishRecovery()
      requires Valid()
      modifies this`state
      ensures Valid() && state == 1
    {
      state := 1;
    }

    method StartDetectingStuck(now: real)
      requires Valid()
      modifies this`state, this`stuckStart
      ensures Valid() && state == 2 && stuckStart == Some(now)
    {
      state := 2;
      stuckStart := Some(now);
    }

    /** True when the car has been stopped for longer than the stuck duration. */
    function MaintainDetectingStuck(now: real): (stuck: bool)
      reads this
      requires stuckStart.Some?
      ensures stuck <==> now - stuckStart.value > stuckDuration
      ensures state == 2 && Consistent(View()) ==>
                forall r: Reading :: r.mode == Autopilot && r.speed < StopSpeed ==>
                  (stuck <==> Step(Cfg(), View(), r, now).0.state == 3)
    {
      now - stuckStart.value > stuckDuration
    }

    method FinishDetectingStuck()
      requires Valid()
      modifies this`state
      ensures Valid() && state == 1
    {
      state := 1;
    }
  }
}
