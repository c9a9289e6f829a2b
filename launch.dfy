/**
 * The launch controllers: a one-shot throttle boost at the start of an
 * autopilot run. The boost is armed explicitly or, when `triggerOnSwitch` is
 * set, by switching into autopilot mode; it holds for the launch duration and
 * then disarms itself. AiLaunch replaces the throttle; AiCatapult also takes
 * the steering and, with `lockAngle`, zeroes the steering instead of boosting.
 * Both classes share one transition, `Advance`.
 */
module Launch {
  import opened Parts

  datatype LaunchConfig = LaunchConfig(duration: real, launchThrottle: real, triggerOnSwitch: bool)

  /** The fields both launch classes update. */
  datatype LaunchState = LaunchState(active: bool, enabled: bool, timerStart: Option<real>, prevMode: Option<string>)

  /** A boost is only active when armed, with a start time, in autopilot mode. */
  predicate Coherent(s: LaunchState) {
    s.active ==> s.enabled && s.timerStart.Some? && s.prevMode == Some(Autopilot)
  }

  const Initial := LaunchState(false, false, None, None)

  /** `enable_ai_launch`: arm the boost. */
  function Arm(s: LaunchState): (t: LaunchState)
    ensures t.enabled
    ensures t.active == s.active && t.timerStart == s.timerStart && t.prevMode == s.prevMode
    ensures Coherent(s) ==> Coherent(t)
  {
    s.(enabled := true)
  }

  lemma ArmIdempotent(s: LaunchState)
    ensures Arm(Arm(s)) == Arm(s)
  {
  }

  /** The state change made by one call of `run` with `mode` at time `now`. */
  function Advance(c: LaunchConfig, s: LaunchState, mode: string, now: real): (t: LaunchState)
    requires Coherent(s)
    ensures Coherent(t)
    ensures t.prevMode == Some(mode)
    ensures s.enabled && !t.enabled ==> s.active && !t.active
    ensures mode != Autopilot ==> !t.active && t.enabled == s.enabled && t.timerStart == s.timerStart
    ensures !s.enabled && t.enabled ==> mode == Autopilot && c.triggerOnSwitch && s.prevMode != Some(mode)
  {
    var enabled := if Some(mode) != s.prevMode && mode == Autopilot && c.triggerOnSwitch then true else s.enabled;
    if mode == Autopilot && enabled then
      if !s.active then
        LaunchState(true, enabled, Some(now), Some(mode))
      else if now - s.timerStart.value > c.duration then
        LaunchState(false, false, s.timerStart, Some(mode))
      else
        LaunchState(true, enabled, s.timerStart, Some(mode))
    else
      LaunchState(false, enabled, s.timerStart, Some(mode))
  }

  /** The throttle AiLaunch returns once its state is `t`. */
  function LaunchOutput(c: LaunchConfig, t: LaunchState, aiThrottle: real): (throttle: real)
    ensures throttle == aiThrottle || throttle == c.launchThrottle
    ensures t.active ==> throttle == c.launchThrottle
    ensures !t.active ==> throttle == aiThrottle
  {
    if t.active then c.launchThrottle else aiThrottle
  }

  /** The throttle and steering AiCatapult returns once its state is `t`. */
  function CatapultOutput(c: LaunchConfig, lockAngle: bool, t: LaunchState, aiThrottle: real, aiAngle: real)
    : (out: (real, real))
    ensures t.active && lockAngle ==> out == (aiThrottle, 0.0)
    ensures t.active && !lockAngle ==> out == (c.launchThrottle, aiAngle)
    ensures !t.active ==> out == (aiThrottle, aiAngle)
  {
    var throttle := if t.active && !lockAngle then c.launchThrottle else aiThrottle;
    var angle := if t.active && lockAngle then 0.0 else aiAngle;
    (throttle, angle)
  }

  // ---------------------------------------------------------------------------
  // Properties of one call
  // ---------------------------------------------------------------------------

  /** Switching into autopilot with trigger-on-switch set arms and starts the boost. */
  lemma SwitchArms(c: LaunchConfig, s: LaunchState, now: real)
    requires Coherent(s) && c.triggerOnSwitch && s.prevMode != Some(Autopilot)
    ensures var t := Advance(c, s, Autopilot, now);
            t.enabled && t.active && t.timerStart == Some(now)
  {
  }

  /** Repeating the previous mode never arms. */
  lemma RepeatedModeDoesNotArm(c: LaunchConfig, s: LaunchState, mode: string, now: real)
    requires Coherent(s) && s.prevMode == Some(mode)
    ensures Advance(c, s, mode, now).enabled ==> s.enabled
  {
  }

  /** Outside autopilot nothing is boosted and the arm is kept. */
  lemma PassThroughOutsideAutopilot(c: LaunchConfig, s: LaunchState, mode: string, now: real,
                                    aiThrottle: real, aiAngle: real, lockAngle: bool)
    requires Coherent(s) && mode != Autopilot
    ensures var t := Advance(c, s, mode, now);
            && !t.active && t.enabled == s.enabled
            && LaunchOutput(c, t, aiThrottle) == aiThrottle
            && CatapultOutput(c, lockAngle, t, aiThrottle, aiAngle) == (aiThrottle, aiAngle)
  {
  }

  /** The first armed autopilot tick starts the boost now. */
  lemma FirstArmedTickBoosts(c: LaunchConfig, s: LaunchState, now: real, aiThrottle: real)
    requires Coherent(s) && s.enabled && !s.active
    ensures var t := Advance(c, s, Autopilot, now);
            t.active && t.timerStart == Some(now) && LaunchOutput(c, t, aiThrottle) == c.launchThrottle
  {
  }

  /** The first autopilot tick past the duration disarms and passes the throttle through. */
  lemma ExpiryDisarms(c: LaunchConfig, s: LaunchState, now: real, aiThrottle: real)
    requires Coherent(s) && s.active && now - s.timerStart.value > c.duration
    ensures var t := Advance(c, s, Autopilot, now);
            !t.active && !t.enabled && LaunchOutput(c, t, aiThrottle) == aiThrottle
  {
  }

  lemma OutputKeepsRange(c: LaunchConfig, s: LaunchState, mode: string, now: real,
                         aiThrottle: real, aiAngle: real, lockAngle: bool)
    requires Coherent(s)
    requires -1.0 <= aiThrottle <= 1.0 && -1.0 <= aiAngle <= 1.0 && -1.0 <= c.launchThrottle <= 1.0
    ensures var t := Advance(c, s, mode, now);
            var out := CatapultOutput(c, lockAngle, t, aiThrottle, aiAngle);
            && -1.0 <= LaunchOutput(c, t, aiThrottle) <= 1.0
            && -1.0 <= out.0 <= 1.0 && -1.0 <= out.1 <= 1.0
  {
  }

  // ---------------------------------------------------------------------------
  // Sequences of ticks
  // ---------------------------------------------------------------------------

  datatype LaunchTick = LaunchTick(mode: string, aiThrottle: real, now: real)

  /** The throttles AiLaunch returns over `ticks`, starting in state `s`. */
  function Throttles(c: LaunchConfig, s: LaunchState, ticks: seq<LaunchTick>): (out: seq<real>)
    requires Coherent(s)
    ensures |out| == |ticks|
    ensures forall i :: 0 <= i < |out| ==> out[i] == ticks[i].aiThrottle || out[i] == c.launchThrottle
    decreases |ticks|
  {
    if ticks == [] then []
    else
      var t := Advance(c, s, ticks[0].mode, ticks[0].now);
      [LaunchOutput(c, t, ticks[0].aiThrottle)] + Throttles(c, t, ticks[1..])
  }

  predicate AllAutopilot(ticks: seq<LaunchTick>) {
    forall i :: 0 <= i < |ticks| ==> ticks[i].mode == Autopilot
  }

  predicate Chronological(ticks: seq<LaunchTick>) {
    forall i, j :: 0 <= i <= j < |ticks| ==> ticks[i].now <= ticks[j].now
  }

  /** Once disarmed in autopilot mode, staying in autopilot never boosts again. */
  lemma {:induction false} StaysDisarmed(c: LaunchConfig, s: LaunchState, ticks: seq<LaunchTick>)
    requires Coherent(s) && !s.enabled && s.prevMode == Some(Autopilot)
    requires AllAutopilot(ticks)
    ensures forall i :: 0 <= i < |ticks| ==> Throttles(c, s, ticks)[i] == ticks[i].aiThrottle
    decreases |ticks|
  {
    if ticks != [] {
      var t := Advance(c, s, ticks[0].mode, ticks[0].now);
      assert t == s;
      StaysDisarmed(c, t, ticks[1..]);
      assert forall i :: 1 <= i < |ticks| ==> Throttles(c, s, ticks)[i] == Throttles(c, t, ticks[1..])[i - 1];
    }
  }

  /**
   * Without trigger-on-switch, a disarmed launcher never boosts again, whatever
   * modes follow, until it is armed explicitly.
   */
  lemma {:induction false} NoTriggerStaysDisarmed(c: LaunchConfig, s: LaunchState, ticks: seq<LaunchTick>)
    requires Coherent(s) && !s.enabled && !c.triggerOnSwitch
    ensures forall i :: 0 <= i < |ticks| ==> Throttles(c, s, ticks)[i] == ticks[i].aiThrottle
    decreases |ticks|
  {
    if ticks != [] {
      var t := Advance(c, s, ticks[0].mode, ticks[0].now);
      NoTriggerStaysDisarmed(c, t, ticks[1..]);
      assert forall i :: 1 <= i < |ticks| ==> Throttles(c, s, ticks)[i] == Throttles(c, t, ticks[1..])[i - 1];
    }
  }

  /** While a boost started at `t0` is running, each tick boosts exactly until the duration has passed. */
  lemma {:induction false} BoostPhase(c: LaunchConfig, s: LaunchState, t0: real, ticks: seq<LaunchTick>)
    requires Coherent(s) && s.active && s.timerStart == Some(t0)
    requires AllAutopilot(ticks) && Chronological(ticks)
    ensures forall i :: 0 <= i < |ticks| ==>
              Throttles(c, s, ticks)[i] == if ticks[i].now - t0 <= c.duration then c.launchThrottle else ticks[i].aiThrottle
    decreases |ticks|
  {
    if ticks != [] {
      var t := Advance(c, s, ticks[0].mode, ticks[0].now);
      if ticks[0].now - t0 <= c.duration {
        assert t == s;
        BoostPhase(c, t, t0, ticks[1..]);
      } else {
        StaysDisarmed(c, t, ticks[1..]);
        assert forall i :: 1 <= i < |ticks| ==> ticks[i].now - t0 > c.duration by {
          forall i | 1 <= i < |ticks| ensures ticks[i].now - t0 > c.duration {
            assert ticks[0].now <= ticks[i].now;
          }
        }
      }
      assert forall i :: 1 <= i < |ticks| ==> Throttles(c, s, ticks)[i] == Throttles(c, t, ticks[1..])[i - 1];
    }
  }

  /**
   * An armed launcher that stays in autopilot boosts on exactly the ticks that
   * come no later than the launch duration after the first one, and passes the
   * throttle through on every later tick.
   */
  lemma {:induction false} BoostLastsDuration(c: LaunchConfig, s: LaunchState, ticks: seq<LaunchTick>)
    requires Coherent(s) && !s.active
    requires s.enabled || (c.triggerOnSwitch && s.prevMode != Some(Autopilot))
    requires c.duration >= 0.0
    requires |ticks| > 0 && AllAutopilot(ticks) && Chronological(ticks)
    ensures forall i :: 0 <= i < |ticks| ==>
              Throttles(c, s, ticks)[i] ==
                if ticks[i].now - ticks[0].now <= c.duration then c.launchThrottle else ticks[i].aiThrottle
  {
    var t := Advance(c, s, ticks[0].mode, ticks[0].now);
    assert t.active && t.timerStart == Some(ticks[0].now);
    BoostPhase(c, t, ticks[0].now, ticks[1..]);
    assert forall i :: 1 <= i < |ticks| ==> Throttles(c, s, ticks)[i] == Throttles(c, t, ticks[1..])[i - 1];
  }

  // ---------------------------------------------------------------------------
  // The controller objects
  // ---------------------------------------------------------------------------

  class AiLaunch {
    const timerDuration: real
    const launchThrottle: real
    const triggerOnSwitch: bool

    var active: bool
    var enabled: bool
    var timerStart: Option<real>
    var prevMode: Option<string>

    function Cfg(): LaunchConfig {
      LaunchConfig(timerDuration, launchThrottle, triggerOnSwitch)
    }

    function State(): LaunchState
      reads this
    {
      LaunchState(active, enabled, timerStart, prevMode)
    }

    ghost predicate Valid()
      reads this
    {
      Coherent(State())
    }

    constructor (launchDuration: real := 1.0, launchThrottle: real := 1.0, keepEnabled: bool := false)
      ensures Valid() && State() == Initial
      ensures Cfg() == LaunchConfig(launchDuration, launchThrottle, keepEnabled)
    {
      active := false;
      enabled := false;
      timerStart := None;
      timerDuration := launchDuration;
      this.launchThrottle := launchThrottle;
      prevMode := None;
      triggerOnSwitch := keepEnabled;
    }

    method EnableAiLaunch()
      requires Valid()
      modifies this`enabled
      ensures Valid() && State() == Arm(old(State()))
    {
      enabled := true;
    }

    method Run(mode: string, aiThrottle: real, now: real) returns (newThrottle: real)
      requires Valid()
      modifies this
      ensures Valid()
      ensures State() == Advance(Cfg(), old(State()), mode, now)
      ensures newThrottle == LaunchOutput(Cfg(), State(), aiThrottle)
    {
      newThrottle := aiThrottle;

      if Some(mode) != prevMode {
        prevMode := Some(mode);
        if mode == Autopilot && triggerOnSwitch {
          enabled := true;
        }
      }

      if mode == Autopilot && enabled {
        if !active {
          active := true;
          timerStart := Some(now);
        } else {
          var duration := now - timerStart.value;
          if duration > timerDuration {
            active := false;
            enabled := false;
          }
        }
      } else {
        active := false;
      }

      if active {
        newThrottle := launchThrottle;
      }
    }
  }

  class AiCatapult {
    const lockAngle: bool
    const timerDuration: real
    const launchThrottle: real
    const triggerOnSwitch: bool

    var active: bool
    var enabled: bool
    var timerStart: Option<real>
    var prevMode: Option<string>

    function Cfg(): LaunchConfig {
      LaunchConfig(timerDuration, launchThrottle, triggerOnSwitch)
    }

    function State(): LaunchState
      reads this
    {
      LaunchState(active, enabled, timerStart, prevMode)
    }

    ghost predicate Valid()
      reads this
    {
      Coherent(State())
    }

    constructor (launchDuration: real := 1.0, launchThrottle: real := 1.0, keepEnabled: bool := false,
                 lockAngle: bool := false)
      ensures Valid() && State() == Initial
      ensures Cfg() == LaunchConfig(launchDuration, launchThrottle, keepEnabled)
      ensures this.lockAngle == lockAngle
    {
      this.lockAngle := lockAngle;
      active := false;
      enabled := false;
      timerStart := None;
      timerDuration := launchDuration;
      this.launchThrottle := launchThrottle;
      prevMode := None;
      triggerOnSwitch := keepEnabled;
    }

    method EnableAiLaunch()
      requires Valid()
      modifies this`enabled
      ensures Valid() && State() == Arm(old(State()))
    {
      enabled := true;
    }

    method Run(mode: string, aiThrottle: real, aiAngle: real, now: real) returns (newThrottle: real, newAngle: real)
      requires Valid()
      modifies this
      ensures Valid()
      ensures State() == Advance(Cfg(), old(State()), mode, now)
      ensures (newThrottle, newAngle) == CatapultOutput(Cfg(), lockAngle, State(), aiThrottle, aiAngle)
    {
      newThrottle := aiThrottle;
      newAngle := aiAngle;

      if Some(mode) != prevMode {
        prevMode := Some(mode);
        if mode == Autopilot && triggerOnSwitch {
          enabled := true;
        }
      }

      if mode == Autopilot && enabled {
        if !active {
          active := true;
          timerStart := Some(now);
        } else {
          var duration := now - timerStart.value;
          if duration > timerDuration {
            active := false;
            enabled := false;
          }
        }
      } else {
        active := false;
      }

      if active {
        if lockAngle {
          newAngle := 0.0;
        } else {
          newThrottle := launchThrottle;
        }
      }
    }
  }
}
