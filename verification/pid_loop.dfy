/** The part of a WPILib `PIDController` that the robot code observes and
    commands. The controller's own periodic thread (integration, output
    clamping, continuous-input error) is not modelled: the current error and
    the on-target verdict arrive as sensor-derived inputs through `Observe`. */
module PidLoop {

  /** What a PID input reports to its controller (WPILib `PIDSourceType`). */
  datatype SourceType = Displacement | Rate

  /** `resets` counts the calls to `reset()`, each of which clears the
      loop's integrator and error history. */
  datatype Loop = Loop(setpoint: real, enabled: bool, error: real, onTarget: bool, resets: nat)

  /** A freshly constructed loop: setpoint 0, not yet observed, never reset. */
  function New(enabled: bool): Loop {
    Loop(0.0, enabled, 0.0, false, 0)
  }

  function WithSetpoint(l: Loop, setpoint: real): Loop {
    l.(setpoint := setpoint)
  }

  /** `enable()`, also the guarded `if (!isEnabled()) enable()` of the callers. */
  function Enable(l: Loop): Loop {
    l.(enabled := true)
  }

  function Disable(l: Loop): Loop {
    l.(enabled := false)
  }

  /** `reset()`: WPILib's reset disables the loop, then clears its history. */
  function Reset(l: Loop): Loop {
    l.(enabled := false, resets := l.resets + 1)
  }

  /** A new sensor reading for the loop. */
  function Observe(l: Loop, error: real, onTarget: bool): Loop {
    l.(error := error, onTarget := onTarget)
  }

  /** `setSetpoint(getSetpoint() - getError())`: the setpoint moved onto the
      value the loop currently measures. */
  function Freeze(l: Loop): (r: Loop)
    ensures r.setpoint + l.error == l.setpoint
    ensures r.enabled == l.enabled && r.resets == l.resets
  {
    l.(setpoint := l.setpoint - l.error)
  }
}
