/** The part of pid::Controller that the plugin relies on. pid.hpp is not
    part of this model, so the controller's control law is not written out:
    it is a function value fixed when the controller is built, applied to
    the current setpoint and to the three arguments of `calc`. */
module Pid {

  /** A control law: (setpoint, measured value, dt, third argument of
      `calc`) to an acceleration demand. */
  type Law = (real, real, real, real) -> real

  /** One scalar channel controller: a fixed law and a mutable setpoint. */
  class Controller {
    const law: Law
    var target: real

    /** Builds a controller with the given law; its first setpoint is
        whatever pid.hpp gives it, so nothing is promised about it. */
    constructor (law: Law)
      ensures this.law == law
    {
      this.law := law;
    }

    /** `set_target`: overwrites the setpoint, whatever it was. */
    method SetTarget(target: real)
      modifies this
      ensures this.target == target
    {
      this.target := target;
    }

    /** `calc(measured, dt, third)`: the law applied to the current setpoint
        and the arguments; the setpoint is left as it was. */
    method Calc(measured: real, dt: real, third: real) returns (u: real)
      ensures u == law(target, measured, dt, third)
    {
      u := law(target, measured, dt, third);
    }
  }
}
