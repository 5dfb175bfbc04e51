/**
 * The Lorenz system as the animation loop integrates it: fixed parameters
 * sigma = 10, rho = 28, beta = 8/3, a fixed time step of 0.005, and one
 * explicit (forward) Euler step per animation tick.
 */
module Lorenz {
  import opened Vectors

  const Sigma: real := 10.0
  const Rho: real := 28.0
  const Beta: real := 8.0 / 3.0
  const Dt: real := 0.005

  /** The state the integrator starts from. */
  const Initial: Vec3 := Vec3(0.1, 0.0, 0.0)

  /** The Lorenz vector field: the time derivative of the state at `s`. */
  function Field(s: Vec3): Vec3 {
    Vec3(Sigma * (s.y - s.x), s.x * (Rho - s.z) - s.y, s.x * s.y - Beta * s.z)
  }

  /**
   * One tick of the integrator, written the way the loop computes it: the
   * three increments are all taken from the pre-step state and only then
   * added. The result is the forward-Euler step of the vector field; for a
   * closed-form transition that is necessarily the body read componentwise,
   * and the substance lies in the fixed-point lemmas below.
   */
  function Step(s: Vec3): (r: Vec3)
    ensures r == Add(s, Scale(Dt, Field(s)))
  {
    var dx := Sigma * (s.y - s.x) * Dt;
    var dy := (s.x * (Rho - s.z) - s.y) * Dt;
    var dz := (s.x * s.y - Beta * s.z) * Dt;
    Vec3(s.x + dx, s.y + dy, s.z + dz)
  }

  /**
   * The update the loop does NOT perform: writing each coordinate back before
   * computing the next increment, so that `dy` and `dz` would see the new `x`
   * (and `dz` the new `y`).
   */
  function InPlaceStep(s: Vec3): Vec3 {
    var x := s.x + Sigma * (s.y - s.x) * Dt;
    var y := s.y + (x * (Rho - s.z) - s.y) * Dt;
    var z := s.z + (x * y - Beta * s.z) * Dt;
    Vec3(x, y, z)
  }

  /**
   * From (0.1, 0, 0) one step lands exactly on (0.095, 0.014, 0): `dz = x*y - beta*z`
   * vanishes there, so `z` stays exactly 0.
   */
  lemma FirstStep()
    ensures Step(Initial) == Vec3(0.095, 0.014, 0.0)
  {
  }

  /**
   * The update is simultaneous: from the initial state it differs from the
   * in-place update, whose `y` would be 0.0133 instead of 0.014.
   */
  lemma StepIsSimultaneous()
    ensures Step(Initial) != InPlaceStep(Initial)
    ensures InPlaceStep(Initial).y == 0.0133
  {
  }

  /** A forward-Euler step with the positive step Dt leaves `s` in place exactly when the derivative is zero. */
  lemma EulerFixedIffZero(s: Vec3, f: Vec3)
    ensures Add(s, Scale(Dt, f)) == s <==> f == Origin
  {
  }

  /** A state is left unchanged by a tick exactly when the vector field vanishes there. */
  lemma StepFixedIffFieldZero(s: Vec3)
    ensures Step(s) == s <==> Field(s) == Origin
  {
    EulerFixedIffZero(s, Field(s));
  }

  /** Where the vector field vanishes: the Lorenz equilibria. */
  lemma FieldZeroIff(x: real, y: real, z: real)
    ensures Field(Vec3(x, y, z)) == Origin <==>
      y == x && x * x == Beta * z && (x == 0.0 || z == Rho - 1.0)
  {
    if y == x {
      assert x * (Rho - z) - y == x * (Rho - 1.0 - z);
      assert x * (Rho - 1.0 - z) == 0.0 <==> x == 0.0 || z == Rho - 1.0;
      assert x * y == x * x;
    }
  }

  /**
   * The fixed points of a tick are the Lorenz equilibria: x = y, x * x = beta * z,
   * and either x = 0 (the origin) or z = rho - 1 (the two symmetric
   * equilibria at x = y = +/- sqrt(72), z = 27).
   */
  lemma FixedPoints(s: Vec3)
    ensures Step(s) == s <==>
      s.y == s.x && s.x * s.x == Beta * s.z && (s.x == 0.0 || s.z == Rho - 1.0)
  {
    StepFixedIffFieldZero(s);
    FieldZeroIff(s.x, s.y, s.z);
  }

  /** The origin is a fixed point of the integrator. */
  lemma OriginIsFixed()
    ensures Step(Origin) == Origin
  {
  }
}
