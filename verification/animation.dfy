/**
 * The per-frame work of the animation loop, without the rendering: advance
 * the state by one integrator step, then store a copy of the new state,
 * scaled by 0.3 for display, in the bounded trajectory buffer.
 *
 * The frame loop is stated for any integrator `step`, passed as a function
 * value; the demo's loop is the instance with `Lorenz.Step` (see `Tick`).
 */
module Animation {
  import opened Vectors
  import Lorenz
  import Window

  /** Most points the trajectory buffer holds. */
  const Capacity: nat := 5000

  /** Display scale applied to the stored copy of each state. */
  const DisplayScale: real := 0.3

  /** The integrator state carried from tick to tick and the points drawn so far. */
  datatype Sim = Sim(state: Vec3, points: seq<Vec3>)

  /** Before the first tick: the initial state and an empty buffer. */
  const Start: Sim := Sim(Lorenz.Initial, [])

  /** One frame with integrator `step`: step the state, push its scaled copy. */
  function TickWith(step: Vec3 -> Vec3, sim: Sim): (r: Sim)
    ensures r.state == step(sim.state)
    ensures |sim.points| <= Capacity ==> |r.points| == Window.Min(|sim.points| + 1, Capacity)
    ensures 0 < |r.points| && r.points[|r.points| - 1] == Scale(DisplayScale, r.state)
    ensures |sim.points| < Capacity ==> r.points[..|r.points| - 1] == sim.points
    ensures |sim.points| == Capacity ==> r.points[..|r.points| - 1] == sim.points[1..]
  {
    var next := step(sim.state);
    Sim(next, Window.Push(sim.points, Scale(DisplayScale, next), Capacity))
  }

  /** One animation tick of the demo: the frame with the Lorenz Euler step. */
  function Tick(sim: Sim): (r: Sim)
    ensures r.state == Lorenz.Step(sim.state)
    ensures |sim.points| <= Capacity ==> |r.points| == Window.Min(|sim.points| + 1, Capacity)
    ensures 0 < |r.points| && r.points[|r.points| - 1] == Scale(DisplayScale, r.state)
    ensures |sim.points| < Capacity ==> r.points[..|r.points| - 1] == sim.points
    ensures |sim.points| == Capacity ==> r.points[..|r.points| - 1] == sim.points[1..]
  {
    TickWith(Lorenz.Step, sim)
  }

  /** The integrator state after `k` steps from the initial state. */
  function StateAfter(step: Vec3 -> Vec3, k: nat): Vec3 {
    if k == 0 then Lorenz.Initial else step(StateAfter(step, k - 1))
  }

  /** Every point pushed in the first `k` frames, oldest first, as if nothing were evicted. */
  function Pushed(step: Vec3 -> Vec3, k: nat): (r: seq<Vec3>)
    ensures |r| == k
    ensures forall j :: 0 <= j < k ==> r[j] == Scale(DisplayScale, StateAfter(step, j + 1))
  {
    if k == 0 then [] else Pushed(step, k - 1) + [Scale(DisplayScale, StateAfter(step, k))]
  }

  /** The simulation after `k` frames, as a pure function. */
  function After(step: Vec3 -> Vec3, k: nat): (r: Sim)
    ensures r.state == StateAfter(step, k)
    ensures |r.points| == Window.Min(k, Capacity)
  {
    if k == 0 then Start else TickWith(step, After(step, k - 1))
  }

  /**
   * Runs `k` frames from the start. The state is the unscaled k-th iterate,
   * and the buffer is the last 5000 scaled points, oldest first.
   */
  method Run(step: Vec3 -> Vec3, k: nat) returns (sim: Sim)
    ensures sim.state == StateAfter(step, k)
    ensures |sim.points| == Window.Min(k, Capacity)
    ensures sim.points == Window.LastN(Pushed(step, k), Capacity)
  {
    sim := Start;
    var i := 0;
    while i < k
      invariant i <= k
      invariant sim.state == StateAfter(step, i)
      invariant |sim.points| == Window.Min(i, Capacity)
      invariant sim.points == Window.LastN(Pushed(step, i), Capacity)
    {
      Window.PushKeepsWindow(Pushed(step, i), Scale(DisplayScale, StateAfter(step, i + 1)), Capacity);
      sim := TickWith(step, sim);
      i := i + 1;
    }
  }

  /** After `k` frames the buffer is exactly the window of the last 5000 pushed points. */
  lemma {:induction false} AfterIsWindow(step: Vec3 -> Vec3, k: nat)
    ensures After(step, k).state == StateAfter(step, k)
    ensures After(step, k).points == Window.LastN(Pushed(step, k), Capacity)
  {
    if k > 0 {
      AfterIsWindow(step, k - 1);
      Window.PushKeepsWindow(Pushed(step, k - 1), Scale(DisplayScale, StateAfter(step, k)), Capacity);
    }
  }

  /**
   * The capacity boundary: up to 5000 frames nothing is evicted; from then on
   * the buffer stays full and holds exactly the latest 5000 points, so after
   * 5001 frames the point of the first frame is the one that has gone.
   */
  lemma SlidingWindow(step: Vec3 -> Vec3, k: nat)
    ensures k <= Capacity ==> After(step, k).points == Pushed(step, k)
    ensures Capacity <= k ==> |After(step, k).points| == Capacity
    ensures Capacity <= k ==> After(step, k).points == Pushed(step, k)[k - Capacity..]
  {
    AfterIsWindow(step, k);
  }

  /** The demo's own loop is the frame loop instantiated with the Lorenz step. */
  lemma DemoRunIsLorenz(k: nat)
    ensures After(Lorenz.Step, k + 1) == Tick(After(Lorenz.Step, k))
    ensures StateAfter(Lorenz.Step, k + 1) == Lorenz.Step(StateAfter(Lorenz.Step, k))
  {
  }
}
