# Lorenz attractor demo — a Dafny model of its logic

The program is a browser demo that animates the Lorenz attractor inside a labelled 3D coordinate system. Two pieces of it are plain logic, apart from the scene-graph calls, and this project models both:

1. **The animation tick** (`animate` in `main.js`). Each frame advances the Lorenz state `(x, y, z)` by one forward-Euler step, with sigma = 10, rho = 28, beta = 8/3 and dt = 0.005. The three increments are computed from the pre-step state. A copy of the new state, scaled by 0.3, is pushed onto the trajectory buffer. If the buffer then holds more than 5000 points, the oldest one is shifted off.
2. **The axis tick layout** (`createTicks` in `main.js`). For each axis, the function places a tick mark of half-length 0.2 at every non-zero integer from -10 to 10. Each tick gets a number label with text `|i|`, placed at `i - 0.1` along the axis and -0.5 off it. The axis name goes at 10.5 on its own axis.

Arithmetic is exact: JavaScript doubles are idealised as Dafny `real`.

Modules:
- `Vectors` (`vectors.dfy`): the `Vec3` triple, with sum and scaling.
- `Lorenz` (`lorenz.dfy`): the parameters, the initial state, the vector field and `Step`.
- `Window` (`window.dfy`): the bounded FIFO buffer, as `Push` (push, then shift when over capacity) and its reference definition `LastN`.
- `Animation` (`animation.dfy`): the frame, which composes the two. `TickWith` is the frame for any integrator passed as a function value, and `Tick` is the demo's frame with `Lorenz.Step`. `Run` iterates frames with a loop, and `After` is a pure version of `Run`. The frame loop is stated for an arbitrary integrator, so its proofs never depend on the Lorenz arithmetic.
- `Decimal` (`decimal.dfy`): the decimal text of a natural number, as the label text uses it.
- `Ticks` (`ticks.dfy`): the tick and label layout of each axis.

## Model

| member | source | states |
|---|---|---|
| Lorenz.Step | main.js:207-213 | One tick is the forward-Euler step `s + dt * F(s)` of the Lorenz vector field `F`. Every component of `F` is evaluated at the pre-step state. |
| Lorenz.StepIsSimultaneous | main.js:207-213 | The update is simultaneous. From the initial state it differs from an in-place update, which would give `y = 0.0133` instead of `0.014`. |
| Lorenz.FirstStep | main.js:101-109 | From the initial state (0.1, 0, 0) with the given parameters, one step gives exactly (0.095, 0.014, 0). `dz = x*y - beta*z` vanishes at (0.1, 0, 0), so `z` stays exactly 0. |
| Lorenz.EulerFixedIffZero | main.js:211-213 | Adding `dt` times a derivative leaves the state unchanged iff the derivative is zero, because `dt` = 0.005 is not zero. |
| Lorenz.StepFixedIffFieldZero | main.js:207-213 | A state is a fixed point of a tick iff the Lorenz vector field vanishes there. |
| Lorenz.FieldZeroIff | main.js:207-209 | The field vanishes exactly at the Lorenz equilibria: `x = y`, `x*x = beta*z`, and either `x = 0` or `z = rho - 1`. |
| Lorenz.FixedPoints | main.js:207-213 | The fixed points of the integrator are exactly those equilibria, in both directions. |
| Lorenz.OriginIsFixed | main.js:207-213 | The origin is a fixed point of the step. |
| Window.Push | main.js:225-230 | With `|buf| <= cap`, the new length is `min(|buf| + 1, cap)`. Below capacity the result is `buf + [p]`; at capacity it is `buf[1..] + [p]`. The newest element is `p`. |
| Window.PushBounded | main.js:225-230 | A buffer that starts within capacity stays within capacity. |
| Window.PushEvictsOldest | main.js:228-229 | At capacity, only the front element is dropped. Every other element keeps its value and relative order, and moves one place forward. |
| Window.PushKeepsWindow | main.js:225-230 | Pushing onto the last `cap` elements of a history gives the last `cap` elements of the extended history. |
| Window.PushAll | main.js:225-230 | After pushing `n` elements onto an empty buffer, its length is `min(n, cap)`. |
| Window.PushAllIsWindow | main.js:225-230 | After any sequence of pushes onto an empty buffer, it holds exactly the last `cap` pushed elements, oldest first. |
| Animation.TickWith | main.js:206-230 | For any integrator, the carried state is the integrator's unscaled result. The newest buffer entry is that state times 0.3. The length becomes `min(old + 1, 5000)`. Below capacity the older entries are unchanged; at capacity they are the old ones minus the front. |
| Animation.Tick | main.js:206-230 | The same frame guarantees, with the carried state equal to the Lorenz Euler step of the old state. |
| Animation.After | main.js:203-241 | The simulation after `k` calls of the frame: its state is the `k`-th iterate from (0.1, 0, 0), and its buffer holds `min(k, 5000)` points. |
| Animation.Run | main.js:203-230 | After `k` frames from (0.1, 0, 0), the state is the `k`-th iterate of the integrator. The buffer holds `min(k, 5000)` points: the last 5000 scaled states in frame order. |
| Animation.AfterIsWindow | main.js:203-230 | For every `k`, the simulation after `k` frames has the `k`-th iterate as state and the 5000-point window of the scaled history as buffer. |
| Animation.SlidingWindow | main.js:225-230 | Up to 5000 frames nothing is evicted. From 5000 frames on, the buffer holds exactly 5000 points: the latest 5000 in frame order. So after 5001 frames the point from frame 1 is the one that has gone. |
| Animation.DemoRunIsLorenz | main.js:203-213 | Instantiated with the Lorenz step, each frame of the loop is `Tick`, and the carried state advances by `Lorenz.Step`. |
| Decimal.DecimalString | main.js:164 | The label text is non-empty and made of decimal digits only, with no leading zero for positive numbers. It is one character long exactly for numbers below 10. |
| Decimal.ParseDecimalString | main.js:164 | Reading the label text back as a decimal number gives the number. |
| Decimal.DecimalStringInjective | main.js:164 | Two numbers have the same label text iff they are equal. |
| Ticks.MakeTick | main.js:130-172 | The tick for index `i` crosses its axis at `i` and spans -0.2..0.2 on the perpendicular coordinate; the third coordinate is 0. Its label reads `abs(i)` in decimal and sits at `i - 0.1` along the axis and -0.5 across it. |
| Ticks.TicksFrom | main.js:127-128 | The loop from `i` to 10, skipping 0, yields one tick per non-zero index, in increasing order. The count is the number of non-zero integers in `i..10`. |
| Ticks.Ticks | main.js:127-173 | Each axis gets 20 ticks. Tick `k` is the tick for index `k - 10` when `k < 10`, and for index `k - 9` otherwise. |
| Ticks.TickIndices | main.js:127-128 | The indices strictly increase and are never 0. An index appears iff it is a non-zero integer in -10..10. |
| Ticks.EachLabelTwice | main.js:127-164 | For each `v` in 1..10, exactly two ticks on an axis read `v`: those at index `-v` and at index `v`. |
| Ticks.EndLabels | main.js:164 | The outermost ticks read "10" and the innermost ticks read "1". |
| Ticks.NameLabel | main.js:175-189 | The axis name label carries the axis letter and sits at 10.5 on its own axis, 0 on the other two. |
| Ticks.Layout | main.js:125-191 | One call of the tick generator for an axis: 20 ticks at indices -10..-1 then 1..10, each placed as `MakeTick` states, and the axis letter at 10.5 on that axis and 0 on the other two. |
| Ticks.AllLayouts | main.js:194-196 | The layout is produced for the x, y and z axes, in that order, and the layout of every axis is among them. |

## Left out

- Scene, camera, WebGL renderer, axis lines, cone arrows, materials, colours and orbit controls (main.js:1-97, 112-118): library objects whose behaviour is not visible in this program.
- Font loading and text geometry (main.js:122-123, 164-182): asynchronous I/O and glyph generation. Only the label text and its position are modelled. The glyph size and depth (0.3, 0.4, 0.01) are drawing parameters.
- Geometry rebuild and rendering after each tick (main.js:233-239): library calls. The model stops at the updated point buffer.
- `requestAnimationFrame` scheduling, the scene rotation of 0.002 per frame and the resize listener (main.js:204, 216, 244-248): host event plumbing and display state. `Animation.Run` stands for the repeated frames.
- The debug log whenever the buffer length before the push is a multiple of 100 (main.js:219-222): this is every 100 frames while the buffer fills, and every frame once it is full. It is console output only.
- IEEE-754 double arithmetic: the model uses exact reals. It says nothing about rounding, finiteness or distance from the true attractor. So the exact values in `Lorenz.FirstStep` and `Lorenz.StepIsSimultaneous` are those of real arithmetic.
- Ticks.AllLayouts: gives each layout's axis name, their order, and that every axis's `Layout` is among them. It does not restate the layout contents, which `Ticks.Layout` states.
- The program does not validate `dt` or the buffer capacity; both are constants (0.005, 5000).
- vite.config.js: build configuration with no logic.
