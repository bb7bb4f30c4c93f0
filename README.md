# Arkanoid paddle and brick, modelled in Dafny

A model of two Unity components of a brick-breaker game. Both are proved
against specifications.

- `PaddleController` moves the paddle along the bottom of the screen. Its
  travel bounds come from the orthographic camera, its own width and an edge
  offset. A UI slider with range [0, 1] drives its position. The first slider
  move after a reset asks the ball controller to launch. A power-up can widen
  the paddle for a while, with at most one expansion coroutine pending. When
  the ball hits the paddle, its outgoing angle depends on where it hit and is
  clamped to a maximum.
- `Brick` gets hit points and a score value from the difficulty level, using
  C#'s truncating integer division. Each hit costs it one hit point. At zero
  or below it is destroyed: it adds its score, unregisters from the brick
  manager and destroys its game object. Otherwise it shows the state colour
  for the hit points it has left.

Files:

- `mathf.dfy` (module `Mathf`): the `UnityEngine.Mathf` functions both
  components use (`Clamp`, `Clamp01`, `Lerp`, `InverseLerp`) and their round
  trips.
- `paddle.dfy` (module `Paddle`): the class `PaddleController` and the pure
  geometry it uses.
- `brick.dfy` (module `Bricks`): the class `Brick` and the pure arithmetic
  behind it.

Modelling choices:

- Floats are reals.
- Positions are single coordinates: the paddle's `x` and `y` stand for
  `transform.position`.
- Collider sizes are pairs of reals.
- A velocity is an angle measured from `Vector2.up` plus a speed.
- What the components read from the engine becomes parameters: the screen
  size and camera size as a `Viewport`, a collision as a `Contact`.
- Whether the camera, the slider and the ball controller were found is a
  constant `bool` of the object.
- Ghost state records what the components do to their collaborators:
  - the number of launch requests since the last reset;
  - the number of expansion reverts still pending;
  - the calls a brick makes on the game manager, the brick manager and the
    engine.

The slider is modelled the way `UnityEngine.UI.Slider` behaves:

- A value written to it is first clamped into its range.
- The notifying setter (`controlSlider.value = …`) stores the value and calls
  the listener only when the clamped value differs from the stored one.
- `SetValueWithoutNotify` never calls the listener.

One consequence: when `OnBallReset` writes 0.5 to a slider that already shows
0.5, the paddle does not move and the ball is not asked to launch. The launch
latch is cleared all the same. In the other case the reset itself moves the
paddle to the middle and, with a ball controller, asks the ball to launch at
once, because the latch is cleared before the notifying write (lines 251-252
of `PaddleController.cs`). The model keeps this behaviour as written.

## Model

| member | source | states |
|---|---|---|
| Mathf.Clamp | MyArkanoid/Assets/Scripts/PaddleController.cs:111 | On a non-empty interval the result lies in it. A value inside is kept. On a non-empty interval a value below gives the lower end and a value above the upper end. |
| Mathf.ClampInt | MyArkanoid/Assets/Scripts/Brick.cs:66 | The integer overload: the result lies in a non-empty interval and a value inside is kept. |
| Mathf.Clamp01 | MyArkanoid/Assets/Scripts/PaddleController.cs:117 | Reached only inside InverseLerp (line 117), Lerp (line 150) and the slider's own clamp. The result lies in [0, 1] and a value already in [0, 1] is kept. |
| Mathf.Lerp | MyArkanoid/Assets/Scripts/PaddleController.cs:150 | On [a, b] with a ≤ b the result lies in [a, b]. A fraction of 0 or less gives a, a fraction of 1 or more gives b. |
| Mathf.InverseLerp | MyArkanoid/Assets/Scripts/PaddleController.cs:117 | The result lies in [0, 1] and is 0 on a one-point interval. On a proper interval (a < b) it is 0 at or below a and 1 at or above b. |
| Mathf.ClampIdempotent | MyArkanoid/Assets/Scripts/PaddleController.cs:111 | On non-empty bounds, clamping an already clamped x into the same bounds changes nothing, so a repeated boundary update does not move the paddle. |
| Mathf.InverseLerpOfLerp | MyArkanoid/Assets/Scripts/PaddleController.cs:148-153 | On a proper interval, InverseLerp recovers the fraction that Lerp was given, for every fraction in [0, 1]. |
| Mathf.LerpOfInverseLerp | MyArkanoid/Assets/Scripts/PaddleController.cs:115-119 | For every point of [a, b], Lerp of its InverseLerp fraction is the point itself. This also holds on a one-point interval. |
| Paddle.CameraWidth | MyArkanoid/Assets/Scripts/PaddleController.cs:95-97 | The camera width times the screen height equals twice the orthographic size times the screen width. In other words, the width is the height scaled by the aspect ratio. |
| Paddle.PaddleBounds | MyArkanoid/Assets/Scripts/PaddleController.cs:98-102 | The bounds are symmetric (minX = -maxX). Their span is the camera width minus the paddle width minus both edge offsets. They are non-empty exactly when paddle and offsets fit in the camera width. |
| Paddle.BounceAngle | MyArkanoid/Assets/Scripts/PaddleController.cs:177-181 | For a non-negative maximum, the outgoing angle lies in [-maxBounceAngle, maxBounceAngle]. A centre hit with an in-range angle keeps the angle. |
| Paddle.EdgeHitOnExpandedPaddle | MyArkanoid/Assets/Scripts/PaddleController.cs:178-180 | The offset is divided by half the BASE width. So a ball whose velocity at the callback points straight up (angle 0) and that touches the edge of a paddle expanded by a factor gets factor × maxBounceAngle before the clamp. |
| Paddle.PaddleController.constructor | MyArkanoid/Assets/Scripts/PaddleController.cs:39-89 | Awake and Start: the trigger collider is 1.1 × the physics collider, and the factor is 1 with the base width. The latch is clear and no coroutine has started. The slider is set to 0.5 without notification. After one boundary update, x lies clamped in the bounds and the slider shows it. |
| Paddle.PaddleController.SetSliderValueWithoutNotify | MyArkanoid/Assets/Scripts/PaddleController.cs:118 | Stores the value clamped to [0, 1]. The listener is not called and nothing else changes. |
| Paddle.PaddleController.SetSliderValue | MyArkanoid/Assets/Scripts/PaddleController.cs:166 | Stores the clamped value. If it differs from the old one, the paddle moves to Lerp(minX, maxX, value) and launches at most once. Otherwise x, the latch and the launch count are unchanged. The invariant holds. |
| Paddle.PaddleController.UpdatePaddleBoundaries | MyArkanoid/Assets/Scripts/PaddleController.cs:91-121 | With a camera: bounds come from the current width and the viewport, and y is pinned at -orthographicSize + verticalOffset. x is clamped into the bounds. With a slider, it shows InverseLerp of x without notifying. Slider and position agree afterwards. Without a camera nothing changes. |
| Paddle.PaddleController.Update | MyArkanoid/Assets/Scripts/PaddleController.cs:123-132 | Up to three boundary updates leave the state of a single one: bounds, height, x clamped from its old value, and the slider showing x. The invariant holds. |
| Paddle.PaddleController.OnSliderValueChanged | MyArkanoid/Assets/Scripts/PaddleController.cs:148-160 | x becomes Lerp(minX, maxX, value). The latch is set once a ball controller exists. The ball is asked to launch exactly when the latch was clear and the controller exists, so at most once per reset. |
| Paddle.PaddleController.AutoMove | MyArkanoid/Assets/Scripts/PaddleController.cs:162-167 | The slider ends at the InverseLerp fraction of the clamped target. With proper bounds, the paddle ends exactly on the clamped target, inside the bounds. The write notifies: when the slider value changes, the latch is set if there is a ball controller and the ball is asked to launch exactly when the latch was clear. When it changes, x becomes Lerp(minX, maxX, value) also without a camera or with inverted bounds. When it does not change, x, the latch and the launch count stay as they were. |
| Paddle.PaddleController.OnCollisionEnter2D | MyArkanoid/Assets/Scripts/PaddleController.cs:169-186 | Any other body keeps its velocity. The ball keeps its speed and leaves at BounceAngle of the contact point, the paddle centre and the base width. For a non-negative maximum, that angle lies in [-maxBounceAngle, maxBounceAngle]. |
| Paddle.PaddleController.ExpandPaddle | MyArkanoid/Assets/Scripts/PaddleController.cs:199-206 | Whatever was pending, the factor becomes expandFactor and the width becomes paddleWidth × expandFactor. Scale and physics collider are their bases × expandFactor, so nothing compounds. The trigger stays at 1.1 × physics. Exactly one revert is pending and the bounds are recomputed. Without a camera, bounds, position and slider are left as they were. |
| Paddle.PaddleController.ExpandPaddleCoroutine | MyArkanoid/Assets/Scripts/PaddleController.cs:208-226 | Rescaling by expandFactor / currentExpandFactor leaves the factor at expandFactor. Scale, collider and width are their bases × expandFactor. The bounds are recomputed for the new width. |
| Paddle.PaddleController.ScaleWidth | MyArkanoid/Assets/Scripts/PaddleController.cs:213-222 | The relative factor is expandFactor divided by the current factor. Sprite x-scale, physics collider x-size and width in use are each multiplied by it, and so reach their base × expandFactor. The trigger collider follows at 1.1 × the physics collider. |
| Paddle.PaddleController.RevertSize | MyArkanoid/Assets/Scripts/PaddleController.cs:231-237 | Sprite scale back to the original, factor to 1, width and physics x-size to paddleWidth, and the trigger at 1.1 × the physics collider. |
| Paddle.PaddleController.Expire | MyArkanoid/Assets/Scripts/PaddleController.cs:228-240 | When a coroutine is waiting, the factor goes back to 1, the width to paddleWidth and the scale to the original. The physics x-size becomes paddleWidth and the trigger 1.1 × that. The bounds are recomputed and no revert is pending; without a camera, bounds, position and slider are left as they were. Without a waiting coroutine nothing changes. |
| Paddle.PaddleController.OnBallReset | MyArkanoid/Assets/Scripts/PaddleController.cs:249-253 | The slider ends at 0.5. If it was elsewhere, the paddle moves to the middle of the bounds and launches once if there is a ball controller. If it was already at 0.5, nothing moves and the latch stays clear. At most one launch follows a reset. |
| Bricks.TruncDiv | MyArkanoid/Assets/Scripts/Brick.cs:28 | C# integer division by a positive divisor: the remainder lies in [0, d) for a non-negative dividend and in (-d, 0] for a negative one. |
| Bricks.DifficultyHitPoints | MyArkanoid/Assets/Scripts/Brick.cs:28 | From level 1 on, the extra hit points are floor((level - 1) / 3). Levels -1 through 3 keep the base, since truncation sends -1 and 0 to 0 as well. |
| Bricks.DifficultyEveryThirdLevel | MyArkanoid/Assets/Scripts/Brick.cs:28 | From level 1 on, three levels more give exactly one hit point more. |
| Bricks.DifficultyMonotone | MyArkanoid/Assets/Scripts/Brick.cs:28 | From level 1 on, hit points never decrease as the level rises. |
| Bricks.ColorIndex | MyArkanoid/Assets/Scripts/Brick.cs:66 | The index is within the palette. It is hitPoints - 1 when that is a palette position. It is the first colour at one hit point or fewer and the last colour at or beyond the palette size. |
| Bricks.DestroyCalls | MyArkanoid/Assets/Scripts/Brick.cs:47-60 | Destroy's calls add exactly the score value once. They include the brick manager's removal exactly when a manager was found, and they end with destroying the game object. |
| Bricks.DestroyCountClosedForm | MyArkanoid/Assets/Scripts/Brick.cs:33-40 | Of a run of hits, none destroys the brick until its hit points (at least one) are used up. From then on every hit destroys it again, since there is no guard against re-hitting. |
| Bricks.Brick.constructor | MyArkanoid/Assets/Scripts/Brick.cs:14-24 | Awake: hit points and score are 0. With a palette, the first colour is shown. |
| Bricks.Brick.SetDifficulty | MyArkanoid/Assets/Scripts/Brick.cs:26-31 | Hit points are DifficultyHitPoints(base, level) and the score is base score × level. The colour is updated and no call is made. |
| Bricks.Brick.ShouldBeDestroyed | MyArkanoid/Assets/Scripts/Brick.cs:71-74 | True exactly when hitPoints ≤ 0, which is exactly when the hits since SetDifficulty have reached the hit points it gave. Hit's contract branches on it. |
| Bricks.Brick.Hit | MyArkanoid/Assets/Scripts/Brick.cs:33-45 | Hit points drop by exactly one. When ShouldBeDestroyed (hp ≤ 0) holds afterwards, the Destroy calls are appended and the colour is kept. Otherwise no call is made and the colour is updated. The score handed out since SetDifficulty is the score value × the number of destroying hits. |
| Bricks.Brick.Destroy | MyArkanoid/Assets/Scripts/Brick.cs:47-60 | Appends exactly DestroyCalls(scoreValue, hasBrickManager) to the call log. |
| Bricks.Brick.UpdateColor | MyArkanoid/Assets/Scripts/Brick.cs:62-69 | With a non-empty palette, the shown index becomes ColorIndex of the hit points; otherwise nothing changes. |

## Left out

- Unity wiring is not modelled: the tag, GetComponent/AddComponent, FindObjectOfType and listener registration. It is represented by the presence flags and the constructor.
- `OnTriggerEnter2D` (power-up pick-up and its Debug.Log) is not modelled. The expansion it leads to is modelled as `ExpandPaddle`.
- `CalculateBoundaries` is never called, and `OnDrawGizmos` and `paddleSpeed` have no effect on the game; none of them is modelled.
- Debug.Log and Debug.LogError output is not modelled.
- Sprite colours are not modelled: the brick records only the palette index it selects.
- Trigonometry is not modelled. `Vector2.SignedAngle` and `Quaternion.AngleAxis` are replaced by the polar form of the velocity.
- IEEE single-precision rounding is left out: all real-valued quantities are ideal reals.
- Integer overflow in the brick's arithmetic is left out: ints are unbounded.
- `UpdateVerticalPosition` and `UpdateHorizontalBoundaries` (PaddleController.cs:255-263) are public wrappers that only call `UpdatePaddleBoundaries`. They have no member of their own: a caller reaching them does a plain `UpdatePaddleBoundaries` call, as `Update` does.
- Screen sizes are assumed positive (the `Pixels` type of `Viewport`). A zero screen height makes the aspect-ratio division at PaddleController.cs:95 give an infinite or NaN float in C#, and the non-finite bounds that follow are not modelled.
- Coroutine timing is left out. The wait is split between `ExpandPaddle`, which runs the coroutine up to `WaitForSeconds`, and `Expire`, which resumes it. The duration is only recorded.
- The screen-change test in `Update` compares the screen with the camera's pixel size. It becomes the boolean `screenChanged`.
- `Update` dereferences the camera unconditionally, so it requires one. `AutoMove` and `OnBallReset` dereference the slider unconditionally, so they require one. The model does not cover the null-reference exceptions of those calls, nor a null `GameManager.Instance` in `Destroy`.
- Paddle.PaddleController.ExpandPaddle: requires a non-zero factor, because a factor of 0 makes the next expansion divide by zero.
- Paddle.PaddleController.Update: states the clamp of x only for non-empty bounds (minX ≤ maxX). With inverted bounds, clamping twice can move x again.
- Paddle.PaddleController.OnCollisionEnter2D: requires a non-zero paddleWidth, because the source divides by half of it.
- A brick that is hit again after being destroyed keeps scoring in the model, as it does in the source. Whether the engine still delivers collisions to a destroyed object is outside the model.
