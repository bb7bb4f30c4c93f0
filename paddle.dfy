/** The paddle of the brick-breaker (PaddleController.cs): boundaries derived
    from the camera, a slider-driven position with a one-shot launch latch, a
    single-slot timed expansion, and the bounce-angle clamp for the ball. */
module Paddle {
  import opened Mathf

  /** A screen dimension in pixels, assumed positive so that the aspect ratio
      is defined; a zero-sized screen is outside the model. */
  type Pixels = n: int | n > 0 witness 1

  /** What the paddle reads from Screen and Camera.main when it recomputes its
      boundaries. */
  datatype Viewport = Viewport(screenWidth: Pixels, screenHeight: Pixels, orthographicSize: real)

  /** The horizontal travel range of the paddle's centre. */
  datatype Bounds = Bounds(minX: real, maxX: real)

  /** A velocity in polar form: `angle` is Vector2.SignedAngle(Vector2.up, v)
      in degrees and `speed` is v.magnitude. */
  datatype Velocity = Velocity(angle: real, speed: real)

  /** A solid contact: whether the other body is tagged "Ball", the x of the
      first contact point, and the other body's velocity. */
  datatype Contact = Contact(withBall: bool, contactX: real, velocity: Velocity)

  /** The expansion coroutine slot. C# never clears the field, so once a
      coroutine has run to completion the slot holds a finished one. */
  datatype ExpandCoroutine = NotStarted | Waiting(factor: real, duration: real) | Finished

  /** Width of the world the orthographic camera shows: twice its size times
      the screen's aspect ratio. */
  function CameraWidth(view: Viewport): (w: real)
    ensures w * (view.screenHeight as real) == 2.0 * view.orthographicSize * (view.screenWidth as real)
  {
    var aspect := (view.screenWidth as real) / (view.screenHeight as real);
    assert aspect * (view.screenHeight as real) == view.screenWidth as real;
    view.orthographicSize * 2.0 * aspect
  }

  /** Travel range of a paddle `paddleWidth` wide kept `edgeOffset` away from
      both edges of a view `cameraWidth` wide centred on x = 0. */
  function PaddleBounds(cameraWidth: real, paddleWidth: real, edgeOffset: real): (b: Bounds)
    ensures b.minX == -b.maxX
    ensures b.maxX - b.minX == cameraWidth - paddleWidth - 2.0 * edgeOffset
    ensures b.minX <= b.maxX <==> paddleWidth + 2.0 * edgeOffset <= cameraWidth
  {
    var halfPaddleWidth := paddleWidth / 2.0;
    Bounds(-cameraWidth / 2.0 + halfPaddleWidth + edgeOffset,
           cameraWidth / 2.0 - halfPaddleWidth - edgeOffset)
  }

  /** Outgoing angle of the ball: the incoming angle plus the contact offset,
      taken relative to HALF THE BASE paddle width and not clamped, scaled to
      `maxBounceAngle`; the sum is then clamped into [-maxBounceAngle, maxBounceAngle]. */
  function BounceAngle(contactX: real, centerX: real, paddleWidth: real,
                       currentAngle: real, maxBounceAngle: real): (r: real)
    requires paddleWidth != 0.0
    ensures maxBounceAngle >= 0.0 ==> -maxBounceAngle <= r <= maxBounceAngle
    ensures contactX == centerX && -maxBounceAngle <= currentAngle <= maxBounceAngle ==> r == currentAngle
  {
    var offset := contactX - centerX;
    var width := paddleWidth / 2.0;
    var bounceAngle := (offset / width) * maxBounceAngle;
    Clamp(currentAngle + bounceAngle, -maxBounceAngle, maxBounceAngle)
  }

  /** Because the offset is divided by the base half-width, a ball whose
      velocity at the callback points straight up (angle 0) and which touches
      the right edge of a paddle expanded by `factor` is deflected by
      `factor * maxBounceAngle` before the clamp: an expanded paddle
      saturates at the maximum angle well inside its edge. */
  lemma EdgeHitOnExpandedPaddle(centerX: real, paddleWidth: real, factor: real, maxBounceAngle: real)
    requires paddleWidth > 0.0 && maxBounceAngle >= 0.0
    ensures BounceAngle(centerX + paddleWidth * factor / 2.0, centerX, paddleWidth, 0.0, maxBounceAngle)
         == Clamp(factor * maxBounceAngle, -maxBounceAngle, maxBounceAngle)
  {
    var half := paddleWidth / 2.0;
    assert centerX + paddleWidth * factor / 2.0 - centerX == factor * half;
    assert (factor * half) / half == factor;
  }

  /** Rescaling a quantity kept at `base * current` by `target / current`
      leaves it at `base * target`. */
  lemma Rescale(value: real, base: real, current: real, target: real)
    requires current != 0.0 && value == base * current
    ensures value * (target / current) == base * target
  {
    assert current * (target / current) == target;
  }

  class PaddleController {
    // Inspector configuration and the collaborators found at start-up.
    const paddleWidth: real
    const maxBounceAngle: real
    const verticalOffset: real
    const horizontalEdgeOffset: real
    const hasCamera: bool
    const hasSlider: bool
    const hasBallController: bool
    /** transform.localScale.x as it was at start-up. */
    const originalScaleX: real

    var minX: real
    var maxX: real
    /** transform.position.x and .y */
    var x: real
    var y: real
    /** transform.localScale.x */
    var scaleX: real
    var physicsSizeX: real
    var physicsSizeY: real
    var triggerSizeX: real
    var triggerSizeY: real
    var currentExpandFactor: real
    var currentPaddleWidth: real
    var hasLaunchedBall: bool
    /** The control slider's value (its range is set to [0, 1] at start-up). */
    var sliderValue: real
    var expandCoroutine: ExpandCoroutine

    /** The viewport the bounds were last computed from. */
    ghost var viewport: Viewport
    /** The physics collider's x-size at expansion factor 1. */
    ghost var physicsBaseX: real
    /** Calls of BallController.StartLaunchSequence since the last OnBallReset. */
    ghost var launches: nat
    /** Expansion coroutines started and neither stopped nor run to completion. */
    ghost var pendingReverts: nat

    /** Width, scale and colliders follow the expansion factor; at most one
        revert is pending, and the factor differs from the base only while
        one is; the launch latch records whether the ball was launched. */
    ghost predicate Consistent()
      reads this`currentExpandFactor, this`currentPaddleWidth, this`scaleX, this`physicsBaseX
      reads this`physicsSizeX, this`physicsSizeY, this`triggerSizeX, this`triggerSizeY
      reads this`pendingReverts, this`expandCoroutine, this`launches, this`hasLaunchedBall
    {
      Scaled()
      && pendingReverts == (if expandCoroutine.Waiting? then 1 else 0)
      && currentExpandFactor == (if expandCoroutine.Waiting? then expandCoroutine.factor else 1.0)
      && launches == (if hasLaunchedBall then 1 else 0)
      && (hasLaunchedBall ==> hasBallController)
    }

    /** Width in use, sprite scale and physics collider are the base values
        times the expansion factor; the trigger collider is 1.1 times the
        physics collider. */
    ghost predicate Scaled()
      reads this`currentExpandFactor, this`currentPaddleWidth, this`scaleX, this`physicsBaseX
      reads this`physicsSizeX, this`physicsSizeY, this`triggerSizeX, this`triggerSizeY
    {
      currentExpandFactor != 0.0
      && currentPaddleWidth == paddleWidth * currentExpandFactor
      && scaleX == originalScaleX * currentExpandFactor
      && physicsSizeX == physicsBaseX * currentExpandFactor
      && triggerSizeX == physicsSizeX * 1.1 && triggerSizeY == physicsSizeY * 1.1
    }

    /** Bounds and resting height are those of the CURRENT (possibly expanded)
        width on the last viewport; without a camera nothing is measured. */
    ghost predicate BoundsCurrent()
      reads this`minX, this`maxX, this`y, this`viewport, this`currentPaddleWidth
    {
      hasCamera ==>
        Bounds(minX, maxX) == PaddleBounds(CameraWidth(viewport), currentPaddleWidth, horizontalEdgeOffset)
        && y == -viewport.orthographicSize + verticalOffset
    }

    /** What UpdatePaddleBoundaries leaves behind on a paddle whose x and
        slider value were `x0` and `slider0`: bounds of the current width on
        `view`, the resting height, x clamped into the bounds and, with a
        slider, the slider showing that x. */
    ghost predicate Measured(view: Viewport, x0: real, slider0: real)
      reads this`minX, this`maxX, this`x, this`y, this`sliderValue, this`currentPaddleWidth
    {
      hasCamera ==>
        Bounds(minX, maxX) == PaddleBounds(CameraWidth(view), currentPaddleWidth, horizontalEdgeOffset)
        && y == -view.orthographicSize + verticalOffset
        && x == Clamp(x0, minX, maxX)
        && sliderValue == (if hasSlider then InverseLerp(minX, maxX, x) else slider0)
    }

    /** The slider's value lies in its range and shows where the paddle is. */
    ghost predicate Synced()
      reads this`minX, this`maxX, this`x, this`sliderValue
    {
      0.0 <= sliderValue <= 1.0
      && (hasCamera && hasSlider && minX <= maxX ==> x == Lerp(minX, maxX, sliderValue))
    }

    ghost predicate Valid()
      reads this
    {
      Consistent() && BoundsCurrent() && Synced()
    }

    /** Awake followed by Start: the trigger collider is made 1.1 times the
        physics collider, the slider is set to 0.5 before the paddle listens
        to it, and the boundaries are computed once. */
    constructor (paddleWidth: real, maxBounceAngle: real, verticalOffset: real, horizontalEdgeOffset: real,
                 hasCamera: bool, hasSlider: bool, hasBallController: bool,
                 x: real, y: real, scaleX: real, physicsSizeX: real, physicsSizeY: real,
                 view: Viewport)
      ensures this.paddleWidth == paddleWidth && this.maxBounceAngle == maxBounceAngle
      ensures this.verticalOffset == verticalOffset && this.horizontalEdgeOffset == horizontalEdgeOffset
      ensures this.hasCamera == hasCamera && this.hasSlider == hasSlider
      ensures this.hasBallController == hasBallController
      ensures originalScaleX == scaleX && this.scaleX == scaleX
      ensures currentExpandFactor == 1.0 && currentPaddleWidth == paddleWidth
      ensures this.physicsSizeX == physicsSizeX && this.physicsSizeY == physicsSizeY
      ensures triggerSizeX == physicsSizeX * 1.1 && triggerSizeY == physicsSizeY * 1.1
      ensures !hasLaunchedBall && expandCoroutine == NotStarted && launches == 0 && pendingReverts == 0
      ensures Measured(view, x, 0.0)
      ensures !hasCamera ==>
        minX == 0.0 && maxX == 0.0 && this.x == x && this.y == y
        && sliderValue == (if hasSlider then 0.5 else 0.0)
      ensures Valid()
    {
      this.paddleWidth := paddleWidth;
      this.maxBounceAngle := maxBounceAngle;
      this.verticalOffset := verticalOffset;
      this.horizontalEdgeOffset := horizontalEdgeOffset;
      this.hasCamera := hasCamera;
      this.hasSlider := hasSlider;
      this.hasBallController := hasBallController;
      originalScaleX := scaleX;
      this.x, this.y, this.scaleX := x, y, scaleX;
      this.physicsSizeX, this.physicsSizeY := physicsSizeX, physicsSizeY;
      triggerSizeX, triggerSizeY := physicsSizeX * 1.1, physicsSizeY * 1.1;
      currentExpandFactor := 1.0;
      currentPaddleWidth := paddleWidth;
      hasLaunchedBall := false;
      expandCoroutine := NotStarted;
      minX, maxX, sliderValue := 0.0, 0.0, 0.0;
      viewport := view;
      physicsBaseX := physicsSizeX;
      launches, pendingReverts := 0, 0;
      new;
      if hasSlider {
        // SetupSlider: the listener is added only after this write, so nothing is notified
        SetSliderValueWithoutNotify(0.5);
      }
      UpdatePaddleBoundaries(view);
    }

    /** Slider.SetValueWithoutNotify: stores the value clamped to the
        slider's range [0, 1] and calls no listener. */
    method SetSliderValueWithoutNotify(v: real)
      modifies this`sliderValue
      ensures sliderValue == Clamp01(v)
    {
      sliderValue := Clamp01(v);
    }

    /** Slider.value's setter: the value is clamped to [0, 1]; only when that
        differs from the stored value is it stored and the registered
        listener, OnSliderValueChanged, notified. */
    method SetSliderValue(v: real)
      requires Valid() && hasSlider
      modifies this`sliderValue, this`x, this`hasLaunchedBall, this`launches
      ensures sliderValue == Clamp01(v)
      ensures Clamp01(v) != old(sliderValue) ==>
        x == Lerp(minX, maxX, sliderValue)
        && hasLaunchedBall == (old(hasLaunchedBall) || hasBallController)
        && launches == old(launches) + (if !old(hasLaunchedBall) && hasBallController then 1 else 0)
      ensures Clamp01(v) == old(sliderValue) ==>
        x == old(x) && hasLaunchedBall == old(hasLaunchedBall) && launches == old(launches)
      ensures Valid()
    {
      var value := Clamp01(v);
      if value != sliderValue {
        sliderValue := value;
        OnSliderValueChanged(value);
      }
    }

    /** Recomputes the bounds from the camera and the current width, pins the
        paddle's height, clamps its x into the bounds and shows that position
        on the slider without notifying it. */
    method UpdatePaddleBoundaries(view: Viewport)
      modifies this`minX, this`maxX, this`x, this`y, this`sliderValue, this`viewport
      ensures Measured(view, old(x), old(sliderValue))
      ensures hasCamera ==> viewport == view
      ensures !hasCamera ==> unchanged(this)
      ensures old(0.0 <= sliderValue <= 1.0) ==> BoundsCurrent() && Synced()
    {
      if hasCamera {
        var b := PaddleBounds(CameraWidth(view), currentPaddleWidth, horizontalEdgeOffset);
        minX, maxX := b.minX, b.maxX;
        y := -view.orthographicSize + verticalOffset;
        x := Clamp(x, minX, maxX);
        if hasSlider {
          SetSliderValueWithoutNotify(InverseLerp(minX, maxX, x));
          if minX <= maxX {
            LerpOfInverseLerp(minX, maxX, x);
          }
        }
        viewport := view;
      }
    }

    /** The per-frame tick. `screenChanged` stands for the comparison of the
        screen with the camera's pixel size; the boundaries are recomputed
        once more when it holds and then twice unconditionally. With proper
        bounds the extra calls change nothing: the state is that of one call. */
    method Update(view: Viewport, screenChanged: bool)
      requires Valid() && hasCamera
      modifies this`minX, this`maxX, this`x, this`y, this`sliderValue, this`viewport
      ensures Bounds(minX, maxX) == PaddleBounds(CameraWidth(view), currentPaddleWidth, horizontalEdgeOffset)
      ensures y == -view.orthographicSize + verticalOffset
      ensures minX <= maxX ==> x == Clamp(old(x), minX, maxX)
      ensures sliderValue == (if hasSlider then InverseLerp(minX, maxX, x) else old(sliderValue))
      ensures Valid()
    {
      if screenChanged {
        UpdatePaddleBoundaries(view);
      }
      UpdatePaddleBoundaries(view);  // UpdateVerticalPosition
      UpdatePaddleBoundaries(view);  // UpdateHorizontalBoundaries
    }

    /** The slider's listener: moves the paddle to the value's point of the
        bounds and, the first time since the last reset, asks the ball to
        launch. */
    method OnSliderValueChanged(value: real)
      requires Consistent() && BoundsCurrent() && hasSlider && sliderValue == value && 0.0 <= value <= 1.0
      modifies this`x, this`hasLaunchedBall, this`launches
      ensures x == Lerp(minX, maxX, value)
      ensures hasLaunchedBall == (old(hasLaunchedBall) || hasBallController)
      ensures launches == old(launches) + (if !old(hasLaunchedBall) && hasBallController then 1 else 0)
      ensures Valid()
    {
      x := Lerp(minX, maxX, value);
      if !hasLaunchedBall && hasBallController {
        launches := launches + 1;  // ballController.StartLaunchSequence()
        hasLaunchedBall := true;
      }
    }

    /** Steers the paddle through the slider: the target is clamped into the
        bounds and its fraction written with notification, so the paddle
        ends up on the clamped target. */
    method AutoMove(targetX: real)
      requires Valid() && hasSlider
      modifies this`sliderValue, this`x, this`hasLaunchedBall, this`launches
      ensures sliderValue == InverseLerp(minX, maxX, Clamp(targetX, minX, maxX))
      ensures hasCamera && minX <= maxX ==> x == Clamp(targetX, minX, maxX) && minX <= x <= maxX
      ensures sliderValue != old(sliderValue) ==>
        x == Lerp(minX, maxX, sliderValue)
        && hasLaunchedBall == (old(hasLaunchedBall) || hasBallController)
        && launches == old(launches) + (if !old(hasLaunchedBall) && hasBallController then 1 else 0)
      ensures sliderValue == old(sliderValue) ==>
        x == old(x) && hasLaunchedBall == old(hasLaunchedBall) && launches == old(launches)
      ensures Valid()
    {
      var target := Clamp(targetX, minX, maxX);
      var value := InverseLerp(minX, maxX, target);
      if hasCamera && minX <= maxX {
        LerpOfInverseLerp(minX, maxX, target);
      }
      SetSliderValue(value);
    }

    /** A solid contact: with the ball, the ball keeps its speed and leaves at
        the clamped bounce angle computed from the BASE paddle width; any other
        body's velocity is left as it was. */
    method OnCollisionEnter2D(contact: Contact) returns (velocity: Velocity)
      requires paddleWidth != 0.0
      ensures !contact.withBall ==> velocity == contact.velocity
      ensures contact.withBall ==>
        velocity.speed == contact.velocity.speed
        && velocity.angle == BounceAngle(contact.contactX, x, paddleWidth, contact.velocity.angle, maxBounceAngle)
      ensures contact.withBall && maxBounceAngle >= 0.0 ==>
        -maxBounceAngle <= velocity.angle <= maxBounceAngle
    {
      velocity := contact.velocity;
      if contact.withBall {
        var newAngle := BounceAngle(contact.contactX, x, paddleWidth, contact.velocity.angle, maxBounceAngle);
        velocity := Velocity(newAngle, contact.velocity.speed);
      }
    }

    /** A power-up's expansion: any pending revert is cancelled and a new
        expansion coroutine started, which runs at once up to its wait; the
        result is `expandFactor` times the base whatever was in flight, with a
        single revert pending. */
    method ExpandPaddle(expandFactor: real, duration: real, view: Viewport)
      requires Valid() && expandFactor != 0.0
      modifies this`scaleX, this`physicsSizeX, this`triggerSizeX, this`triggerSizeY
      modifies this`currentPaddleWidth, this`currentExpandFactor, this`expandCoroutine, this`pendingReverts
      modifies this`minX, this`maxX, this`x, this`y, this`sliderValue, this`viewport
      ensures currentExpandFactor == expandFactor && currentPaddleWidth == paddleWidth * expandFactor
      ensures Scaled() && physicsSizeY == old(physicsSizeY)
      ensures expandCoroutine == Waiting(expandFactor, duration) && pendingReverts == 1
      ensures Measured(view, old(x), old(sliderValue))
      ensures !hasCamera ==> minX == old(minX) && maxX == old(maxX) && x == old(x) && y == old(y)
      ensures !hasCamera ==> sliderValue == old(sliderValue)
      ensures Valid()
    {
      if expandCoroutine.Waiting? {
        pendingReverts := pendingReverts - 1;  // StopCoroutine
      }
      pendingReverts := pendingReverts + 1;  // StartCoroutine
      ExpandPaddleCoroutine(expandFactor, view);
      expandCoroutine := Waiting(expandFactor, duration);
    }

    /** The expansion coroutine up to its wait. The new factor is taken
        relative to the current one, so scale, collider and width end up at
        `expandFactor` times their base, not compounded; the bounds are
        recomputed with the new width. */
    method ExpandPaddleCoroutine(expandFactor: real, view: Viewport)
      requires Scaled() && expandFactor != 0.0
      modifies this`scaleX, this`physicsSizeX, this`triggerSizeX, this`triggerSizeY
      modifies this`currentPaddleWidth, this`currentExpandFactor
      modifies this`minX, this`maxX, this`x, this`y, this`sliderValue, this`viewport
      ensures Scaled() && currentExpandFactor == expandFactor && physicsSizeY == old(physicsSizeY)
      ensures Measured(view, old(x), old(sliderValue))
      ensures !hasCamera ==> minX == old(minX) && maxX == old(maxX) && x == old(x) && y == old(y)
      ensures !hasCamera ==> sliderValue == old(sliderValue)
      ensures old(0.0 <= sliderValue <= 1.0) ==> BoundsCurrent() && Synced()
    {
      var newExpandFactor := ScaleWidth(expandFactor);
      UpdatePaddleBoundaries(view);
      currentExpandFactor := currentExpandFactor * newExpandFactor;
    }

    /** The rescaling step of the expansion coroutine: the factor relative to
        the current one multiplies the sprite's x-scale, the physics
        collider's x-size and the width in use, which thereby reach
        `expandFactor` times their base; the trigger collider follows at 1.1
        times the physics collider. */
    method ScaleWidth(expandFactor: real) returns (newExpandFactor: real)
      requires Scaled() && expandFactor != 0.0
      modifies this`scaleX, this`physicsSizeX, this`triggerSizeX, this`triggerSizeY, this`currentPaddleWidth
      ensures newExpandFactor == expandFactor / currentExpandFactor
      ensures currentExpandFactor * newExpandFactor == expandFactor
      ensures scaleX == old(scaleX) * newExpandFactor == originalScaleX * expandFactor
      ensures physicsSizeX == old(physicsSizeX) * newExpandFactor == physicsBaseX * expandFactor
      ensures triggerSizeX == physicsSizeX * 1.1 && triggerSizeY == physicsSizeY * 1.1
      ensures currentPaddleWidth == old(currentPaddleWidth) * newExpandFactor == paddleWidth * expandFactor
    {
      newExpandFactor := expandFactor / currentExpandFactor;
      Rescale(scaleX, originalScaleX, currentExpandFactor, expandFactor);
      Rescale(physicsSizeX, physicsBaseX, currentExpandFactor, expandFactor);
      Rescale(currentPaddleWidth, paddleWidth, currentExpandFactor, expandFactor);
      Rescale(currentExpandFactor, 1.0, currentExpandFactor, expandFactor);
      scaleX := scaleX * newExpandFactor;
      physicsSizeX := physicsSizeX * newExpandFactor;
      triggerSizeX, triggerSizeY := physicsSizeX * 1.1, physicsSizeY * 1.1;
      currentPaddleWidth := currentPaddleWidth * newExpandFactor;
    }

    /** The pending expansion coroutine resuming after its wait: scale, factor,
        width and physics collider go back to the base values (the collider to
        `paddleWidth`, not to its size at start-up) and the bounds are
        recomputed. With no coroutine waiting nothing resumes. */
    method Expire(view: Viewport)
      requires Valid()
      modifies this`scaleX, this`physicsSizeX, this`triggerSizeX, this`triggerSizeY, this`physicsBaseX
      modifies this`currentPaddleWidth, this`currentExpandFactor, this`expandCoroutine, this`pendingReverts
      modifies this`minX, this`maxX, this`x, this`y, this`sliderValue, this`viewport
      ensures old(expandCoroutine).Waiting? ==>
        currentExpandFactor == 1.0 && currentPaddleWidth == paddleWidth && scaleX == originalScaleX
        && physicsSizeX == paddleWidth && physicsSizeY == old(physicsSizeY)
        && triggerSizeX == paddleWidth * 1.1 && triggerSizeY == physicsSizeY * 1.1
        && expandCoroutine == Finished && pendingReverts == 0
        && Measured(view, old(x), old(sliderValue))
      ensures old(expandCoroutine).Waiting? && !hasCamera ==>
        minX == old(minX) && maxX == old(maxX) && x == old(x) && y == old(y) && sliderValue == old(sliderValue)
      ensures !old(expandCoroutine).Waiting? ==> unchanged(this)
      ensures Valid()
    {
      if expandCoroutine.Waiting? {
        RevertSize();
        UpdatePaddleBoundaries(view);
        expandCoroutine := Finished;
        pendingReverts := pendingReverts - 1;
      }
    }

    /** The reverting step of the expansion coroutine: sprite scale, factor and
        width go back to their base values, the physics collider's x-size to
        `paddleWidth`, and the trigger collider follows at 1.1 times it. */
    method RevertSize()
      modifies this`scaleX, this`currentExpandFactor, this`currentPaddleWidth
      modifies this`physicsSizeX, this`physicsBaseX, this`triggerSizeX, this`triggerSizeY
      ensures scaleX == originalScaleX && currentExpandFactor == 1.0 && currentPaddleWidth == paddleWidth
      ensures physicsSizeX == paddleWidth && physicsBaseX == paddleWidth
      ensures triggerSizeX == paddleWidth * 1.1 && triggerSizeY == physicsSizeY * 1.1
      ensures Scaled()
    {
      scaleX := originalScaleX;
      currentExpandFactor := 1.0;
      currentPaddleWidth := paddleWidth;
      physicsSizeX := paddleWidth;
      physicsBaseX := paddleWidth;
      triggerSizeX, triggerSizeY := physicsSizeX * 1.1, physicsSizeY * 1.1;
    }

    /** Round restart: clears the launch latch, then writes 0.5 to the slider
        with notification. The paddle only moves, and the ball is only asked
        to launch, when the slider was not already at 0.5. */
    method OnBallReset()
      requires Valid() && hasSlider
      modifies this`sliderValue, this`x, this`hasLaunchedBall, this`launches
      ensures sliderValue == 0.5
      ensures old(sliderValue) != 0.5 ==>
        x == Lerp(minX, maxX, 0.5) && hasLaunchedBall == hasBallController
        && launches == (if hasBallController then 1 else 0)
      ensures old(sliderValue) == 0.5 ==> x == old(x) && !hasLaunchedBall && launches == 0
      ensures launches <= 1
      ensures Valid()
    {
      hasLaunchedBall := false;
      launches := 0;
      SetSliderValue(0.5);
    }
  }
}
