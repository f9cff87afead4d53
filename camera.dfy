/**
 * The first-person camera (`camera.rs`): the camera pose, the perspective
 * projection's parameters, and the controller that turns key, mouse and
 * scroll input into per-frame intents and integrates them into the pose.
 *
 * Single-precision floats are exact reals here. `sin_cos`, `normalize` and
 * the matrix functions are not computed: the sine and cosine of the yaw and
 * the length of the displacement are parameters, tied to what the program
 * computes by preconditions.
 */
module Camera {
  import opened Geometry
  import opened Wrappers

  type U32 = n: nat | n < 0x1_0000_0000

  /** `std::f32::consts::FRAC_PI_2`. */
  const HalfPi: real := 1.5707963267948966

  /** The pitch limit `FRAC_PI_2 - 0.0001`, just short of straight up or down. */
  const SafeHalfPi: real := HalfPi - 0.0001

  /** An angle in degrees as radians (cgmath's `Deg` into `Rad`). */
  function Radians(degrees: real): real {
    degrees * HalfPi / 90.0
  }

  class Camera {
    var pos: Vec3
    var yaw: real
    var pitch: real

    constructor (pos: Vec3, yaw: real, pitch: real)
      ensures this.pos == pos && this.yaw == yaw && this.pitch == pitch
    {
      this.pos := pos;
      this.yaw := yaw;
      this.pitch := pitch;
    }
  }

  /** The value of `a as f32 / b as f32` for unsigned sizes a and b, including IEEE division by zero. */
  datatype Quotient = Finite(value: real) | Infinity | NaN

  /** The aspect ratio `width as f32 / height as f32`, unguarded. */
  function AspectRatio(width: U32, height: U32): (q: Quotient)
    ensures q.Finite? <==> height > 0
    ensures q.Finite? ==> q.value >= 0.0 && q.value * height as real == width as real
    ensures q == Infinity <==> width > 0 && height == 0
    ensures q == NaN <==> width == 0 && height == 0
  {
    if height > 0 then Finite(width as real / height as real)
    else if width > 0 then Infinity
    else NaN
  }

  class Projection {
    var aspect: Quotient
    var fovy: real
    var znear: real
    var zfar: real

    constructor (width: U32, height: U32, fovy: real, znear: real, zfar: real)
      ensures aspect == AspectRatio(width, height)
      ensures this.fovy == fovy && this.znear == znear && this.zfar == zfar
    {
      aspect := AspectRatio(width, height);
      this.fovy := fovy;
      this.znear := znear;
      this.zfar := zfar;
    }

    /** Recomputes the aspect ratio; there is no guard against a zero height here. */
    method Resize(width: U32, height: U32)
      modifies this`aspect
      ensures aspect == AspectRatio(width, height)
      ensures fovy == old(fovy) && znear == old(znear) && zfar == old(zfar)
    {
      aspect := AspectRatio(width, height);
    }
  }

  /** The keys the controller and the frame state look at; every other key code is `OtherKey`. */
  datatype Key = W | A | S | D | Up | Down | Left | Right | Space | LShift | Escape | OtherKey(code: nat)

  datatype ElementState = Pressed | Released

  /** The six movement intents, one per `amount_*` field. */
  datatype Intent = Forward | Backward | Leftward | Rightward | Upward | Downward

  /** winit's `MouseScrollDelta`: whole lines, or a pixel offset. */
  datatype ScrollDelta = LineDelta(columns: real, lines: real) | PixelDelta(x: real, y: real)

  /** The movement intent a key drives, if any. */
  function KeyIntent(key: Key): Option<Intent> {
    match key
    case W | Up => Some(Forward)
    case A | Left => Some(Leftward)
    case S | Down => Some(Backward)
    case D | Right => Some(Rightward)
    case Space => Some(Upward)
    case LShift => Some(Downward)
    case _ => None
  }

  /** The value an intent takes: 1.0 while its key is pressed, 0.0 once released. */
  function PressAmount(state: ElementState): (a: real)
    ensures a == 0.0 || a == 1.0
    ensures a == 1.0 <==> state == Pressed
  {
    if state == Pressed then 1.0 else 0.0
  }

  /** The scroll before its sign is inverted: ten units per line, or the vertical pixel offset. */
  function ScrollUnits(delta: ScrollDelta): real {
    match delta
    case LineDelta(_, lines) => lines * 10.0
    case PixelDelta(_, y) => y
  }

  /** The pitch limit applied after each integration step. */
  function ClampPitch(pitch: real): (p: real)
    ensures -SafeHalfPi <= p <= SafeHalfPi
    ensures -SafeHalfPi <= pitch <= SafeHalfPi ==> p == pitch
    ensures pitch < -SafeHalfPi ==> p == -SafeHalfPi
    ensures pitch > SafeHalfPi ==> p == SafeHalfPi
  {
    if pitch < -SafeHalfPi then -SafeHalfPi
    else if pitch > SafeHalfPi then SafeHalfPi
    else pitch
  }

  /** The heading scaled to unit length, or left alone when it is zero (`if !is_zero() { normalize() }`). */
  function Normalised(heading: Vec3, length: real): (n: Vec3)
    requires heading != Zero ==> length > 0.0 && length * length == heading.Norm2()
    ensures heading == Zero ==> n == Zero
    ensures heading != Zero ==> n.Norm2() == 1.0
    ensures heading.y == 0.0 ==> n.y == 0.0
  {
    if heading == Zero then heading
    else
      NormalisedIsUnit(heading, length);
      heading.Scale(1.0 / length)
  }

  /**
   * The position change of one integration step, `displacement * dt * speed`:
   * none for a zero heading, none vertically for a level heading, and of
   * length exactly `dt * speed` otherwise, whatever the diagonal.
   */
  function Step(heading: Vec3, length: real, dt: real, speed: real): (s: Vec3)
    requires heading != Zero ==> length > 0.0 && length * length == heading.Norm2()
    ensures heading == Zero ==> s == Zero
    ensures heading.y == 0.0 ==> s.y == 0.0
    ensures heading != Zero ==> s.Norm2() == (dt * speed) * (dt * speed)
  {
    var n := Normalised(heading, length);
    StepLength(n, dt, speed);
    n.Scale(dt).Scale(speed)
  }

  /** A unit direction scaled by `dt * speed` has squared length `(dt * speed)^2`. */
  lemma StepLength(n: Vec3, dt: real, speed: real)
    ensures n.Norm2() == 1.0 ==> n.Scale(dt).Scale(speed).Norm2() == (dt * speed) * (dt * speed)
    ensures n.y == 0.0 ==> n.Scale(dt).Scale(speed).y == 0.0
    ensures n == Zero ==> n.Scale(dt).Scale(speed) == Zero
  {
    if n == Zero {
      assert n.Scale(dt) == Zero.Scale(dt) == Zero;
    }
    Norm2OfScale(n, dt);
    Norm2OfScale(n.Scale(dt), speed);
    ProductOfSquares(dt, speed);
  }

  /** `Vector3::new(yaw_cos, 0.0, yaw_sin)`, the horizontal direction the camera faces. */
  function FacingDirection(yawSin: real, yawCos: real): Vec3 {
    Vec3(yawCos, 0.0, yawSin)
  }

  /** `Vector3::new(-yaw_sin, 0.0, yaw_cos)`, the horizontal direction to the camera's right. */
  function RightDirection(yawSin: real, yawCos: real): Vec3 {
    Vec3(-yawSin, 0.0, yawCos)
  }

  /**
   * For the sine and cosine of one angle both directions are horizontal unit
   * vectors at right angles, so `normalize` leaves them as they are.
   */
  lemma DirectionsAreUnit(yawSin: real, yawCos: real)
    requires yawSin * yawSin + yawCos * yawCos == 1.0
    ensures FacingDirection(yawSin, yawCos).Norm2() == 1.0 && RightDirection(yawSin, yawCos).Norm2() == 1.0
    ensures FacingDirection(yawSin, yawCos).y == 0.0 && RightDirection(yawSin, yawCos).y == 0.0
    ensures FacingDirection(yawSin, yawCos).x * RightDirection(yawSin, yawCos).x + FacingDirection(yawSin, yawCos).z * RightDirection(yawSin, yawCos).z == 0.0
  {
  }

  /**
   * For the sine and cosine of one angle, the weighted sum of forward, right
   * and up vanishes only when every weight is zero: the three directions are
   * independent.
   */
  lemma StillOnlyIfBalanced(a: real, b: real, u: real, yawSin: real, yawCos: real)
    requires yawSin * yawSin + yawCos * yawCos == 1.0
    requires FacingDirection(yawSin, yawCos).Scale(a).Plus(RightDirection(yawSin, yawCos).Scale(b)).Plus(UnitY.Scale(u)) == Zero
    ensures a == 0.0 && b == 0.0 && u == 0.0
  {
    var p := a * yawCos - b * yawSin;
    var q := a * yawSin + b * yawCos;
    assert p == 0.0 && q == 0.0;
    assert a * (yawSin * yawSin + yawCos * yawCos) == yawCos * p + yawSin * q;
    assert b * (yawSin * yawSin + yawCos * yawCos) == yawCos * q - yawSin * p;
  }

  lemma ProductOfSquares(a: real, b: real)
    ensures b * b * (a * a * 1.0) == (a * b) * (a * b)
  {
  }

  class Controller {
    var amountRight: real
    var amountLeft: real
    var amountForward: real
    var amountBackward: real
    var amountUp: real
    var amountDown: real
    var rotateHorizontal: real
    var rotateVertical: real
    var scroll: real
    var speed: real
    var sensitivity: real

    /** The `amount_*` field of an intent. */
    function Amount(i: Intent): real
      reads this`amountRight, this`amountLeft, this`amountForward, this`amountBackward, this`amountUp, this`amountDown
    {
      match i
      case Forward => amountForward
      case Backward => amountBackward
      case Leftward => amountLeft
      case Rightward => amountRight
      case Upward => amountUp
      case Downward => amountDown
    }

    /** Every movement intent is off (0.0) or on (1.0). */
    predicate Valid()
      reads this`amountRight, this`amountLeft, this`amountForward, this`amountBackward, this`amountUp, this`amountDown
    {
      forall i :: Amount(i) == 0.0 || Amount(i) == 1.0
    }

    constructor (speed: real, sensitivity: real)
      ensures Valid()
      ensures forall i :: Amount(i) == 0.0
      ensures rotateHorizontal == 0.0 && rotateVertical == 0.0 && scroll == 0.0
      ensures this.speed == speed && this.sensitivity == sensitivity
    {
      amountRight, amountLeft, amountForward, amountBackward, amountUp, amountDown := 0.0, 0.0, 0.0, 0.0, 0.0, 0.0;
      rotateHorizontal, rotateVertical, scroll := 0.0, 0.0, 0.0;
      this.speed := speed;
      this.sensitivity := sensitivity;
    }

    /** The rotation deltas, the scroll and the tuning are as before. */
    twostate predicate RatesUnchanged()
      reads this
    {
      && rotateHorizontal == old(rotateHorizontal) && rotateVertical == old(rotateVertical)
      && scroll == old(scroll) && speed == old(speed) && sensitivity == old(sensitivity)
    }

    /** The effect of `process_keyboard(key, state)`: the key's intent, if any, is set; nothing else changes. */
    twostate predicate KeyApplied(key: Key, state: ElementState)
      reads this
    {
      && (forall i :: Amount(i) == if KeyIntent(key) == Some(i) then PressAmount(state) else old(Amount(i)))
      && RatesUnchanged()
    }

    /** The effect of `process_mouse(dx, dy)`: the rotation deltas are overwritten, not accumulated. */
    twostate predicate MouseApplied(dx: real, dy: real)
      reads this
    {
      && rotateHorizontal == dx && rotateVertical == dy
      && (forall i :: Amount(i) == old(Amount(i)))
      && scroll == old(scroll) && speed == old(speed) && sensitivity == old(sensitivity)
    }

    /** The effect of `process_scroll(delta)`: the scroll is the inverted delta, and the speed grows by the delta. */
    twostate predicate ScrollApplied(delta: ScrollDelta)
      reads this
    {
      && scroll == -ScrollUnits(delta)
      && speed == old(speed) + ScrollUnits(delta)
      && (forall i :: Amount(i) == old(Amount(i)))
      && rotateHorizontal == old(rotateHorizontal) && rotateVertical == old(rotateVertical)
      && sensitivity == old(sensitivity)
    }

    method ProcessKeyboard(key: Key, state: ElementState) returns (recognised: bool)
      modifies this`amountRight, this`amountLeft, this`amountForward, this`amountBackward, this`amountUp, this`amountDown
      ensures recognised <==> KeyIntent(key).Some?
      ensures KeyApplied(key, state)
      ensures !recognised ==> unchanged(this)
      ensures old(Valid()) ==> Valid()
    {
      var amount := PressAmount(state);
      match key {
        case W | Up =>
          amountForward := amount;
          recognised := true;
        case A | Left =>
          amountLeft := amount;
          recognised := true;
        case S | Down =>
          amountBackward := amount;
          recognised := true;
        case D | Right =>
          amountRight := amount;
          recognised := true;
        case Space =>
          amountUp := amount;
          recognised := true;
        case LShift =>
          amountDown := amount;
          recognised := true;
        case _ =>
          recognised := false;
      }
    }

    method ProcessMouse(dx: real, dy: real)
      modifies this`rotateHorizontal, this`rotateVertical
      ensures MouseApplied(dx, dy)
      ensures Valid() == old(Valid())
    {
      rotateHorizontal := dx;
      rotateVertical := dy;
    }

    method ProcessScroll(delta: ScrollDelta)
      modifies this`scroll, this`speed
      ensures ScrollApplied(delta)
      ensures Valid() == old(Valid())
    {
      scroll := -match delta {
        case LineDelta(_, lines) => lines * 10.0
        case PixelDelta(_, y) => y
      };
      speed := speed - scroll;
    }

    /**
     * The displacement before normalisation, `forward * (f - b) + right * (r - l) + unit_y * (u - d)`,
     * for the yaw whose sine and cosine are given.
     */
    function Heading(yawSin: real, yawCos: real): (h: Vec3)
      reads this`amountRight, this`amountLeft, this`amountForward, this`amountBackward, this`amountUp, this`amountDown
      ensures amountForward == amountBackward && amountRight == amountLeft && amountUp == amountDown ==> h == Zero
      ensures amountUp == amountDown ==> h.y == 0.0
    {
      var forward := FacingDirection(yawSin, yawCos);
      var right := RightDirection(yawSin, yawCos);
      forward.Scale(amountForward - amountBackward)
        .Plus(right.Scale(amountRight - amountLeft))
        .Plus(UnitY.Scale(amountUp - amountDown))
    }

    /** The heading vanishes exactly when each pair of opposite intents is balanced. */
    lemma StillIffBalanced(yawSin: real, yawCos: real)
      requires yawSin * yawSin + yawCos * yawCos == 1.0
      ensures Heading(yawSin, yawCos) == Zero <==>
        amountForward == amountBackward && amountRight == amountLeft && amountUp == amountDown
    {
      if Heading(yawSin, yawCos) == Zero {
        StillOnlyIfBalanced(amountForward - amountBackward, amountRight - amountLeft, amountUp - amountDown, yawSin, yawCos);
      }
    }

    /**
     * With some pair of opposite intents unbalanced, one integration step
     * moves the camera by exactly `dt * speed`, whatever the direction.
     */
    lemma MoveDistance(pos: Vec3, dt: real, yawSin: real, yawCos: real, length: real)
      requires yawSin * yawSin + yawCos * yawCos == 1.0
      requires !(amountForward == amountBackward && amountRight == amountLeft && amountUp == amountDown)
      requires length > 0.0 && length * length == Heading(yawSin, yawCos).Norm2()
      ensures pos.Plus(Step(Heading(yawSin, yawCos), length, dt, speed)).Minus(pos).Norm2() == (dt * speed) * (dt * speed)
    {
      StillIffBalanced(yawSin, yawCos);
      PlusMinus(pos, Step(Heading(yawSin, yawCos), length, dt, speed));
    }

    /**
     * What `update_camera` leaves behind: the camera moved by the normalised
     * heading times `dt * speed`, turned by the rotation deltas times
     * `sensitivity * dt`, its pitch clamped; the rotation deltas and the
     * scroll reset; the intents, speed and sensitivity as they were.
     */
    twostate predicate Integrated(camera: Camera, dt: real, yawSin: real, yawCos: real, length: real)
      requires old(Heading(yawSin, yawCos)) != Zero ==>
        length > 0.0 && length * length == old(Heading(yawSin, yawCos)).Norm2()
      reads this, camera
    {
      && camera.pos == old(camera.pos).Plus(Step(old(Heading(yawSin, yawCos)), length, dt, speed))
      && camera.yaw == old(camera.yaw) + old(rotateHorizontal) * sensitivity * dt
      && camera.pitch == ClampPitch(old(camera.pitch) + -old(rotateVertical) * sensitivity * dt)
      && rotateHorizontal == 0.0 && rotateVertical == 0.0 && scroll == 0.0
      && (forall i :: Amount(i) == old(Amount(i)))
      && speed == old(speed) && sensitivity == old(sensitivity)
    }

    method UpdateCamera(camera: Camera, dt: real, yawSin: real, yawCos: real, length: real)
      requires dt >= 0.0
      requires yawSin * yawSin + yawCos * yawCos == 1.0
      requires Heading(yawSin, yawCos) != Zero ==> length > 0.0 && length * length == Heading(yawSin, yawCos).Norm2()
      modifies this`rotateHorizontal, this`rotateVertical, this`scroll, camera
      // Integrated's conjuncts are listed one by one as well: the solver proves
      // them separately far more cheaply than the predicate as a whole.
      ensures camera.pos == old(camera.pos).Plus(Step(old(Heading(yawSin, yawCos)), length, dt, speed))
      ensures camera.yaw == old(camera.yaw) + old(rotateHorizontal) * sensitivity * dt
      ensures camera.pitch == ClampPitch(old(camera.pitch) + -old(rotateVertical) * sensitivity * dt)
      ensures rotateHorizontal == 0.0 && rotateVertical == 0.0 && scroll == 0.0
      ensures (forall i :: Amount(i) == old(Amount(i)))
      ensures speed == old(speed) && sensitivity == old(sensitivity)
      ensures Integrated(camera, dt, yawSin, yawCos, length)
      ensures -SafeHalfPi <= camera.pitch <= SafeHalfPi
      ensures old(amountForward == amountBackward && amountRight == amountLeft && amountUp == amountDown) ==>
        camera.pos == old(camera.pos)
      ensures old(amountUp == amountDown) ==> camera.pos.y == old(camera.pos.y)
      ensures Valid() == old(Valid())
    {
      camera.pos := camera.pos.Plus(Step(Heading(yawSin, yawCos), length, dt, speed));

      scroll := 0.0;

      camera.yaw := camera.yaw + rotateHorizontal * sensitivity * dt;
      camera.pitch := camera.pitch + -rotateVertical * sensitivity * dt;

      if camera.pitch < -SafeHalfPi {
        camera.pitch := -SafeHalfPi;
      } else if camera.pitch > SafeHalfPi {
        camera.pitch := SafeHalfPi;
      }

      rotateHorizontal := 0.0;
      rotateVertical := 0.0;
    }
  }
}
