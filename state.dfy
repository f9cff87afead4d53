/**
 * The per-frame state of the viewer (`state.rs`): window size and surface
 * configuration, the camera with its projection and controller, the
 * camera uniform's eye position, the frame counter and the mouse-button
 * flag. The GPU handles (surface, device, queue, buffers, pipeline, mesh,
 * depth texture) are not part of this model; the clock is replaced by the
 * frame time `dt` passed to `Update`.
 */
module State {
  import opened Geometry
  import opened Wrappers
  import C = Camera

  /** winit's `PhysicalSize<u32>`. */
  datatype Size = Size(width: C.U32, height: C.U32)

  /** What the event loop does next. */
  datatype ControlFlow = Poll | Exit

  datatype WindowEvent =
    | Resized(size: Size)
    | ScaleFactorChanged(newInnerSize: Size)
    | CloseRequested
    | OtherWindowEvent

  datatype DeviceEvent =
    | Key(keycode: Option<C.Key>, state: C.ElementState)
    | MouseWheel(delta: C.ScrollDelta)
    | Button(button: nat, state: C.ElementState)
    | MouseMotion(dx: real, dy: real)
    | OtherDeviceEvent

  datatype Event =
    | Window(windowEvent: WindowEvent)
    | Device(deviceEvent: DeviceEvent)
    | OtherEvent

  /** The events after which the viewer stops: a close request, or a press or release of Escape. */
  predicate RequestsExit(e: Event) {
    || e == Window(CloseRequested)
    || (e.Device? && e.deviceEvent.Key? && e.deviceEvent.keycode == Some(C.Escape))
  }

  /** The uniform block handed to the shader; only its eye position is modelled. */
  class CameraUniform {
    var viewPos: Vec4

    constructor ()
      ensures viewPos == Vec4(0.0, 0.0, 0.0, 0.0)
    {
      viewPos := Vec4(0.0, 0.0, 0.0, 0.0);
    }

    /** The eye position becomes the camera position in homogeneous coordinates. */
    method UpdateViewProj(camera: C.Camera)
      modifies this
      ensures viewPos.w == 1.0
      ensures Vec3(viewPos.x, viewPos.y, viewPos.z) == camera.pos
    {
      viewPos := camera.pos.Homogeneous();
    }
  }

  class State {
    var size: Size
    var surfaceWidth: C.U32
    var surfaceHeight: C.U32
    const camera: C.Camera
    const projection: C.Projection
    const controller: C.Controller
    const cameraUniform: CameraUniform
    var frameCount: nat
    var deltaTime: real
    var mousePressed: bool

    /**
     * The surface is configured for the window size, the projection's aspect
     * ratio is that size's, the uniform holds the camera's position, every
     * movement intent is off or on, and the frame time is not negative.
     */
    predicate Valid()
      reads this, camera, projection, controller, cameraUniform
    {
      && surfaceWidth == size.width && surfaceHeight == size.height
      && projection.aspect == C.AspectRatio(size.width, size.height)
      && cameraUniform.viewPos == camera.pos.Homogeneous()
      && controller.Valid()
      && deltaTime >= 0.0
    }

    /** The start-up values of `State::new`. */
    constructor (size: Size)
      ensures Valid()
      ensures this.size == size && frameCount == 0 && deltaTime == 0.013 && !mousePressed
      ensures camera.pos == Vec3(0.0, 5.0, 10.0)
      ensures camera.yaw == C.Radians(-90.0) && camera.pitch == C.Radians(-20.0)
      ensures projection.fovy == C.Radians(90.0) && projection.znear == 0.1 && projection.zfar == 10000.0
      ensures controller.speed == 10.0 && controller.sensitivity == 0.3
      ensures forall i :: controller.Amount(i) == 0.0
      ensures controller.rotateHorizontal == 0.0 && controller.rotateVertical == 0.0 && controller.scroll == 0.0
      ensures fresh(camera) && fresh(projection) && fresh(controller) && fresh(cameraUniform)
    {
      this.size := size;
      surfaceWidth := size.width;
      surfaceHeight := size.height;
      var eye := new C.Camera(Vec3(0.0, 5.0, 10.0), C.Radians(-90.0), C.Radians(-20.0));
      camera := eye;
      projection := new C.Projection(size.width, size.height, C.Radians(90.0), 0.1, 10000.0);
      controller := new C.Controller(10.0, 0.3);
      var uniform := new CameraUniform();
      uniform.UpdateViewProj(eye);
      cameraUniform := uniform;
      frameCount := 0;
      deltaTime := 0.013;
      mousePressed := false;
    }

    /** The window size, the surface configuration and the aspect ratio are as before. */
    twostate predicate WindowKept()
      reads this, projection
    {
      && size == old(size)
      && surfaceWidth == old(surfaceWidth) && surfaceHeight == old(surfaceHeight)
      && projection.aspect == old(projection.aspect)
    }

    /**
     * The effect of `resize(s)`: a size with a zero side is ignored; any other
     * becomes the window size, the surface size and the aspect ratio.
     */
    twostate predicate ResizeApplied(s: Size)
      reads this, projection
    {
      if s.width > 0 && s.height > 0 then
        && size == s
        && surfaceWidth == s.width && surfaceHeight == s.height
        && projection.aspect == C.AspectRatio(s.width, s.height)
      else
        WindowKept()
    }

    method Resize(newSize: Size)
      requires Valid()
      modifies this`size, this`surfaceWidth, this`surfaceHeight, projection`aspect
      ensures Valid()
      ensures ResizeApplied(newSize)
    {
      if newSize.width > 0 && newSize.height > 0 {
        projection.Resize(newSize.width, newSize.height);
        size := newSize;
        surfaceWidth := newSize.width;
        surfaceHeight := newSize.height;
      }
    }

    /** The key goes to the controller first; the viewer exits on Escape, pressed or released. */
    method KeyboardInput(key: C.Key, state: C.ElementState) returns (flow: ControlFlow)
      requires Valid()
      modifies controller
      ensures Valid()
      ensures controller.KeyApplied(key, state)
      ensures flow == Exit <==> key == C.Escape
    {
      var _ := controller.ProcessKeyboard(key, state);
      if key == C.Escape {
        flow := Exit;
      } else {
        flow := Poll;
      }
    }

    /**
     * Routes one event: resizes go to `Resize`, keys to `KeyboardInput`,
     * wheel and motion to the controller, button 1 to the mouse flag; every
     * other event changes nothing.
     */
    method Input(e: Event) returns (flow: ControlFlow)
      requires Valid()
      modifies this`size, this`surfaceWidth, this`surfaceHeight, this`mousePressed, projection`aspect, controller
      ensures Valid()
      ensures flow == Exit <==> RequestsExit(e)
      ensures match e
        case Window(Resized(s)) =>
          ResizeApplied(s) && unchanged(controller) && mousePressed == old(mousePressed)
        case Window(ScaleFactorChanged(s)) =>
          ResizeApplied(s) && unchanged(controller) && mousePressed == old(mousePressed)
        case Device(Key(Some(k), state)) =>
          controller.KeyApplied(k, state) && WindowKept() && mousePressed == old(mousePressed)
        case Device(MouseWheel(delta)) =>
          controller.ScrollApplied(delta) && WindowKept() && mousePressed == old(mousePressed)
        case Device(Button(button, state)) =>
          && (mousePressed == if button == 1 then state == C.Pressed else old(mousePressed))
          && unchanged(controller) && WindowKept()
        case Device(MouseMotion(dx, dy)) =>
          controller.MouseApplied(dx, dy) && WindowKept() && mousePressed == old(mousePressed)
        case _ =>
          unchanged(controller) && WindowKept() && mousePressed == old(mousePressed)
    {
      match e {
        case Window(we) =>
          match we {
            case Resized(s) =>
              Resize(s);
            case ScaleFactorChanged(s) =>
              Resize(s);
            case CloseRequested =>
              return Exit;
            case OtherWindowEvent =>
          }
        case Device(de) =>
          match de {
            case Key(Some(k), state) =>
              flow := KeyboardInput(k, state);
              return;
            case Key(None, _) =>
            case MouseWheel(delta) =>
              controller.ProcessScroll(delta);
            case Button(button, state) =>
              if button == 1 {
                mousePressed := state == C.Pressed;
              }
            case MouseMotion(dx, dy) =>
              controller.ProcessMouse(dx, dy);
            case OtherDeviceEvent =>
          }
        case OtherEvent =>
      }
      flow := Poll;
    }

    /**
     * One frame: records the frame time, lets the controller move the camera,
     * refreshes the uniform's eye position and counts the frame. The caller
     * supplies the sine and cosine of some angle, standing for the camera's
     * yaw (nothing here ties them to `camera.yaw`), and the length of the
     * displacement.
     */
    method Update(dt: real, yawSin: real, yawCos: real, length: real)
      requires Valid()
      requires dt >= 0.0
      requires yawSin * yawSin + yawCos * yawCos == 1.0
      requires controller.Heading(yawSin, yawCos) != Zero ==>
        length > 0.0 && length * length == controller.Heading(yawSin, yawCos).Norm2()
      modifies this`deltaTime, this`frameCount, camera, cameraUniform
      modifies controller`rotateHorizontal, controller`rotateVertical, controller`scroll
      ensures Valid()
      ensures deltaTime == dt
      ensures frameCount == old(frameCount) + 1
      ensures controller.Integrated(camera, dt, yawSin, yawCos, length)
      ensures cameraUniform.viewPos.w == 1.0
      ensures Vec3(cameraUniform.viewPos.x, cameraUniform.viewPos.y, cameraUniform.viewPos.z) == camera.pos
    {
      // The controller is handed `dt` itself, so storing it afterwards changes nothing it sees.
      controller.UpdateCamera(camera, dt, yawSin, yawCos, length);
      deltaTime := dt;
      cameraUniform.UpdateViewProj(camera);
      frameCount := frameCount + 1;
    }
  }
}
