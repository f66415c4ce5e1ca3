/** The camera, light and mode globals and the three GLFW callbacks that
    change them (src/main.cpp:47-90, 1040-1207): one transition function per
    event, over a record of the state they touch. */
module Input {
  import opened Vectors

  /** The keys key_callback reacts to; every other key is OtherKey. */
  datatype Key =
    | Escape | R | T
    | W | S | A | D | Q | Z
    | Right | Left | Down | Up | RightBracket | LeftBracket
    | N | M
    | P | O
    | I | K | J | L
    | OtherKey

  datatype KeyAction = Press | Release | Repeat

  /** The part of the viewer's state that input events change. */
  datatype SceneState = SceneState(
    orthographic: bool,
    orbital: bool,
    cameraPos: Vec3,
    cameraTarget: Vec3,   // the look direction
    cameraRight: Vec3,
    firstMouse: bool,
    yaw: real,            // degrees
    pitch: real,          // degrees
    lastX: real,
    lastY: real,
    fov: real,            // degrees
    light: Vec3,
    lightIntensity: real,
    earthX: real,
    earthZ: real,
    closeRequested: bool)

  const CameraUp: Vec3 := Vec3(0.0, 1.0, 0.0)
  const CameraSpeed: real := 0.25
  const MouseSensitivity: real := 0.001
  /** The cursor callback measures every offset from this point (256, 256). */
  const ScreenCentre: real := 256.0
  const MinFov: real := 20.0
  const MaxFov: real := 160.0
  const MaxPitch: real := 89.0

  /** The globals' initial values: perspective projection, free-fly camera
      facing yaw -90 with level pitch, the first cursor event still to come,
      a field of view of 90 degrees. */
  function Initial(glm: Glm): (s: SceneState)
    ensures !s.orthographic && !s.orbital && !s.closeRequested
    ensures s.firstMouse && s.lastX == ScreenCentre && s.lastY == ScreenCentre
    ensures s.fov == 90.0 && s.yaw == -90.0 && s.pitch == 0.0
  {
    var target := Vec3(0.0, 4.0, -2.0);
    SceneState(
      false, false,
      Vec3(0.0, 5.0, 5.0), target, glm.normalize(Cross(target, CameraUp)),
      true, -90.0, 0.0, 512.0 / 2.0, 512.0 / 2.0,
      90.0,
      Vec3(10.0, 10.0, 10.0), 1.0,
      0.0, 0.0,
      false)
  }

  /** The bounds every reachable state keeps. */
  predicate Clamped(s: SceneState) {
    MinFov <= s.fov <= MaxFov && -MaxPitch <= s.pitch <= MaxPitch
  }

  lemma InitialIsClamped(glm: Glm)
    ensures Clamped(Initial(glm))
  {
  }

  // ---------------------------------------------------------------- scroll

  /** scroll_callback: the vertical offset narrows or widens the field of
      view, which never leaves [20, 160]. */
  function OnScroll(s: SceneState, yoffset: real): (r: SceneState)
    ensures MinFov <= r.fov <= MaxFov
    ensures MinFov <= s.fov - yoffset <= MaxFov ==> r.fov == s.fov - yoffset
    ensures s.fov - yoffset < MinFov ==> r.fov == MinFov
    ensures s.fov - yoffset > MaxFov ==> r.fov == MaxFov
    ensures r.(fov := s.fov) == s
  {
    var wanted := s.fov - yoffset;
    var raised := if wanted < 20.0 then 20.0 else wanted;
    var lowered := if raised > 160.0 then 160.0 else raised;
    s.(fov := lowered)
  }

  // ---------------------------------------------------------------- cursor

  /** The pitch the cursor asks for before clamping. The first event after
      start-up is absorbed: its offset is zero. */
  function WantedPitch(s: SceneState, ypos: real): real {
    s.pitch + (if s.firstMouse then 0.0 else (ScreenCentre - ypos) * MouseSensitivity)
  }

  /** mouse_callback: in free-fly mode the cursor's offset from the centre
      turns the camera, pitch stays in [-89, 89] and the look direction
      follows; in orbital mode nothing changes. */
  function OnMouse(s: SceneState, xpos: real, ypos: real, glm: Glm): (r: SceneState)
    ensures s.orbital ==> r == s
    ensures !s.orbital ==> !r.firstMouse && r.lastX == xpos && r.lastY == ypos
    ensures !s.orbital ==>
      r.yaw == s.yaw + (if s.firstMouse then 0.0 else (xpos - ScreenCentre) * MouseSensitivity)
    ensures !s.orbital ==> -MaxPitch <= r.pitch <= MaxPitch
    ensures !s.orbital && -MaxPitch <= WantedPitch(s, ypos) <= MaxPitch ==> r.pitch == WantedPitch(s, ypos)
    ensures !s.orbital && WantedPitch(s, ypos) > MaxPitch ==> r.pitch == MaxPitch
    ensures !s.orbital && WantedPitch(s, ypos) < -MaxPitch ==> r.pitch == -MaxPitch
    ensures !s.orbital ==> r.cameraTarget == LookDirection(glm, r.yaw, r.pitch)
    ensures r.(yaw := s.yaw, pitch := s.pitch, lastX := s.lastX, lastY := s.lastY,
               firstMouse := s.firstMouse, cameraTarget := s.cameraTarget) == s
  {
    if s.orbital then s
    else
      var fromX := if s.firstMouse then xpos else ScreenCentre;
      var fromY := if s.firstMouse then ypos else ScreenCentre;
      var xoffset := (xpos - fromX) * 0.001;
      var yoffset := (fromY - ypos) * 0.001;
      var yaw := s.yaw + xoffset;
      var pitch := s.pitch + yoffset;
      var lowered := if pitch > 89.0 then 89.0 else pitch;
      var raised := if lowered < -89.0 then -89.0 else lowered;
      s.(lastX := xpos, lastY := ypos, firstMouse := false,
         yaw := yaw, pitch := raised, cameraTarget := LookDirection(glm, yaw, raised))
  }

  // ---------------------------------------------------------------- keys

  /** The keys that translate the camera (W, S, D, A, Q, Z). */
  predicate MovesCamera(key: Key) {
    key == W || key == S || key == D || key == A || key == Q || key == Z
  }

  /** The direction in which a movement key translates the camera. */
  function MoveDirection(s: SceneState, key: Key): Vec3
    requires MovesCamera(key)
  {
    match key
    case W => s.cameraTarget
    case S => Neg(s.cameraTarget)
    case D => s.cameraRight
    case A => Neg(s.cameraRight)
    case Q => CameraUp
    case Z => Neg(CameraUp)
  }

  /** Where one press of a movement key puts the camera. */
  function CameraStep(s: SceneState, key: Key): Vec3
    requires MovesCamera(key)
  {
    match key
    case W => Add(s.cameraPos, Scale(s.cameraTarget, CameraSpeed))
    case S => Sub(s.cameraPos, Scale(s.cameraTarget, CameraSpeed))
    case D => Add(s.cameraPos, Scale(s.cameraRight, CameraSpeed))
    case A => Sub(s.cameraPos, Scale(s.cameraRight, CameraSpeed))
    case Q => Add(s.cameraPos, Scale(CameraUp, CameraSpeed))
    case Z => Sub(s.cameraPos, Scale(CameraUp, CameraSpeed))
  }

  /** Where a press of key leaves the camera: moved by a movement key unless
      the camera is orbiting, in place otherwise. */
  function MovedCamera(s: SceneState, key: Key): Vec3 {
    if MovesCamera(key) && !s.orbital then CameraStep(s, key) else s.cameraPos
  }

  /** The keys that move the light (the arrows and the brackets). */
  predicate MovesLight(key: Key) {
    key == Right || key == Left || key == Down || key == Up || key == RightBracket || key == LeftBracket
  }

  /** Where one press of a light key puts the light. */
  function LightStep(light: Vec3, key: Key): Vec3
    requires MovesLight(key)
  {
    match key
    case Right => light.(x := light.x + 1.0)
    case Left => light.(x := light.x - 1.0)
    case Down => light.(z := light.z + 1.0)
    case Up => light.(z := light.z - 1.0)
    case RightBracket => light.(y := light.y + 1.0)
    case LeftBracket => light.(y := light.y - 1.0)
  }

  /** Where a press of key leaves the light. */
  function MovedLight(light: Vec3, key: Key): Vec3 {
    if MovesLight(key) then LightStep(light, key) else light
  }

  /** How far one press moves the light: a unit step along one axis for the
      light keys, nothing for the others. */
  function LightDelta(key: Key): (d: Vec3)
    ensures MovesLight(key) ==>
      || (d.x in {1.0, -1.0} && d.y == 0.0 && d.z == 0.0)
      || (d.x == 0.0 && d.y in {1.0, -1.0} && d.z == 0.0)
      || (d.x == 0.0 && d.y == 0.0 && d.z in {1.0, -1.0})
    ensures !MovesLight(key) ==> d == Origin
  {
    match key
    case Right => Vec3(1.0, 0.0, 0.0)
    case Left => Vec3(-1.0, 0.0, 0.0)
    case RightBracket => Vec3(0.0, 1.0, 0.0)
    case LeftBracket => Vec3(0.0, -1.0, 0.0)
    case Down => Vec3(0.0, 0.0, 1.0)
    case Up => Vec3(0.0, 0.0, -1.0)
    case _ => Origin
  }

  /** How far one press changes the light intensity: N dims, M brightens. */
  function IntensityDelta(key: Key): real {
    if key == N then -1.0 else if key == M then 1.0 else 0.0
  }

  /** How far one press moves the earth along x: J by -0.25, L by +0.25. */
  function EarthShiftX(key: Key): real {
    if key == J then -0.25 else if key == L then 0.25 else 0.0
  }

  /** How far one press moves the earth along z: I by -0.25, K by +0.25. */
  function EarthShiftZ(key: Key): real {
    if key == I then -0.25 else if key == K then 0.25 else 0.0
  }

  /** key_callback. Each of its ifs tests one key together with a press and
      changes one global; the keys are distinct, so a press fires at most one
      of them and each global can be written as its own update. P and O flip
      the projection and the camera mode; the movement keys translate the
      camera unless it is orbiting; the arrows and brackets move the light by
      one unit; N and M change its intensity by one; I, K, J, L nudge the
      earth offsets; Escape asks the window to close. R (reload) and T (log
      the time) leave this state as it is. */
  function OnKey(s: SceneState, key: Key, action: KeyAction): (r: SceneState)
    ensures action != Press ==> r == s
  {
    if action != Press then s
    else s.(
      closeRequested := if key == Escape then true else s.closeRequested,
      cameraPos := MovedCamera(s, key),
      light := MovedLight(s.light, key),
      lightIntensity := s.lightIntensity + IntensityDelta(key),
      orthographic := if key == P then !s.orthographic else s.orthographic,
      orbital := if key == O then !s.orbital else s.orbital,
      earthX := s.earthX + EarthShiftX(key),
      earthZ := s.earthZ + EarthShiftZ(key))
  }


  /** P flips the projection, O the camera mode, Escape raises the close
      request; no other event touches them. */
  lemma KeyToggles(s: SceneState, key: Key, action: KeyAction)
    ensures var r := OnKey(s, key, action);
      && r.orthographic == (s.orthographic != (action == Press && key == P))
      && r.orbital == (s.orbital != (action == Press && key == O))
      && r.closeRequested == (s.closeRequested || (action == Press && key == Escape))
  {
  }

  /** The camera moves only on a movement key pressed in free-fly mode. */
  lemma KeyMovesCameraOnlyInFreeFly(s: SceneState, key: Key, action: KeyAction)
    ensures OnKey(s, key, action).cameraPos != s.cameraPos ==> action == Press && !s.orbital && MovesCamera(key)
  {
  }

  /** A movement key pressed in free-fly mode moves the camera by a quarter
      unit along that key's direction. */
  lemma KeyMovesCamera(s: SceneState, key: Key, action: KeyAction)
    ensures action == Press && !s.orbital && MovesCamera(key) ==>
      OnKey(s, key, action).cameraPos == Add(s.cameraPos, Scale(MoveDirection(s, key), CameraSpeed))
  {
    if action == Press && !s.orbital && MovesCamera(key) {
      assert OnKey(s, key, action).cameraPos == CameraStep(s, key);
      CameraStepAlong(s, key);
    }
  }

  lemma SubIsAddNeg(p: Vec3, v: Vec3, k: real)
    ensures Sub(p, Scale(v, k)) == Add(p, Scale(Neg(v), k))
  {
  }

  lemma CameraStepAlong(s: SceneState, key: Key)
    requires MovesCamera(key)
    ensures CameraStep(s, key) == Add(s.cameraPos, Scale(MoveDirection(s, key), CameraSpeed))
  {
    var p := s.cameraPos;
    if key == W {
      assert CameraStep(s, key) == Add(p, Scale(s.cameraTarget, CameraSpeed));
    } else if key == S {
      assert CameraStep(s, key) == Sub(p, Scale(s.cameraTarget, CameraSpeed));
      SubIsAddNeg(p, s.cameraTarget, CameraSpeed);
    } else if key == D {
      assert CameraStep(s, key) == Add(p, Scale(s.cameraRight, CameraSpeed));
    } else if key == A {
      assert CameraStep(s, key) == Sub(p, Scale(s.cameraRight, CameraSpeed));
      SubIsAddNeg(p, s.cameraRight, CameraSpeed);
    } else if key == Q {
      assert CameraStep(s, key) == Add(p, Scale(CameraUp, CameraSpeed));
    } else {
      assert CameraStep(s, key) == Sub(p, Scale(CameraUp, CameraSpeed));
      SubIsAddNeg(p, CameraUp, CameraSpeed);
    }
  }

  /** A press moves the light by its key's unit step, changes the intensity
      by its key's delta and nudges the earth by its key's shifts. */
  lemma KeyNudges(s: SceneState, key: Key, action: KeyAction)
    ensures action == Press ==> OnKey(s, key, action).light == Add(s.light, LightDelta(key))
    ensures action == Press ==> OnKey(s, key, action).lightIntensity == s.lightIntensity + IntensityDelta(key)
    ensures action == Press ==> OnKey(s, key, action).earthX == s.earthX + EarthShiftX(key)
    ensures action == Press ==> OnKey(s, key, action).earthZ == s.earthZ + EarthShiftZ(key)
  {
    if action == Press && MovesLight(key) {
      LightStepAlong(s.light, key);
    }
  }

  lemma LightStepAlong(light: Vec3, key: Key)
    requires MovesLight(key)
    ensures LightStep(light, key) == Add(light, LightDelta(key))
  {
    match key {
      case Right =>
      case Left =>
      case Down =>
      case Up =>
      case RightBracket =>
      case LeftBracket =>
    }
  }

  /** No key changes the camera's orientation, the cursor bookkeeping or the
      field of view. */
  lemma KeyFrame(s: SceneState, key: Key, action: KeyAction)
    ensures var r := OnKey(s, key, action);
      && r.cameraTarget == s.cameraTarget && r.cameraRight == s.cameraRight
      && r.yaw == s.yaw && r.pitch == s.pitch
      && r.firstMouse == s.firstMouse && r.lastX == s.lastX && r.lastY == s.lastY
      && r.fov == s.fov
  {
  }

  /** Pressing P, or O, twice in a row restores the state. */
  lemma ToggleTwiceRestores(s: SceneState, key: Key)
    requires key == P || key == O
    ensures OnKey(OnKey(s, key, Press), key, Press) == s
  {
  }

  // ---------------------------------------------------------------- event runs

  /** The events GLFW delivers to the callbacks. A mouse button press is only
      logged. */
  datatype Event =
    | Scroll(xoffset: real, yoffset: real)
    | CursorMove(xpos: real, ypos: real)
    | KeyEvent(key: Key, action: KeyAction)
    | MouseButton

  function Handle(s: SceneState, e: Event, glm: Glm): SceneState {
    match e
    case Scroll(_, yoffset) => OnScroll(s, yoffset)
    case CursorMove(xpos, ypos) => OnMouse(s, xpos, ypos, glm)
    case KeyEvent(key, action) => OnKey(s, key, action)
    case MouseButton => s
  }

  function Run(s: SceneState, events: seq<Event>, glm: Glm): SceneState
    decreases |events|
  {
    if events == [] then s else Run(Handle(s, events[0], glm), events[1..], glm)
  }

  /** Whatever the events, a clamped state stays clamped: the field of view
      stays in [20, 160] and the pitch in [-89, 89]. */
  lemma {:induction false} RunKeepsClamped(s: SceneState, events: seq<Event>, glm: Glm)
    requires Clamped(s)
    ensures Clamped(Run(s, events, glm))
    decreases |events|
  {
    if events != [] {
      var next := Handle(s, events[0], glm);
      assert Clamped(next);
      RunKeepsClamped(next, events[1..], glm);
    }
  }

  /** Whatever field of view the state starts with, once a scroll event has
      been handled it lies in [20, 160] and stays there. */
  lemma {:induction false} ScrollClampsFov(s: SceneState, events: seq<Event>, glm: Glm)
    requires exists k :: 0 <= k < |events| && events[k].Scroll?
    ensures MinFov <= Run(s, events, glm).fov <= MaxFov
    decreases |events|
  {
    var next := Handle(s, events[0], glm);
    if events[0].Scroll? {
      FovStaysInRange(next, events[1..], glm);
    } else {
      var k :| 0 <= k < |events| && events[k].Scroll?;
      assert events[1..][k - 1].Scroll?;
      ScrollClampsFov(next, events[1..], glm);
    }
  }

  lemma {:induction false} FovStaysInRange(s: SceneState, events: seq<Event>, glm: Glm)
    requires MinFov <= s.fov <= MaxFov
    ensures MinFov <= Run(s, events, glm).fov <= MaxFov
    decreases |events|
  {
    if events != [] {
      FovStaysInRange(Handle(s, events[0], glm), events[1..], glm);
    }
  }

  /** While the camera orbits and O is not pressed, no event moves the
      free-fly camera: position, yaw, pitch and look direction stay put. */
  lemma {:induction false} OrbitPinsCamera(s: SceneState, events: seq<Event>, glm: Glm)
    requires s.orbital
    requires forall k :: 0 <= k < |events| ==> events[k] != KeyEvent(O, Press)
    ensures var r := Run(s, events, glm);
      && r.orbital
      && r.cameraPos == s.cameraPos && r.cameraTarget == s.cameraTarget
      && r.yaw == s.yaw && r.pitch == s.pitch
    decreases |events|
  {
    if events != [] {
      var next := Handle(s, events[0], glm);
      OrbitPinsCamera(next, events[1..], glm);
    }
  }
}
