/** The viewer's globals as one object (src/main.cpp:47-90, 110, 154): the
    three input callbacks update its camera, light and mode fields in place,
    and draw submits one frame of draw calls, writing the model matrices,
    spinning five meshes and refreshing the free-fly camera basis. */
module Scene {
  import opened Vectors
  import opened Input
  import opened Conveyor
  import opened Render

  /** What one call of draw produces. */
  datatype Frame = Frame(view: View, projection: Projection, calls: seq<DrawCall>)

  /** The number of draw calls in every frame: the skybox, the thread,
      fourteen conveyor objects and the rings. */
  const CallsPerFrame: nat := 17

  /** Where draw places mesh i: the thread and the rings stay at their own
      transforms, the conveyor objects 1..14 follow their animation
      offsets. */
  function PlacementOffset(glm: Glm, time: real, i: int): (offset: Vec3)
    ensures 0.0 <= offset.y <= LoopHeight
    ensures !(1 <= i < NumObjects) ==> offset == Origin
  {
    if 1 <= i < NumObjects then Offset(glm, time, i) else Origin
  }

  /** The model-matrix table after renderObject has drawn ms, mesh i at
      its placement: every draw writes the slot of its own object, and a
      later draw of the same object overwrites an earlier one. (A slot
      outside the table, which Viewer.Valid rules out, is skipped.) */
  function PlacedModels(m: seq<ModelMatrix>, ms: seq<Mesh>, glm: Glm, time: real): (r: seq<ModelMatrix>)
    ensures |r| == |m|
    decreases |ms|
  {
    if ms == [] then m
    else
      var n := |ms| - 1;
      var before := PlacedModels(m, ms[..n], glm, time);
      var slot := ms[n].objectIndex;
      if slot < |before| then before[slot := ModelOf(ms[n], PlacementOffset(glm, time, n))]
      else before
  }

  /** A prefix one longer is the prefix followed by the next element. */
  lemma PrefixGrows<T>(s: seq<T>, i: int)
    requires 0 <= i < |s|
    ensures s[..i + 1] == s[..i] + [s[i]]
  {
  }

  /** Drawing one more mesh writes its matrix into its slot. */
  lemma PlacedModelsStep(m: seq<ModelMatrix>, ms: seq<Mesh>, glm: Glm, time: real, i: int)
    requires 0 <= i < |ms| && ms[i].objectIndex < |m|
    ensures PlacedModels(m, ms[..i + 1], glm, time)
            == PlacedModels(m, ms[..i], glm, time)[ms[i].objectIndex := ModelOf(ms[i], PlacementOffset(glm, time, i))]
  {
    assert ms[..i + 1][..i] == ms[..i];
  }

  /** A slot that none of the drawn meshes names keeps its matrix. */
  lemma {:induction false} PlacedModelsKeep(m: seq<ModelMatrix>, ms: seq<Mesh>, glm: Glm, time: real, j: int)
    requires 0 <= j < |m|
    requires forall i :: 0 <= i < |ms| ==> ms[i].objectIndex != j
    ensures PlacedModels(m, ms, glm, time)[j] == m[j]
    decreases |ms|
  {
    if ms != [] {
      var n := |ms| - 1;
      assert forall i :: 0 <= i < n ==> ms[..n][i] == ms[i];
      PlacedModelsKeep(m, ms[..n], glm, time, j);
    }
  }

  /** The slot of mesh i's object holds mesh i's matrix when no later draw
      names the same object. */
  lemma {:induction false} PlacedModelsLast(m: seq<ModelMatrix>, ms: seq<Mesh>, glm: Glm, time: real, i: int)
    requires forall k :: 0 <= k < |ms| ==> ms[k].objectIndex < |m|
    requires 0 <= i < |ms|
    requires forall k :: i < k < |ms| ==> ms[k].objectIndex != ms[i].objectIndex
    ensures PlacedModels(m, ms, glm, time)[ms[i].objectIndex] == ModelOf(ms[i], PlacementOffset(glm, time, i))
    decreases |ms|
  {
    var n := |ms| - 1;
    if i < n {
      assert forall k :: 0 <= k < n ==> ms[..n][k] == ms[k];
      PlacedModelsLast(m, ms[..n], glm, time, i);
    }
  }

  /** The model-matrix table after one frame, starting from m: the skybox
      writes slot 0 with the camera's translation, then the thread, the
      conveyor objects and the rings write their own slots in that order. */
  function FrameModels(m: seq<ModelMatrix>, ms: seq<Mesh>, camPos: Vec3, glm: Glm, time: real): (r: seq<ModelMatrix>)
    requires |ms| == MeshCount && 0 < |m|
    ensures |r| == |m|
  {
    PlacedModels(m[0 := Translation(camPos)], ms, glm, time)
  }
  /** What a frame leaves in the model-matrix table: a slot no mesh names
      keeps its matrix (slot 0, the skybox's, then holds the camera's
      translation), and the slot of mesh k's object holds mesh k's matrix
      at its placement when no later mesh names the same object. */
  lemma FrameModelsSlots(m: seq<ModelMatrix>, ms: seq<Mesh>, camPos: Vec3, glm: Glm, time: real, j: int, k: int)
    requires |ms| == MeshCount && 0 < |m|
    requires forall i :: 0 <= i < |ms| ==> ms[i].objectIndex < |m|
    requires 0 <= j < |m|
    ensures (forall i :: 0 <= i < |ms| ==> ms[i].objectIndex != j) ==>
              FrameModels(m, ms, camPos, glm, time)[j] == if j == 0 then Translation(camPos) else m[j]
    ensures 0 <= k < |ms| && (forall i :: k < i < |ms| ==> ms[i].objectIndex != ms[k].objectIndex) ==>
              FrameModels(m, ms, camPos, glm, time)[ms[k].objectIndex] == ModelOf(ms[k], PlacementOffset(glm, time, k))
  {
    var m0 := m[0 := Translation(camPos)];
    if forall i :: 0 <= i < |ms| ==> ms[i].objectIndex != j {
      PlacedModelsKeep(m0, ms, glm, time, j);
    }
    if 0 <= k < |ms| && forall i :: k < i < |ms| ==> ms[i].objectIndex != ms[k].objectIndex {
      PlacedModelsLast(m0, ms, glm, time, k);
    }
  }


  /** The opaque draws of a frame in GL state g: the thread and the fourteen
      conveyor objects, in index order, each at its placement. */
  function ConveyorCalls(ms: seq<Mesh>, g: GlState, light: Vec3, intensity: real, camPos: Vec3,
                         time: real, glm: Glm): (calls: seq<DrawCall>)
    requires |ms| == MeshCount
    ensures |calls| == NumObjects
  {
    seq(NumObjects, i requires 0 <= i < NumObjects =>
          MeshCall(ms[i], PlacementOffset(glm, time, i), g, light, intensity, camPos))
  }

  /** The draw calls of one frame, given the meshes, the GL state the frame
      starts in, the light and the camera position: the skybox, then the
      thread and the fourteen conveyor objects in index order, then the
      rings, each in the GL state of its pass. */
  function FrameCalls(ms: seq<Mesh>, g: GlState, light: Vec3, intensity: real, camPos: Vec3,
                      time: real, glm: Glm): (calls: seq<DrawCall>)
    requires |ms| == MeshCount
    ensures |calls| == CallsPerFrame
  {
    var sky := EnterPass(g, SkyboxPass);
    var solid := EnterPass(sky, OpaquePass);
    [SkyboxDraw(sky, Translation(camPos), 0, 0, -1.0)]
    + ConveyorCalls(ms, solid, light, intensity, camPos, time, glm)
    + [MeshCall(ms[RingsMesh], PlacementOffset(glm, time, RingsMesh), EnterPass(solid, BlendedPass),
                light, intensity, camPos)]
  }

  /** What a frame draws: the skybox first with depth testing off and front
      faces culled; then the thread and the fourteen conveyor objects,
      depth-tested with back faces culled and blending as the previous frame
      left it, each the mesh of its slot placed at its offset; last the
      rings, blended and unculled. Only the earth's draw takes the
      multi-texture path. */
  lemma FrameShape(ms: seq<Mesh>, g: GlState, light: Vec3, intensity: real, camPos: Vec3,
                   time: real, glm: Glm)
    requires |ms| == MeshCount
    ensures var calls := FrameCalls(ms, g, light, intensity, camPos, time, glm);
      && calls[0].SkyboxDraw? && calls[0].model == Translation(camPos) && calls[0].alpha == -1.0
      && !calls[0].gl.depthTest && calls[0].gl.cullFace && calls[0].gl.cullMode == Front
      && calls[0].gl.blend == g.blend
    ensures var calls := FrameCalls(ms, g, light, intensity, camPos, time, glm);
      forall k :: 1 <= k < CallsPerFrame ==>
        && calls[k].MeshDraw?
        && calls[k].mesh.name == ms[k - 1].name
        && calls[k].mesh.objectIndex == ms[k - 1].objectIndex
        && calls[k].mesh.textureIndex == ms[k - 1].textureIndex
        && calls[k].mesh.material == ms[k - 1].material
        && calls[k].gl.depthTest
        && (calls[k].multitextures <==> ms[k - 1].name == "earth")
    ensures var calls := FrameCalls(ms, g, light, intensity, camPos, time, glm);
      forall k :: 1 <= k < CallsPerFrame - 1 ==>
        calls[k].gl.cullFace && calls[k].gl.cullMode == Back && calls[k].gl.blend == g.blend
    ensures var calls := FrameCalls(ms, g, light, intensity, camPos, time, glm);
      calls[CallsPerFrame - 1].gl.blend && !calls[CallsPerFrame - 1].gl.cullFace
    ensures var calls := FrameCalls(ms, g, light, intensity, camPos, time, glm);
      forall k :: 1 <= k < CallsPerFrame ==>
        calls[k].mesh.modelMatrix == ModelOf(ms[k - 1], PlacementOffset(glm, time, k - 1))
  {
    PassStates(g);
    forall k | 1 <= k < CallsPerFrame {
      FrameCallAt(ms, g, light, intensity, camPos, time, glm, k);
    }
  }

  /** After the skybox, call k of a frame draws mesh k - 1 at its placement,
      in the opaque pass except for the last, blended one. */
  lemma FrameCallAt(ms: seq<Mesh>, g: GlState, light: Vec3, intensity: real, camPos: Vec3,
                    time: real, glm: Glm, k: int)
    requires |ms| == MeshCount && 1 <= k < CallsPerFrame
    ensures var solid := EnterPass(EnterPass(g, SkyboxPass), OpaquePass);
      FrameCalls(ms, g, light, intensity, camPos, time, glm)[k]
      == MeshCall(ms[k - 1], PlacementOffset(glm, time, k - 1),
                  if k < CallsPerFrame - 1 then solid else EnterPass(solid, BlendedPass),
                  light, intensity, camPos)
  {
    var solid := EnterPass(EnterPass(g, SkyboxPass), OpaquePass);
    var conveyor := ConveyorCalls(ms, solid, light, intensity, camPos, time, glm);
    var calls := FrameCalls(ms, g, light, intensity, camPos, time, glm);
    if k < CallsPerFrame - 1 {
      assert calls[k] == conveyor[k - 1];
    } else {
      assert calls[k] == MeshCall(ms[RingsMesh], PlacementOffset(glm, time, RingsMesh),
                                  EnterPass(solid, BlendedPass), light, intensity, camPos);
    }
  }

  /** GL_BLEND is switched on for the rings and never switched off, so the
      state a frame ends in has blending on and every draw of every later
      frame is blended; only the first frame, starting from OpenGL's initial
      state, draws the skybox and the opaque meshes unblended. */
  lemma BlendingPersists(ms: seq<Mesh>, g: GlState, light: Vec3, intensity: real, camPos: Vec3,
                         time: real, glm: Glm)
    requires |ms| == MeshCount
    ensures var next := EnterPass(EnterPass(EnterPass(g, SkyboxPass), OpaquePass), BlendedPass);
      forall k :: 0 <= k < CallsPerFrame ==> FrameCalls(ms, next, light, intensity, camPos, time, glm)[k].gl.blend
    ensures forall k :: 0 <= k < CallsPerFrame - 1 ==>
      !FrameCalls(ms, InitialGl, light, intensity, camPos, time, glm)[k].gl.blend
  {
    PassStates(g);
    FrameShape(ms, EnterPass(EnterPass(EnterPass(g, SkyboxPass), OpaquePass), BlendedPass),
               light, intensity, camPos, time, glm);
    FrameShape(ms, InitialGl, light, intensity, camPos, time, glm);
  }

  class Viewer {
    var orthographic: bool
    var orbital: bool
    var cameraPos: Vec3
    var cameraTarget: Vec3
    var cameraRight: Vec3
    var firstMouse: bool
    var cameraYaw: real
    var cameraPitch: real
    var lastX: real
    var lastY: real
    var fov: real
    var light: Vec3
    var lightIntensity: real
    var earthX: real
    var earthZ: real
    var closeRequested: bool   // glfwSetWindowShouldClose
    var meshes: seq<Mesh>
    var models: seq<ModelMatrix>
    var gl: GlState            // the GL context's capability flags

    /** The fields the callbacks change, as the record the transition
        functions of Input work on. */
    function State(): SceneState
      reads this
    {
      SceneState(orthographic, orbital, cameraPos, cameraTarget, cameraRight, firstMouse,
                 cameraYaw, cameraPitch, lastX, lastY, fov, light, lightIntensity,
                 earthX, earthZ, closeRequested)
    }

    /** Sixteen meshes, each naming a model-matrix slot that exists. */
    predicate Valid()
      reads this
    {
      && |meshes| == MeshCount
      && 0 < |models|
      && forall i :: 0 <= i < |meshes| ==> meshes[i].objectIndex < |models|
    }

    /** The globals at start-up, with the meshes load() builds and one
        identity matrix per loaded object. */
    constructor (glm: Glm, loaded: seq<Mesh>, objectCount: nat)
      requires |loaded| == MeshCount && 0 < objectCount
      requires forall i :: 0 <= i < |loaded| ==> loaded[i].objectIndex < objectCount
      ensures Valid() && State() == Initial(glm)
      ensures meshes == loaded && |models| == objectCount && gl == InitialGl
      ensures forall k :: 0 <= k < |models| ==> models[k] == Identity
    {
      orthographic, orbital := false, false;
      cameraPos := Vec3(0.0, 5.0, 5.0);
      cameraTarget := Vec3(0.0, 4.0, -2.0);
      cameraRight := glm.normalize(Cross(Vec3(0.0, 4.0, -2.0), CameraUp));
      firstMouse := true;
      cameraYaw, cameraPitch := -90.0, 0.0;
      lastX, lastY := 512.0 / 2.0, 512.0 / 2.0;
      fov := 90.0;
      light, lightIntensity := Vec3(10.0, 10.0, 10.0), 1.0;
      earthX, earthZ := 0.0, 0.0;
      closeRequested := false;
      meshes := loaded;
      models := seq(objectCount, _ => Identity);
      gl := InitialGl;
    }

    /** scroll_callback */
    method ScrollCallback(xoffset: real, yoffset: real)
      modifies this`fov
      ensures State() == OnScroll(old(State()), yoffset)
    {
      fov := fov - yoffset;
      if fov < 20.0 {
        fov := 20.0;
      }
      if fov > 160.0 {
        fov := 160.0;
      }
    }

    /** mouse_callback */
    method MouseCallback(xpos: real, ypos: real, glm: Glm)
      modifies this`lastX, this`lastY, this`firstMouse, this`cameraYaw, this`cameraPitch, this`cameraTarget
      ensures var r := OnMouse(old(State()), xpos, ypos, glm);
        && lastX == r.lastX && lastY == r.lastY && firstMouse == r.firstMouse
        && cameraYaw == r.yaw && cameraPitch == r.pitch && cameraTarget == r.cameraTarget
    {
      ghost var r := OnMouse(State(), xpos, ypos, glm);
      if !orbital {
        lastX := 256.0;
        lastY := 256.0;
        if firstMouse {
          lastX := xpos;
          lastY := ypos;
          firstMouse := false;
        }
        var xoffset := xpos - lastX;
        var yoffset := lastY - ypos;
        lastX := xpos;
        lastY := ypos;
        xoffset := xoffset * 0.001;
        yoffset := yoffset * 0.001;
        cameraYaw := cameraYaw + xoffset;
        cameraPitch := cameraPitch + yoffset;
        if cameraPitch > 89.0 {
          cameraPitch := 89.0;
        }
        if cameraPitch < -89.0 {
          cameraPitch := -89.0;
        }
        assert cameraYaw == r.yaw && cameraPitch == r.pitch;
        cameraTarget := LookDirection(glm, cameraYaw, cameraPitch);
      }
    }

    /** key_callback. Each of the source's ifs tests one key together with a
        press and changes one global. The keys are distinct, so at most one
        of them fires and their order does not matter: the model runs them
        grouped by the global they change, the camera's before O can change
        the mode they test. Each global ends as the matching component of
        OnKey. R's reload and T's time stamp touch nothing modelled here. */
    method KeyCallback(key: Key, action: KeyAction)
      modifies this`closeRequested, this`cameraPos, this`light, this`lightIntensity,
               this`orthographic, this`orbital, this`earthX, this`earthZ
      ensures closeRequested == if action == Press && key == Escape then true else old(closeRequested)
      ensures cameraPos == if action == Press then MovedCamera(old(State()), key) else old(cameraPos)
      ensures light == if action == Press then MovedLight(old(light), key) else old(light)
      ensures lightIntensity == old(lightIntensity) + if action == Press then IntensityDelta(key) else 0.0
      ensures orthographic == if action == Press && key == P then !old(orthographic) else old(orthographic)
      ensures orbital == if action == Press && key == O then !old(orbital) else old(orbital)
      ensures earthX == old(earthX) + if action == Press then EarthShiftX(key) else 0.0
      ensures earthZ == old(earthZ) + if action == Press then EarthShiftZ(key) else 0.0
    {
      if action != Press {
        return;
      }
      MoveCamera(key);
      if key == Escape {
        closeRequested := true;
      }
      MoveLight(key);
      ToggleModes(key);
      NudgeEarth(key);
    }

    /** The W, S, D, A, Q and Z branches, none of which moves an orbiting
        camera. */
    method MoveCamera(key: Key)
      modifies this`cameraPos
      ensures cameraPos == MovedCamera(old(State()), key)
    {
      if key == W && !orbital { cameraPos := Add(cameraPos, Scale(cameraTarget, CameraSpeed)); }
      if key == S && !orbital { cameraPos := Sub(cameraPos, Scale(cameraTarget, CameraSpeed)); }
      if key == D && !orbital { cameraPos := Add(cameraPos, Scale(cameraRight, CameraSpeed)); }
      if key == A && !orbital { cameraPos := Sub(cameraPos, Scale(cameraRight, CameraSpeed)); }
      if key == Q && !orbital { cameraPos := Add(cameraPos, Scale(CameraUp, CameraSpeed)); }
      if key == Z && !orbital { cameraPos := Sub(cameraPos, Scale(CameraUp, CameraSpeed)); }
    }

    /** The arrow, bracket, N and M branches. */
    method MoveLight(key: Key)
      modifies this`light, this`lightIntensity
      ensures light == MovedLight(old(light), key)
      ensures lightIntensity == old(lightIntensity) + IntensityDelta(key)
    {
      if key == Right { light := light.(x := light.x + 1.0); }
      if key == Left { light := light.(x := light.x - 1.0); }
      if key == Down { light := light.(z := light.z + 1.0); }
      if key == Up { light := light.(z := light.z - 1.0); }
      if key == RightBracket { light := light.(y := light.y + 1.0); }
      if key == LeftBracket { light := light.(y := light.y - 1.0); }
      if key == N { lightIntensity := lightIntensity - 1.0; }
      if key == M { lightIntensity := lightIntensity + 1.0; }
    }

    /** The P and O branches. */
    method ToggleModes(key: Key)
      modifies this`orthographic, this`orbital
      ensures orthographic == if key == P then !old(orthographic) else old(orthographic)
      ensures orbital == if key == O then !old(orbital) else old(orbital)
    {
      if key == P {
        if orthographic {
          orthographic := false;
        } else {
          orthographic := true;
        }
      }
      if key == O {
        if orbital {
          orbital := false;
        } else {
          orbital := true;
        }
      }
    }

    /** The I, K, J and L branches. */
    method NudgeEarth(key: Key)
      modifies this`earthX, this`earthZ
      ensures earthX == old(earthX) + EarthShiftX(key)
      ensures earthZ == old(earthZ) + EarthShiftZ(key)
    {
      if key == I { earthZ := earthZ + -0.25; }
      if key == K { earthZ := earthZ + 0.25; }
      if key == J { earthX := earthX + -0.25; }
      if key == L { earthX := earthX + 0.25; }
    }

    /** renderObject: the mesh arrives by value, so only the shared model
        matrix slot changes; the draw carries the copy's new matrix. */
    method RenderObject(mesh: Mesh, offset: Vec3) returns (call: DrawCall)
      requires mesh.objectIndex < |models|
      modifies this`models
      ensures models == old(models)[mesh.objectIndex := ModelOf(mesh, offset)]
      ensures meshes == old(meshes)
      ensures call == MeshCall(mesh, offset, gl, light, lightIntensity, cameraPos)
    {
      var copy := mesh;
      var multitextures := copy.name == "earth";
      var companions := CompanionBindings(copy.name);
      models := models[copy.objectIndex := ModelOf(copy, offset)];
      copy := copy.(modelMatrix := models[copy.objectIndex]);
      call := MeshDraw(gl, copy, multitextures, companions, light, lightIntensity, cameraPos);
    }

    /** The opaque part of draw: the thread at its own place, then conveyor
        objects 1..14 at their animation offsets, each submitted when it is
        at least -spacing high, which every offset is. */
    method DrawConveyor(time: real, glm: Glm) returns (calls: seq<DrawCall>)
      requires Valid()
      modifies this`models
      ensures Valid()
      ensures models == PlacedModels(old(models), meshes[..NumObjects], glm, time)
      ensures calls == ConveyorCalls(meshes, gl, light, lightIntensity, cameraPos, time, glm)
    {
      ghost var spec := ConveyorCalls(meshes, gl, light, lightIntensity, cameraPos, time, glm);
      var call := RenderObject(meshes[ThreadMesh], Origin);
      calls := [call];
      assert calls == spec[..1];
      PlacedModelsStep(old(models), meshes, glm, time, 0);
      var i := 1;
      while i < NumObjects
        invariant 1 <= i <= NumObjects
        invariant calls == spec[..i]
        invariant models == PlacedModels(old(models), meshes[..i], glm, time)
      {
        var position := Offset(glm, time, i);
        AlwaysVisible(glm, time, i);
        if position.y >= -Spacing {
          call := RenderObject(meshes[i], position);
          assert call == spec[i];
          calls := calls + [call];
          PrefixGrows(spec, i);
          PlacedModelsStep(old(models), meshes, glm, time, i);
        }
        i := i + 1;
      }
    }

    /** The end-of-frame animation: the rings, tetrahedron, hex, earth and moon
        turn by their per-frame rates. */
    method SpinMeshes()
      requires Valid()
      modifies this`meshes
      ensures Valid()
      ensures meshes == Spin(old(meshes))
    {
      var r := meshes[RingsMesh].transform.rotation;
      meshes := meshes[RingsMesh := WithRotation(meshes[RingsMesh], r.(x := r.x + 0.005))];
      r := meshes[9].transform.rotation;
      meshes := meshes[9 := WithRotation(meshes[9], r.(z := r.z + 0.01))];
      r := meshes[13].transform.rotation;
      meshes := meshes[13 := WithRotation(meshes[13], r.(y := r.y + 0.025))];
      r := meshes[1].transform.rotation;
      meshes := meshes[1 := WithRotation(meshes[1], r.(y := r.y + 0.01))];
      r := meshes[2].transform.rotation;
      meshes := meshes[2 := WithRotation(meshes[2], r.(y := r.y - 0.01))];
      assert forall i :: 0 <= i < |meshes| ==> meshes[i] == Spin(old(meshes))[i];
    }

    /** The draw calls of one frame, issued in order; the rings' blended
        state is what the context keeps afterwards. */
    method SubmitCalls(time: real, glm: Glm) returns (calls: seq<DrawCall>)
      requires Valid()
      modifies this`models, this`gl
      ensures Valid() && |models| == |old(models)|
      ensures calls == FrameCalls(meshes, old(gl), light, lightIntensity, cameraPos, time, glm)
      ensures gl == EnterPass(EnterPass(EnterPass(old(gl), SkyboxPass), OpaquePass), BlendedPass)
      ensures models == FrameModels(old(models), meshes, cameraPos, glm, time)
      ensures models[meshes[RingsMesh].objectIndex] == ModelOf(meshes[RingsMesh], Origin)
    {
      // skybox, index 0 of every table
      gl := EnterPass(gl, SkyboxPass);
      models := models[0 := Translation(cameraPos)];
      var sky := SkyboxDraw(gl, models[0], 0, 0, -1.0);

      // thread and conveyor objects
      gl := EnterPass(gl, OpaquePass);
      var opaqueCalls := DrawConveyor(time, glm);

      // rings, with blending
      gl := EnterPass(gl, BlendedPass);
      var rings := RenderObject(meshes[RingsMesh], Origin);
      assert meshes[..|meshes| - 1] == meshes[..NumObjects];
      calls := [sky] + opaqueCalls + [rings];
    }

    /** The end of draw: the free-fly look direction and right vector are
        recomputed from yaw and pitch. draw does this twice in a row; the
        second time changes nothing. */
    method RefreshBasis(glm: Glm)
      modifies this`cameraTarget, this`cameraRight
      ensures cameraTarget == LookDirection(glm, cameraYaw, cameraPitch)
      ensures cameraRight == glm.normalize(Cross(cameraTarget, CameraUp))
    {
      cameraTarget := LookDirection(glm, cameraYaw, cameraPitch);
      cameraRight := glm.normalize(Cross(cameraTarget, CameraUp));
    }

    /** What draw does after submitting its calls: the spin, then the
        refreshed free-fly basis. */
    method EndFrame(glm: Glm)
      requires Valid()
      modifies this`meshes, this`cameraTarget, this`cameraRight
      ensures Valid()
      ensures meshes == Spin(old(meshes))
      ensures cameraTarget == LookDirection(glm, cameraYaw, cameraPitch)
      ensures cameraRight == glm.normalize(Cross(cameraTarget, CameraUp))
    {
      SpinMeshes();
      RefreshBasis(glm);
    }

    /** draw at clock reading time: the view and projection of the current
        modes, the frame's draw calls, then the spin and the refreshed
        free-fly basis. */
    method Draw(time: real, glm: Glm) returns (frame: Frame)
      requires Valid()
      modifies this`models, this`meshes, this`gl, this`cameraTarget, this`cameraRight
      ensures Valid() && |models| == |old(models)|
      ensures models == FrameModels(old(models), old(meshes), cameraPos, glm, time)
      ensures frame.view == ViewFor(orbital, cameraPos, old(cameraTarget), glm, time)
      ensures frame.projection == ProjectionFor(orthographic, fov)
      ensures frame.calls == FrameCalls(old(meshes), old(gl), light, lightIntensity, cameraPos, time, glm)
      ensures gl == EnterPass(EnterPass(EnterPass(old(gl), SkyboxPass), OpaquePass), BlendedPass)
      ensures meshes == Spin(old(meshes))
      ensures cameraTarget == LookDirection(glm, cameraYaw, cameraPitch)
      ensures cameraRight == glm.normalize(Cross(cameraTarget, CameraUp))
    {
      var view := ViewFor(orbital, cameraPos, cameraTarget, glm, time);
      var projection := ProjectionFor(orthographic, fov);
      var calls := SubmitCalls(time, glm);
      EndFrame(glm);
      frame := Frame(view, projection, calls);
    }
  }
}
