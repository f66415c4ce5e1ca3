/** The scene's meshes and what drawing them submits (src/main.cpp:121-156,
    650-934): the mesh records, the GL flags that matter for compositing,
    an abstract trace of draw calls, renderObject's texture routing and the
    per-frame spin of five meshes. Matrices are kept as the products they
    stand for. */
module Render {
  import opened Vectors

  /** TransformationValues: rotation angles are applied about X, then Y,
      then Z. */
  datatype Transform = Transform(translation: Vec3, rotation: Vec3, scale: Vec3)

  /** MaterialProperties. An alpha of -1 tells the shader to take the
      texture's own alpha (skybox and rings). */
  datatype Material = Material(ambient: Vec3, diffuse: Vec3, specular: Vec3, shininess: real, alpha: real)

  /** A model matrix, kept symbolically. */
  datatype ModelMatrix =
    | Identity                                              // mat4(1.0f)
    | Translation(offset: Vec3)                             // translate(mat4(1), offset)
    | Composed(translation: Vec3, rotation: Vec3, scale: Vec3)
      // translate * rotate(x) * rotate(y) * rotate(z) * scale

  datatype Mesh = Mesh(
    name: string,
    objectIndex: nat,
    textureIndex: nat,
    transform: Transform,
    material: Material,
    modelMatrix: ModelMatrix)

  /** The scene holds sixteen meshes: the thread, fourteen conveyor objects
      and the rings. */
  const MeshCount: nat := 16
  const ThreadMesh: nat := 0
  const RingsMesh: nat := 15

  function WithRotation(m: Mesh, rotation: Vec3): Mesh {
    m.(transform := m.transform.(rotation := rotation))
  }

  // ---------------------------------------------------------------- GL state

  datatype Face = Front | Back

  /** The GL capabilities that decide how a draw composites. */
  datatype GlState = GlState(depthTest: bool, cullFace: bool, cullMode: Face, blend: bool)

  /** OpenGL's initial state. */
  const InitialGl: GlState := GlState(false, false, Back, false)

  datatype Pass = SkyboxPass | OpaquePass | BlendedPass

  /** The enables and disables draw issues before each pass. */
  function EnterPass(g: GlState, pass: Pass): (r: GlState)
    ensures pass == SkyboxPass ==> !r.depthTest && r.cullFace && r.cullMode == Front
    ensures pass == OpaquePass ==> r.depthTest && r.cullFace && r.cullMode == Back
    ensures pass == BlendedPass ==> r.blend && !r.cullFace
    ensures pass != BlendedPass ==> r.blend == g.blend
    ensures pass == BlendedPass ==> r.depthTest == g.depthTest && r.cullMode == g.cullMode
  {
    match pass
    case SkyboxPass => g.(depthTest := false).(cullFace := true).(cullMode := Front)
    case OpaquePass => g.(depthTest := true).(cullFace := true).(cullMode := Back)
    case BlendedPass => g.(blend := true).(cullFace := false)
  }

  /** The skybox is drawn without depth test and with its front faces
      culled; the opaque meshes with depth test and back faces culled; the
      rings with blending on and culling off. Nothing in draw turns blending
      off, so the state a frame ends in has blending on, and every draw of
      the next frame inherits it. */
  lemma PassStates(g: GlState)
    ensures var sky := EnterPass(g, SkyboxPass);
      !sky.depthTest && sky.cullFace && sky.cullMode == Front && sky.blend == g.blend
    ensures var solid := EnterPass(EnterPass(g, SkyboxPass), OpaquePass);
      solid.depthTest && solid.cullFace && solid.cullMode == Back && solid.blend == g.blend
    ensures var blended := EnterPass(EnterPass(EnterPass(g, SkyboxPass), OpaquePass), BlendedPass);
      blended == GlState(true, false, Back, true)
  {
  }

  // ---------------------------------------------------------------- draw calls

  /** What a texture unit holds. */
  datatype Binding = Bound(textureIndex: nat) | Unbound

  /** The units of the earth's normal, specular and night maps; each holds
      the texture of the same index. */
  const CompanionUnits: seq<nat> := [18, 19, 20]

  /** renderObject's routing by name: the earth gets its three companion
      maps, every other mesh has those units cleared. */
  function CompanionBindings(name: string): (b: seq<Binding>)
    ensures |b| == |CompanionUnits|
    ensures name == "earth" <==> forall k :: 0 <= k < |b| ==> b[k] == Bound(CompanionUnits[k])
    ensures name != "earth" <==> forall k :: 0 <= k < |b| ==> b[k] == Unbound
  {
    var b := if name == "earth" then [Bound(18), Bound(19), Bound(20)] else [Unbound, Unbound, Unbound];
    assert b[0] == Bound(CompanionUnits[0]) <==> name == "earth";
    assert b[0] == Unbound <==> name != "earth";
    b
  }

  /** One glDrawElements with the state it was issued under. */
  datatype DrawCall =
    | SkyboxDraw(gl: GlState, model: ModelMatrix, objectIndex: nat, textureIndex: nat, alpha: real)
    | MeshDraw(
        gl: GlState,
        mesh: Mesh,               // renderObject's own copy
        multitextures: bool,      // u_has_multitextures
        companions: seq<Binding>, // units 18, 19, 20
        light: Vec3,
        lightIntensity: real,
        camPos: Vec3)

  /** The model matrix renderObject builds: the mesh's own transform, its
      translation shifted by the animation offset. */
  function ModelOf(mesh: Mesh, offset: Vec3): (m: ModelMatrix)
    ensures m.Composed? && m.rotation == mesh.transform.rotation && m.scale == mesh.transform.scale
    ensures Sub(m.translation, offset) == mesh.transform.translation
  {
    Composed(Add(mesh.transform.translation, offset), mesh.transform.rotation, mesh.transform.scale)
  }

  /** The draw renderObject issues for a mesh passed by value: the copy it
      draws carries the new model matrix, and the multi-texture path is
      taken exactly for the earth. */
  function MeshCall(mesh: Mesh, offset: Vec3, gl: GlState, light: Vec3, intensity: real, camPos: Vec3): (c: DrawCall)
    ensures c.MeshDraw? && c.gl == gl
    ensures c.mesh == mesh.(modelMatrix := ModelOf(mesh, offset))
    ensures |c.companions| == 3
    ensures c.multitextures <==> mesh.name == "earth"
    ensures c.multitextures <==> forall k :: 0 <= k < 3 ==> c.companions[k] == Bound(CompanionUnits[k])
    ensures !c.multitextures <==> forall k :: 0 <= k < 3 ==> c.companions[k] == Unbound
    ensures c.light == light && c.lightIntensity == intensity && c.camPos == camPos
  {
    MeshDraw(gl, mesh.(modelMatrix := ModelOf(mesh, offset)), mesh.name == "earth", CompanionBindings(mesh.name),
             light, intensity, camPos)
  }

  // ---------------------------------------------------------------- spin

  /** The meshes that turn a little every frame. By load()'s push order
      they are the earth (1), the moon (2), the tetrahedron (9), the hex (13)
      and the rings (15); the coin is mesh 8 and does not turn. */
  const SpunMeshes: set<int> := {1, 2, 9, 13, RingsMesh}

  /** How much mesh i turns per frame, about which axis. */
  function SpinRate(i: int): (d: Vec3)
    ensures d != Origin <==> i in SpunMeshes
    ensures (d.x != 0.0 ==> d.y == 0.0 && d.z == 0.0) && (d.y != 0.0 ==> d.z == 0.0)
  {
    if i == RingsMesh then Vec3(0.005, 0.0, 0.0)
    else if i == 9 then Vec3(0.0, 0.0, 0.01)
    else if i == 13 then Vec3(0.0, 0.025, 0.0)
    else if i == 1 then Vec3(0.0, 0.01, 0.0)
    else if i == 2 then Vec3(0.0, -0.01, 0.0)
    else Origin
  }

  /** The meshes after one frame's spin. */
  function Spin(ms: seq<Mesh>): (r: seq<Mesh>)
    ensures |r| == |ms|
    ensures forall i :: 0 <= i < |ms| ==> r[i].objectIndex == ms[i].objectIndex
  {
    seq(|ms|, i requires 0 <= i < |ms| => WithRotation(ms[i], Add(ms[i].transform.rotation, SpinRate(i))))
  }

  /** One frame's spin changes exactly the five spun meshes, and in them
      only the rotation, by the mesh's rate. */
  lemma SpinChanges(ms: seq<Mesh>)
    ensures forall i :: 0 <= i < |ms| ==> Spin(ms)[i] == WithRotation(ms[i], Spin(ms)[i].transform.rotation)
    ensures forall i :: 0 <= i < |ms| ==> Sub(Spin(ms)[i].transform.rotation, ms[i].transform.rotation) == SpinRate(i)
    ensures forall i :: 0 <= i < |ms| ==> (Spin(ms)[i] != ms[i] <==> i in SpunMeshes)
  {
  }

  /** The meshes after n frames. */
  function SpinFrames(ms: seq<Mesh>, n: nat): seq<Mesh>
    decreases n
  {
    if n == 0 then ms else Spin(SpinFrames(ms, n - 1))
  }

  /** The spin is unconditional and unbounded: after n frames each mesh has
      turned n times its rate, and nothing else about it has changed. */
  lemma SpinAccumulates(ms: seq<Mesh>, n: nat)
    ensures |SpinFrames(ms, n)| == |ms|
    ensures forall i :: 0 <= i < |ms| ==>
      SpinFrames(ms, n)[i] == WithRotation(ms[i], Add(ms[i].transform.rotation, Scale(SpinRate(i), n as real)))
  {
    SpinFramesLength(ms, n);
    forall i | 0 <= i < |ms|
      ensures SpinFrames(ms, n)[i] == WithRotation(ms[i], Add(ms[i].transform.rotation, Scale(SpinRate(i), n as real)))
    {
      SpinFramesAt(ms, n, i);
    }
  }

  lemma {:induction false} SpinFramesLength(ms: seq<Mesh>, n: nat)
    ensures |SpinFrames(ms, n)| == |ms|
    decreases n
  {
    if n > 0 {
      SpinFramesLength(ms, n - 1);
    }
  }

  lemma {:induction false} SpinFramesAt(ms: seq<Mesh>, n: nat, i: int)
    requires 0 <= i < |ms|
    ensures |SpinFrames(ms, n)| == |ms|
    ensures SpinFrames(ms, n)[i] == WithRotation(ms[i], Add(ms[i].transform.rotation, Scale(SpinRate(i), n as real)))
    decreases n
  {
    SpinFramesLength(ms, n);
    if n > 0 {
      SpinFramesAt(ms, n - 1, i);
      var before := SpinFrames(ms, n - 1)[i];
      var rate := SpinRate(i);
      calc {
        SpinFrames(ms, n)[i];
        WithRotation(before, Add(before.transform.rotation, rate));
        { TurnTwice(ms[i].transform.rotation, rate, (n - 1) as real); }
        WithRotation(ms[i], Add(ms[i].transform.rotation, Scale(rate, n as real)));
      }
    }
  }

  lemma TurnTwice(r: Vec3, rate: Vec3, k: real)
    ensures Add(Add(r, Scale(rate, k)), rate) == Add(r, Scale(rate, k + 1.0))
  {
    assert rate.x * k + rate.x == rate.x * (k + 1.0);
    assert rate.y * k + rate.y == rate.y * (k + 1.0);
    assert rate.z * k + rate.z == rate.z * (k + 1.0);
  }

  // ---------------------------------------------------------------- camera

  datatype View = LookAt(eye: Vec3, center: Vec3, up: Vec3)

  datatype Projection =
    | Perspective(fovy: real, aspect: real, near: real, far: real)   // fovy in radians, as GLM takes it
    | Ortho(left: real, right: real, bottom: real, top: real, near: real, far: real)

  /** The orbital camera circles the y axis at radius 5 and height 4. */
  function OrbitView(glm: Glm, time: real): (v: View)
    ensures v.center == Vec3(0.0, 4.0, 0.0) && v.eye.y == v.center.y && v.up == Vec3(0.0, 1.0, 0.0)
    ensures v.eye.x == 5.0 * glm.sin(time) && v.eye.z == 5.0 * glm.cos(time)
  {
    LookAt(Vec3(glm.sin(time) * 5.0, 4.0, glm.cos(time) * 5.0), Vec3(0.0, 4.0, 0.0), Vec3(0.0, 1.0, 0.0))
  }

  const OrthoBox: Projection := Ortho(-5.0, 5.0, -5.0, 5.0, -10.0, 10.0)

  /** The view of a frame: the orbit in orbital mode, otherwise the free-fly
      camera at eye looking along target. */
  function ViewFor(orbital: bool, eye: Vec3, target: Vec3, glm: Glm, time: real): (v: View)
    ensures orbital ==> v == OrbitView(glm, time)
    ensures !orbital ==> v.eye == eye && Sub(v.center, v.eye) == target && v.up == Vec3(0.0, 1.0, 0.0)
  {
    if orbital then OrbitView(glm, time) else LookAt(eye, Add(eye, target), Vec3(0.0, 1.0, 0.0))
  }

  /** The projection of a frame as draw builds it: the fixed box in
      orthographic mode, otherwise the perspective with the field of view
      passed on unconverted. */
  function ProjectionFor(orthographic: bool, fov: real): (p: Projection)
    ensures orthographic ==> p.Ortho? && p.left == p.bottom == -5.0 && p.right == p.top == 5.0
                             && p.near == -10.0 && p.far == 10.0
    ensures !orthographic ==> p == PerspectiveAsWritten(fov)
  {
    if orthographic then OrthoBox else PerspectiveAsWritten(fov)
  }

  /** The projection as draw builds it: the field of view, kept in degrees,
      goes to glm::perspective, which reads its first argument in radians. */
  function PerspectiveAsWritten(fov: real): (p: Projection)
    ensures p.Perspective? && p.fovy == fov && p.aspect == 1.0 && p.near == 0.1 && p.far == 50.0
  {
    Perspective(fov, 1.0, 0.1, 50.0)
  }

  /** For every field of view the scroll callback allows, the angle GLM
      receives is not one a perspective projection can have (it lies
      outside (0, pi)); the startup value 90 already is. */
  lemma AsWrittenFovyOutOfRange(fov: real)
    requires 20.0 <= fov <= 160.0
    ensures var p := PerspectiveAsWritten(fov); !(0.0 < p.fovy < Pi)
    ensures PerspectiveAsWritten(90.0).fovy == 90.0
    ensures !(0.0 < ProjectionFor(false, fov).fovy < Pi)
  {
  }

  /** The projection with the field of view converted to radians. */
  function PerspectiveFor(fov: real): (p: Projection)
    ensures p.Perspective? && p.aspect == 1.0 && p.near == 0.1 && p.far == 50.0
    ensures 20.0 <= fov <= 160.0 ==> Pi / 9.0 <= p.fovy <= 8.0 * Pi / 9.0 && 0.0 < p.fovy < Pi
  {
    Perspective(Radians(fov), 1.0, 0.1, 50.0)
  }
}
