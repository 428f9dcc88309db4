/**
 * The animation window (04_Animation): the first mesh of an OBJ model is
 * packed into one interleaved float array, six floats per vertex, uploaded
 * to a single buffer read through two attribute arrays, and drawn every
 * frame under a rotation chosen by the selected mode.
 *
 * Floats are modelled as reals and transforms as symbolic values: the
 * matrix, quaternion and trigonometric arithmetic is not part of the model.
 */
module Animation {
  import opened Wrappers

  /** sizeof(GLfloat). */
  const FloatBytes := 4
  /** Floats per packed vertex: 3 position components, then 3 normal components. */
  const FloatsPerVertex := 6
  /** The stride of both attribute arrays: sizeof(GLfloat) * 6. */
  const Stride := 24
  /** The byte offset of the normal inside a record: 3 * sizeof(GLfloat). */
  const NormalOffset := 12
  /** Components per attribute. */
  const Components := 3

  /** The scale and offset applied to every position while packing. */
  const Scale: real := 0.5
  const Offset := Vec3(0.0, -0.4, 0.0)

  datatype Vec3 = Vec3(x: real, y: real, z: real)
  datatype Vertex = Vertex(position: Vec3, normal: Vec3)
  datatype Mesh = Mesh(vertices: seq<Vertex>)

  datatype ShaderInput = VPosition | VNormal

  /** glVertexAttribPointer with 3 float components: the byte stride and byte offset in the bound buffer. */
  datatype AttribPointer = AttribPointer(stride: int, offset: int)

  /** A rotation as a quaternion, kept symbolic. */
  datatype Quat =
    | AngleAxis(angle: real, axis: Vec3)
    | Lerp(t: real, from: Quat, to: Quat)     // normalize(t * q2 + (1 - t) * q1)
    | Slerp(t: real, from: Quat, to: Quat)

  /** The model matrix handed to the shader, kept symbolic. */
  datatype Transform = Identity | Euler(angles: Vec3) | FromQuat(q: Quat)

  datatype Command =
    | Clear
    | BindVertexArray
    | UseProgram
    | SetModel(m: Transform)                 // the "m" and "mNormal" uniforms
    | DrawTriangles(first: int, count: int)
    | Flush

  // ---------------------------------------------------------------------
  // Packing

  function Components3(v: Vec3): seq<real>
  {
    [v.x, v.y, v.z]
  }

  /** A position as packed: scaled by 0.5 and moved by (0, -0.4, 0). */
  function Placed(p: Vec3): Vec3
  {
    Vec3(p.x * Scale + Offset.x, p.y * Scale + Offset.y, p.z * Scale + Offset.z)
  }

  /** The six floats one vertex contributes. */
  function Record(v: Vertex): seq<real>
  {
    Components3(Placed(v.position)) + Components3(v.normal)
  }

  /** The packed array for a sequence of vertices: their records back to back. */
  function Interleave(vs: seq<Vertex>): seq<real>
  {
    seq(FloatsPerVertex * |vs|, k requires 0 <= k < FloatsPerVertex * |vs| => Record(vs[k / FloatsPerVertex])[k % FloatsPerVertex])
  }

  lemma InterleaveSnoc(vs: seq<Vertex>, v: Vertex)
    ensures Interleave(vs + [v]) == Interleave(vs) + Record(v)
  {
    var n := |vs|;
    forall k | 0 <= k < 6 * n + 6
      ensures Interleave(vs + [v])[k] == (Interleave(vs) + Record(v))[k]
    {
      if k >= 6 * n {
        assert k / 6 == n && k % 6 == k - 6 * n;
      } else {
        assert k / 6 < n;
      }
    }
  }

  /**
   * Record i of the packed array occupies floats [6i, 6i + 6): the placed
   * position in its first three slots and the normal, unchanged, in slots
   * 3 to 5.
   */
  lemma InterleaveRecords(vs: seq<Vertex>, i: nat)
    requires i < |vs|
    ensures |Interleave(vs)| == FloatsPerVertex * |vs|
    ensures Interleave(vs)[6 * i .. 6 * i + 3] == Components3(Placed(vs[i].position))
    ensures Interleave(vs)[6 * i + 3 .. 6 * i + 6] == Components3(vs[i].normal)
  {
    var r := Interleave(vs);
    RecordAt(vs, i);
    assert r[6 * i .. 6 * i + 6] == Record(vs[i]);
    assert r[6 * i .. 6 * i + 3] == r[6 * i .. 6 * i + 6][..3];
    assert r[6 * i + 3 .. 6 * i + 6] == r[6 * i .. 6 * i + 6][3..];
  }

  lemma RecordAt(vs: seq<Vertex>, i: nat)
    requires i < |vs|
    ensures forall c :: 0 <= c < 6 ==> Interleave(vs)[6 * i + c] == Record(vs[i])[c]
  {
    forall c | 0 <= c < 6
      ensures Interleave(vs)[6 * i + c] == Record(vs[i])[c]
    {
      assert (6 * i + c) / 6 == i && (6 * i + c) % 6 == c;
    }
  }

  // ---------------------------------------------------------------------
  // Reading through the attribute arrays

  /** The two attribute arrays as InitializeGL sets them up. */
  function Layout(): map<ShaderInput, AttribPointer>
  {
    map[VPosition := AttribPointer(Stride, 0), VNormal := AttribPointer(Stride, NormalOffset)]
  }

  /**
   * What an attribute array hands vertex i from a buffer of floats: the
   * three floats starting at byte offset + i * stride, or None when that
   * read is not float-aligned or leaves the buffer.
   */
  function Fetch(data: seq<real>, p: AttribPointer, i: nat): Option<seq<real>>
  {
    var start := p.offset + i * p.stride;
    if start < 0 || start % FloatBytes != 0 || start / FloatBytes + Components > |data| then None
    else Some(data[start / FloatBytes .. start / FloatBytes + Components])
  }

  /**
   * The attribute layout matches the packing: for every packed vertex i,
   * the position array hands it its placed position and the normal array
   * its normal, and each read stays inside vertex i's own record.
   */
  lemma LayoutMatchesRecords(vs: seq<Vertex>, i: nat)
    requires i < |vs|
    ensures Fetch(Interleave(vs), Layout()[VPosition], i) == Some(Components3(Placed(vs[i].position)))
    ensures Fetch(Interleave(vs), Layout()[VNormal], i) == Some(Components3(vs[i].normal))
    ensures forall input :: input in Layout() ==>
      0 <= Layout()[input].offset && Layout()[input].offset + Components * FloatBytes <= Layout()[input].stride
  {
    InterleaveRecords(vs, i);
    assert (24 * i) % 4 == 0 && (24 * i) / 4 == 6 * i;
    assert (12 + 24 * i) % 4 == 0 && (12 + 24 * i) / 4 == 6 * i + 3;
  }

  /** No vertex at or past the packed count can be read: the draw range [0, n) is exactly what the buffer holds. */
  lemma NoReadPastRecords(vs: seq<Vertex>, input: ShaderInput, i: nat)
    requires i >= |vs|
    ensures Fetch(Interleave(vs), Layout()[input], i) == None
  {
  }

  // ---------------------------------------------------------------------
  // Transform selection

  /** The per-component mix t * b + (1 - t) * a. */
  function Mix(a: Vec3, b: Vec3, t: real): Vec3
  {
    Vec3(t * b.x + (1.0 - t) * a.x, t * b.y + (1.0 - t) * a.y, t * b.z + (1.0 - t) * a.z)
  }

  /** The interpolated Euler angles start at the first rotation and end at the second. */
  lemma MixEndpoints(a: Vec3, b: Vec3)
    ensures Mix(a, b, 0.0) == a && Mix(a, b, 1.0) == b
  {
  }

  /** The controls RenderScene reads to build the model transform. */
  datatype Controls = Controls(
    mode: int,
    rot1: Vec3, rot2: Vec3,
    quat1Angle: real, quat1Axis: Vec3,
    quat2Angle: real, quat2Axis: Vec3,
    linear: bool)

  /** The model transform for the selected mode at time t. */
  function TransformFor(c: Controls, t: real): Transform
  {
    if c.mode == 0 then Euler(c.rot1)
    else if c.mode == 1 then FromQuat(AngleAxis(c.quat1Angle, c.quat1Axis))
    else if c.mode == 2 then Euler(Mix(c.rot1, c.rot2, t))
    else if c.mode == 3 then
      var q1 := AngleAxis(c.quat1Angle, c.quat1Axis);
      var q2 := AngleAxis(c.quat2Angle, c.quat2Axis);
      FromQuat(if c.linear then Lerp(t, q1, q2) else Slerp(t, q1, q2))
    else Identity
  }

  /**
   * Each of the modes 0 to 3 selects its own kind of transform, and every
   * other mode leaves the identity; the interpolating modes run from the
   * first rotation at t = 0 towards the second.
   */
  lemma ModeDispatch(c: Controls, t: real)
    ensures TransformFor(c, t) == Identity <==> !(0 <= c.mode <= 3)
    ensures c.mode == 0 || c.mode == 2 <==> TransformFor(c, t).Euler?
    ensures c.mode == 1 || c.mode == 3 <==> TransformFor(c, t).FromQuat?
    ensures c.mode == 2 && t == 0.0 ==> TransformFor(c, t) == TransformFor(c.(mode := 0), t)
    ensures c.mode == 3 ==> TransformFor(c, t).q.from == AngleAxis(c.quat1Angle, c.quat1Axis)
  {
    if c.mode == 2 {
      MixEndpoints(c.rot1, c.rot2);
    }
  }

  /** The fractional part std::fmod(x, 1.0): the sign of x, magnitude below 1. */
  function FMod1(x: real): real
  {
    if x >= 0.0 then x - x.Floor as real else x + (-x).Floor as real
  }

  /** The animation time derived from the clock lies in [0, 1) and repeats every 3 seconds. */
  lemma AnimationTimeInRange(clock: real)
    requires clock >= 0.0
    ensures 0.0 <= FMod1(clock / 3.0) < 1.0
    ensures FMod1((clock + 3.0) / 3.0) == FMod1(clock / 3.0)
  {
    assert (clock + 3.0) / 3.0 == clock / 3.0 + 1.0;
    assert (clock / 3.0 + 1.0).Floor == (clock / 3.0).Floor + 1;
  }

  // ---------------------------------------------------------------------
  // The window

  class MainWindow {
    /** m_nbVertices. */
    var nbVertices: nat
    /** The array buffer: the glBufferData size argument and the floats uploaded. */
    var bufferSize: int
    var bufferData: seq<real>
    /** The attribute arrays of the VAO and the ones enabled in it. */
    var attribs: map<ShaderInput, AttribPointer>
    var enabled: set<ShaderInput>
    var depthTest: bool
    /** The ImGui controls and the animation state. */
    var controls: Controls
    var time: real
    var animate: bool
    /** The GL commands issued so far. */
    var commands: seq<Command>

    /** A window whose buffer holds nbVertices records set up for both attribute arrays. */
    predicate Ready()
      reads this
    {
      |bufferData| == FloatsPerVertex * nbVertices && bufferSize == FloatBytes * |bufferData| && attribs == Layout()
    }

    constructor ()
      ensures nbVertices == 0 && bufferData == [] && attribs == map[] && enabled == {} && !depthTest
      ensures commands == [] && controls.mode == 0 && time == 0.0 && !animate
    {
      nbVertices := 0;
      bufferSize := 0;
      bufferData := [];
      attribs := map[];
      enabled := {};
      depthTest := false;
      controls := Controls(0, Vec3(0.0, 0.0, 0.0), Vec3(0.0, 0.0, 0.0), 0.0, Vec3(0.0, 0.0, 1.0), 0.0, Vec3(0.0, 0.0, 1.0), false);
      time := 0.0;
      animate := false;
      commands := [];
    }

    /**
     * InitializeGL: 4 when the main shader fails, 5 when the OBJ file does
     * not load, both before any buffer work; otherwise the first mesh is
     * packed, uploaded and laid out, depth testing is enabled and 0 returned.
     */
    method InitializeGL(mainShaderOk: bool, objLoaded: bool, meshes: seq<Mesh>) returns (status: int)
      requires mainShaderOk && objLoaded ==> |meshes| > 0
      modifies this`nbVertices, this`bufferSize, this`bufferData, this`attribs, this`enabled, this`depthTest
      ensures status == (if !mainShaderOk then 4 else if !objLoaded then 5 else 0)
      ensures status != 0 ==> unchanged(this`nbVertices, this`bufferSize, this`bufferData, this`attribs, this`enabled, this`depthTest)
      ensures status == 0 ==>
        (Ready() && nbVertices == |meshes[0].vertices| && bufferData == Interleave(meshes[0].vertices)
         && enabled == {VPosition, VNormal} && depthTest)
    {
      if !mainShaderOk {
        return 4;
      }
      if !objLoaded {
        return 5;
      }
      var m := meshes[0];
      var vertices := PackVertices(m);
      attribs, enabled := map[], {};           // glGenVertexArrays: a fresh VAO
      bufferSize := FloatBytes * |vertices|;
      bufferData := vertices;
      attribs := attribs[VPosition := AttribPointer(FloatBytes * 6, 0)];
      enabled := enabled + {VPosition};
      attribs := attribs[VNormal := AttribPointer(FloatBytes * 6, 3 * FloatBytes)];
      enabled := enabled + {VNormal};
      depthTest := true;
      return 0;
    }

    /** The packing loop of InitializeGL: six floats per vertex, counting vertices in m_nbVertices. */
    method PackVertices(m: Mesh) returns (vertices: seq<real>)
      modifies this`nbVertices
      ensures vertices == Interleave(m.vertices)
      ensures nbVertices == |m.vertices| && |vertices| == FloatsPerVertex * nbVertices
    {
      vertices := [];
      nbVertices := 0;
      for i := 0 to |m.vertices|
        invariant vertices == Interleave(m.vertices[..i])
        invariant nbVertices == i
      {
        var v := m.vertices[i];
        var p := Placed(v.position);
        vertices := vertices + [p.x, p.y, p.z];
        vertices := vertices + [v.normal.x, v.normal.y, v.normal.z];
        nbVertices := nbVertices + 1;
        InterleaveSnoc(m.vertices[..i], v);
        assert m.vertices[..i + 1] == m.vertices[..i] + [v];
      }
      assert m.vertices[..|m.vertices|] == m.vertices;
    }

    /**
     * RenderScene: when animating, the time becomes the clock over 3
     * seconds modulo 1; then the transform of the selected mode is set and
     * all nbVertices packed vertices are drawn.
     */
    method RenderScene(clock: real)
      modifies this`time, this`commands
      ensures time == if animate then FMod1(clock / 3.0) else old(time)
      ensures commands == old(commands)
        + [Clear, BindVertexArray, UseProgram, SetModel(TransformFor(controls, time)), DrawTriangles(0, nbVertices), Flush]
    {
      commands := commands + [Clear, BindVertexArray, UseProgram];
      if animate {
        var t := clock / 3.0;
        t := FMod1(t);
        time := t;
      }
      var m := TransformFor(controls, time);
      commands := commands + [SetModel(m), DrawTriangles(0, nbVertices), Flush];
    }
  }

  /**
   * After a successful InitializeGL, every vertex the frame's draw covers
   * is fetched by both attribute arrays from inside the uploaded buffer.
   */
  lemma DrawReadsPackedVertices(data: seq<real>, vs: seq<Vertex>, i: nat)
    requires data == Interleave(vs) && i < |vs|
    ensures Fetch(data, Layout()[VPosition], i).Some? && Fetch(data, Layout()[VNormal], i).Some?
  {
    LayoutMatchesRecords(vs, i);
  }
}
