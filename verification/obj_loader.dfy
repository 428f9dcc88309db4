/**
 * The OBJ viewer window (Lab_2_ObjLoader): one GL record per non-empty mesh
 * of the loaded model, each drawn every frame and released at shutdown.
 *
 * The OBJ parser is not part of this model: the meshes and materials it
 * returns are parameters.  Float data is only copied, so it is kept as
 * reals.  GL object names come from counters: glGenVertexArrays and
 * glGenBuffers are taken to hand out names never handed out before.
 */
module ObjLoader {
  import opened CInt

  /** sizeof(OBJLoader::Vertex) and sizeof(OBJLoader::Vertex::position), taken as float[3] + float[3]. */
  const VertexBytes := 24
  const PositionBytes := 12
  /** Bytes one attribute reads per vertex: 3 floats. */
  const AttribBytes := 12

  datatype Vec3 = Vec3(x: real, y: real, z: real)
  datatype Vertex = Vertex(position: Vec3, normal: Vec3)
  datatype Material = Material(kd: Vec3, ks: Vec3, kn: real)
  datatype Mesh = Mesh(vertices: seq<Vertex>, materialID: nat)

  /** The record m_meshesGL keeps for one drawn mesh. */
  datatype MeshGL = MeshGL(vao: nat, vbo: nat, numVertices: nat,
                           diffuse: Vec3, specular: Vec3, specularExponent: real)

  datatype ShaderInput = VPosition | VNormal

  /** glVertexAttribPointer: 3 floats read from `buffer` at `offset`, then every `stride` bytes. */
  datatype AttribPointer = AttribPointer(buffer: nat, stride: int, offset: int)

  /** A buffer object: the size argument of glBufferData and the vertices copied into it. */
  datatype BufferStore = BufferStore(size: Int32, data: seq<Vertex>)

  /** The GL commands the window issues while drawing and releasing, as far as the model follows them. */
  datatype Command =
    | EnableDepthTest
    | Clear
    | UseProgram
    | SetMaterial(kd: Vec3, ks: Vec3, kn: real)   // the Kd, Ks and Kn uniforms
    | BindVertexArray(vao: nat)
    | DrawTriangles(first: int, count: int)       // glDrawArrays(GL_TRIANGLES, first, count)
    | DeleteVertexArray(vao: nat)
    | DeleteBuffer(vbo: nat)

  // ---------------------------------------------------------------------
  // Which meshes are kept

  /** The meshes loadObjFile turns into records: the non-empty ones, in their order. */
  function NonEmpty(meshes: seq<Mesh>): (kept: seq<Mesh>)
    ensures |kept| <= |meshes|
    ensures forall j :: 0 <= j < |kept| ==> |kept[j].vertices| > 0 && kept[j] in meshes
  {
    if meshes == [] then []
    else
      var last := meshes[|meshes| - 1];
      NonEmpty(meshes[..|meshes| - 1]) + (if |last.vertices| == 0 then [] else [last])
  }

  /** A single mesh is kept exactly when it has vertices. */
  lemma NonEmptySingle(m: Mesh)
    ensures NonEmpty([m]) == if |m.vertices| == 0 then [] else [m]
  {
    assert [m][..0] == [];
  }

  /** Filtering a concatenation filters each part, in order: no mesh is moved, duplicated or merged. */
  lemma {:induction false} NonEmptyAppend(a: seq<Mesh>, b: seq<Mesh>)
    ensures NonEmpty(a + b) == NonEmpty(a) + NonEmpty(b)
  {
    if b == [] {
      assert a + b == a;
    } else {
      var last := b[|b| - 1];
      assert (a + b)[..|a + b| - 1] == a + b[..|b| - 1];
      NonEmptyAppend(a, b[..|b| - 1]);
    }
  }

  /** Nothing is dropped exactly when no mesh is empty. */
  lemma NonEmptyKeepsAll(meshes: seq<Mesh>)
    ensures NonEmpty(meshes) == meshes <==> forall i :: 0 <= i < |meshes| ==> |meshes[i].vertices| > 0
  {
    if forall i :: 0 <= i < |meshes| ==> |meshes[i].vertices| > 0 {
      KeepsAll(meshes);
    }
  }

  lemma {:induction false} KeepsAll(meshes: seq<Mesh>)
    requires forall i :: 0 <= i < |meshes| ==> |meshes[i].vertices| > 0
    ensures NonEmpty(meshes) == meshes
  {
    if meshes != [] {
      var init := meshes[..|meshes| - 1];
      KeepsAll(init);
      assert meshes == init + [meshes[|meshes| - 1]];
    }
  }

  /** Everything is dropped exactly when every mesh is empty. */
  lemma {:induction false} NonEmptyDropsAll(meshes: seq<Mesh>)
    ensures NonEmpty(meshes) == [] <==> forall i :: 0 <= i < |meshes| ==> |meshes[i].vertices| == 0
  {
    if meshes != [] {
      var init := meshes[..|meshes| - 1];
      NonEmptyDropsAll(init);
      assert forall i :: 0 <= i < |init| ==> init[i] == meshes[i];
    }
  }

  // ---------------------------------------------------------------------
  // Records, buffers and attribute layout

  /** Every kept mesh names a material that exists (the code indexes materials without a check). */
  predicate MaterialsResolve(meshes: seq<Mesh>, materials: seq<Material>)
  {
    forall i :: 0 <= i < |meshes| && |meshes[i].vertices| > 0 ==> meshes[i].materialID < |materials|
  }

  /** Every mesh of a sequence names an existing material. */
  predicate IdsResolve(ms: seq<Mesh>, materials: seq<Material>)
  {
    forall j :: 0 <= j < |ms| ==> ms[j].materialID < |materials|
  }

  /** The record built for a mesh with VAO name `vao` and buffer name `vbo`. */
  function MeshRecord(mesh: Mesh, materials: seq<Material>, vao: nat, vbo: nat): MeshGL
    requires mesh.materialID < |materials|
  {
    var material := materials[mesh.materialID];
    MeshGL(vao, vbo, |mesh.vertices|, material.kd, material.ks, material.kn)
  }

  /** The records for `kept`, the j-th one with names firstVao + j and firstVbo + j. */
  function Records(kept: seq<Mesh>, materials: seq<Material>, firstVao: nat, firstVbo: nat): seq<MeshGL>
    requires IdsResolve(kept, materials)
  {
    seq(|kept|, j requires 0 <= j < |kept| => MeshRecord(kept[j], materials, firstVao + j, firstVbo + j))
  }

  lemma RecordsSnoc(kept: seq<Mesh>, m: Mesh, materials: seq<Material>, firstVao: nat, firstVbo: nat)
    requires IdsResolve(kept, materials)
    requires m.materialID < |materials|
    ensures IdsResolve(kept + [m], materials)
    ensures Records(kept + [m], materials, firstVao, firstVbo)
      == Records(kept, materials, firstVao, firstVbo) + [MeshRecord(m, materials, firstVao + |kept|, firstVbo + |kept|)]
  {
  }

  /**
   * Each record loadObjFile builds stands for one non-empty source mesh: its
   * vertex count is that mesh's, and its material fields are copied from
   * the mesh's material unchanged.
   */
  lemma RecordsCopyMeshes(meshes: seq<Mesh>, materials: seq<Material>, firstVao: nat, firstVbo: nat, j: nat)
    requires MaterialsResolve(meshes, materials)
    requires j < |NonEmpty(meshes)|
    ensures IdsResolve(NonEmpty(meshes), materials)
    ensures var r := Records(NonEmpty(meshes), materials, firstVao, firstVbo)[j];
      exists i :: 0 <= i < |meshes| && meshes[i] == NonEmpty(meshes)[j]
        && r.numVertices == |meshes[i].vertices| > 0
        && r.diffuse == materials[meshes[i].materialID].kd
        && r.specular == materials[meshes[i].materialID].ks
        && r.specularExponent == materials[meshes[i].materialID].kn
  {
    var kept := NonEmpty(meshes);
    forall k | 0 <= k < |kept|
      ensures kept[k].materialID < |materials|
    {
      var i :| 0 <= i < |meshes| && meshes[i] == kept[k];
    }
    var i :| 0 <= i < |meshes| && meshes[i] == kept[j];
  }

  /** The attribute arrays of a mesh VAO: positions at 0 and normals after them, one Vertex apart. */
  function MeshAttribs(vbo: nat): map<ShaderInput, AttribPointer>
  {
    map[VPosition := AttribPointer(vbo, VertexBytes, 0), VNormal := AttribPointer(vbo, VertexBytes, PositionBytes)]
  }

  /** Buffer firstVbo + j holds the vertices of kept[j], for every j. */
  predicate Uploaded(buffers: map<nat, BufferStore>, firstVbo: nat, kept: seq<Mesh>)
  {
    forall j :: 0 <= j < |kept| ==> firstVbo + j in buffers && buffers[firstVbo + j].data == kept[j].vertices
  }

  /** The VAOs loadObjFile creates for `kept`: name firstVao + j with the attribute arrays of buffer firstVbo + j. */
  function NewVaos(kept: seq<Mesh>, firstVao: nat, firstVbo: nat): map<nat, map<ShaderInput, AttribPointer>>
  {
    if kept == [] then map[]
    else
      var n := |kept| - 1;
      NewVaos(kept[..n], firstVao, firstVbo)[firstVao + n := MeshAttribs(firstVbo + n)]
  }

  /** The buffers loadObjFile creates for `kept`: name firstVbo + j holding the vertices of kept[j]. */
  function NewBuffers(kept: seq<Mesh>, firstVbo: nat): map<nat, BufferStore>
  {
    if kept == [] then map[]
    else
      var n := |kept| - 1;
      NewBuffers(kept[..n], firstVbo)[firstVbo + n := BufferStore(UploadSize(|kept[n].vertices|), kept[n].vertices)]
  }

  /** The new VAOs are exactly the names firstVao .. firstVao + |kept| - 1, the j-th reading buffer firstVbo + j. */
  lemma {:induction false} NewVaosAt(kept: seq<Mesh>, firstVao: nat, firstVbo: nat)
    ensures forall v :: v in NewVaos(kept, firstVao, firstVbo) <==> firstVao <= v < firstVao + |kept|
    ensures forall v :: v in NewVaos(kept, firstVao, firstVbo) ==>
      NewVaos(kept, firstVao, firstVbo)[v] == MeshAttribs(firstVbo + (v - firstVao))
  {
    if kept != [] {
      NewVaosAt(kept[..|kept| - 1], firstVao, firstVbo);
    }
  }

  /** The new buffers are exactly the names firstVbo .. firstVbo + |kept| - 1, the j-th holding kept[j]'s vertices. */
  lemma {:induction false} NewBuffersAt(kept: seq<Mesh>, firstVbo: nat)
    ensures forall b :: b in NewBuffers(kept, firstVbo) <==> firstVbo <= b < firstVbo + |kept|
    ensures forall b :: b in NewBuffers(kept, firstVbo) ==>
      NewBuffers(kept, firstVbo)[b] == BufferStore(UploadSize(|kept[b - firstVbo].vertices|), kept[b - firstVbo].vertices)
  {
    if kept != [] {
      var init := kept[..|kept| - 1];
      NewBuffersAt(init, firstVbo);
      assert forall j :: 0 <= j < |init| ==> init[j] == kept[j];
    }
  }

  /** After a load, the buffer named firstVbo + j holds the vertices of kept[j], whatever buffers there were before. */
  lemma NewBuffersUploaded(buffers: map<nat, BufferStore>, kept: seq<Mesh>, firstVbo: nat)
    ensures Uploaded(buffers + NewBuffers(kept, firstVbo), firstVbo, kept)
  {
    NewBuffersAt(kept, firstVbo);
    var after := buffers + NewBuffers(kept, firstVbo);
    forall j | 0 <= j < |kept|
      ensures firstVbo + j in after && after[firstVbo + j].data == kept[j].vertices
    {
      assert firstVbo + j in NewBuffers(kept, firstVbo);
    }
  }

  lemma NewObjectsSnoc(kept: seq<Mesh>, m: Mesh, firstVao: nat, firstVbo: nat,
                       vaos: map<nat, map<ShaderInput, AttribPointer>>, buffers: map<nat, BufferStore>)
    ensures (vaos + NewVaos(kept, firstVao, firstVbo))[firstVao + |kept| := MeshAttribs(firstVbo + |kept|)]
      == vaos + NewVaos(kept + [m], firstVao, firstVbo)
    ensures (buffers + NewBuffers(kept, firstVbo))[firstVbo + |kept| := BufferStore(UploadSize(|m.vertices|), m.vertices)]
      == buffers + NewBuffers(kept + [m], firstVbo)
  {
    assert (kept + [m])[..|kept|] == kept;
  }

  /**
   * The objects a load creates are exactly those of its records; loading
   * under fresh names keeps every existing object as it was, and deleting the loaded records' names afterwards gives back exactly the
   * objects there were before the load.
   */
  lemma {:induction false} LoadThenRelease(kept: seq<Mesh>, materials: seq<Material>, firstVao: nat, firstVbo: nat,
                                           vaos: map<nat, map<ShaderInput, AttribPointer>>, buffers: map<nat, BufferStore>)
    requires IdsResolve(kept, materials)
    requires forall v :: v in vaos ==> v < firstVao
    requires forall b :: b in buffers ==> b < firstVbo
    ensures NewVaos(kept, firstVao, firstVbo).Keys == VaoNames(Records(kept, materials, firstVao, firstVbo), |kept|)
    ensures NewBuffers(kept, firstVbo).Keys == VboNames(Records(kept, materials, firstVao, firstVbo), |kept|)
    ensures forall v :: v in vaos ==> (vaos + NewVaos(kept, firstVao, firstVbo))[v] == vaos[v]
    ensures forall b :: b in buffers ==> (buffers + NewBuffers(kept, firstVbo))[b] == buffers[b]
    ensures (vaos + NewVaos(kept, firstVao, firstVbo)) - VaoNames(Records(kept, materials, firstVao, firstVbo), |kept|) == vaos
    ensures (buffers + NewBuffers(kept, firstVbo)) - VboNames(Records(kept, materials, firstVao, firstVbo), |kept|) == buffers
  {
    var rs := Records(kept, materials, firstVao, firstVbo);
    NewVaosAt(kept, firstVao, firstVbo);
    NewBuffersAt(kept, firstVbo);
    assert VaoNames(rs, |kept|) == NewVaos(kept, firstVao, firstVbo).Keys by {
      forall v | v in NewVaos(kept, firstVao, firstVbo)
        ensures v in VaoNames(rs, |kept|)
      {
        assert rs[v - firstVao].vao == v;
      }
    }
    assert VboNames(rs, |kept|) == NewBuffers(kept, firstVbo).Keys by {
      forall b | b in NewBuffers(kept, firstVbo)
        ensures b in VboNames(rs, |kept|)
      {
        assert rs[b - firstVbo].vbo == b;
      }
    }
  }

  /** The size argument of glBufferData: vertex count times sizeof(Vertex), narrowed to GLsizei. */
  function UploadSize(numVertices: nat): Int32
  {
    NarrowToInt32(numVertices * VertexBytes)
  }

  /** A record whose GL objects are live and set up as loadObjFile leaves them. */
  predicate RecordValid(r: MeshGL, nextVao: nat, nextVbo: nat,
                        vaos: map<nat, map<ShaderInput, AttribPointer>>, buffers: map<nat, BufferStore>)
  {
    0 < r.vao < nextVao && 0 < r.vbo < nextVbo && r.numVertices > 0
    && r.vao in vaos && vaos[r.vao] == MeshAttribs(r.vbo)
    && r.vbo in buffers && buffers[r.vbo].size == UploadSize(r.numVertices)
    && |buffers[r.vbo].data| == r.numVertices
  }

  /**
   * For a mesh whose byte size fits a GLsizei, both attributes of every
   * vertex k < numVertices are read inside vertex k's 24-byte record and
   * inside the uploaded storage.
   */
  lemma AttribReadsInBounds(r: MeshGL, nextVao: nat, nextVbo: nat,
                            vaos: map<nat, map<ShaderInput, AttribPointer>>, buffers: map<nat, BufferStore>,
                            input: ShaderInput, k: nat)
    requires RecordValid(r, nextVao, nextVbo, vaos, buffers)
    requires r.numVertices * VertexBytes < 0x8000_0000
    requires k < r.numVertices
    ensures input in vaos[r.vao] && vaos[r.vao][input].buffer == r.vbo
    ensures var p := vaos[r.vao][input];
      p.stride == VertexBytes && 0 <= p.offset && p.offset + AttribBytes <= p.stride
      && k * p.stride + p.offset + AttribBytes <= buffers[r.vbo].size
  {
    NarrowExact(r.numVertices * VertexBytes);
    assert (k + 1) * VertexBytes <= r.numVertices * VertexBytes;
  }

  /**
   * The window's invariant: the name counters are positive and above every
   * name handed out, every record's GL objects are live and set up, and no
   * two records share a name.
   */
  predicate Live(ms: seq<MeshGL>, nextVao: nat, nextVbo: nat,
                 vaos: map<nat, map<ShaderInput, AttribPointer>>, buffers: map<nat, BufferStore>)
  {
    nextVao > 0 && nextVbo > 0
    && (forall v :: v in vaos ==> v < nextVao)
    && (forall b :: b in buffers ==> b < nextVbo)
    && (forall j :: 0 <= j < |ms| ==> RecordValid(ms[j], nextVao, nextVbo, vaos, buffers))
    && DistinctNames(ms)
  }

  // ---------------------------------------------------------------------
  // Drawing and releasing

  /** What RenderScene issues for one mesh: its material, its VAO, and a draw of all its vertices. */
  function MeshCommands(m: MeshGL): seq<Command>
  {
    [SetMaterial(m.diffuse, m.specular, m.specularExponent), BindVertexArray(m.vao), DrawTriangles(0, m.numVertices)]
  }

  /** The commands for the first n records, three per record. */
  function MeshDraws(ms: seq<MeshGL>, n: nat): seq<Command>
    requires n <= |ms|
  {
    seq(3 * n, k requires 0 <= k < 3 * n => MeshCommands(ms[k / 3])[k % 3])
  }

  lemma MeshDrawsSnoc(ms: seq<MeshGL>, n: nat)
    requires n < |ms|
    ensures MeshDraws(ms, n + 1) == MeshDraws(ms, n) + MeshCommands(ms[n])
  {
    forall k | 0 <= k < 3 * n + 3
      ensures MeshDraws(ms, n + 1)[k] == (MeshDraws(ms, n) + MeshCommands(ms[n]))[k]
    {
      if k >= 3 * n {
        assert k / 3 == n && k % 3 == k - 3 * n;
      }
    }
  }

  /**
   * A frame draws every record once, in list order: record j's draw is the
   * only draw between its own VAO bind and the next record's material, and
   * covers the vertex range [0, numVertices).
   */
  lemma EveryMeshDrawnInOrder(ms: seq<MeshGL>)
    ensures |MeshDraws(ms, |ms|)| == 3 * |ms|
    ensures forall j :: 0 <= j < |ms| ==>
      MeshDraws(ms, |ms|)[3 * j] == SetMaterial(ms[j].diffuse, ms[j].specular, ms[j].specularExponent)
      && MeshDraws(ms, |ms|)[3 * j + 1] == BindVertexArray(ms[j].vao)
      && MeshDraws(ms, |ms|)[3 * j + 2] == DrawTriangles(0, ms[j].numVertices)
  {
    var d := MeshDraws(ms, |ms|);
    forall j | 0 <= j < |ms|
      ensures d[3 * j] == SetMaterial(ms[j].diffuse, ms[j].specular, ms[j].specularExponent)
      ensures d[3 * j + 1] == BindVertexArray(ms[j].vao)
      ensures d[3 * j + 2] == DrawTriangles(0, ms[j].numVertices)
    {
      assert (3 * j) / 3 == j && (3 * j) % 3 == 0;
      assert (3 * j + 1) / 3 == j && (3 * j + 1) % 3 == 1;
      assert (3 * j + 2) / 3 == j && (3 * j + 2) % 3 == 2;
    }
  }

  /** Every draw of a frame is the third command of one record's group and draws that record's whole range. */
  lemma DrawsAreWholeMeshes(ms: seq<MeshGL>)
    ensures forall k :: 0 <= k < |MeshDraws(ms, |ms|)| && MeshDraws(ms, |ms|)[k].DrawTriangles? ==>
      k % 3 == 2 && MeshDraws(ms, |ms|)[k] == DrawTriangles(0, ms[k / 3].numVertices)
  {
    var d := MeshDraws(ms, |ms|);
    forall k | 0 <= k < |d| && d[k].DrawTriangles?
      ensures k % 3 == 2 && d[k] == DrawTriangles(0, ms[k / 3].numVertices)
    {
      assert d[k] == MeshCommands(ms[k / 3])[k % 3];
    }
  }

  /** The deletions for the first n records: VAO then VBO of each. */
  function Deletions(ms: seq<MeshGL>, n: nat): seq<Command>
    requires n <= |ms|
  {
    seq(2 * n, k requires 0 <= k < 2 * n => if k % 2 == 0 then DeleteVertexArray(ms[k / 2].vao) else DeleteBuffer(ms[k / 2].vbo))
  }

  lemma DeletionsSnoc(ms: seq<MeshGL>, n: nat)
    requires n < |ms|
    ensures Deletions(ms, n + 1) == Deletions(ms, n) + [DeleteVertexArray(ms[n].vao), DeleteBuffer(ms[n].vbo)]
  {
    forall k | 0 <= k < 2 * n + 2
      ensures Deletions(ms, n + 1)[k] == (Deletions(ms, n) + [DeleteVertexArray(ms[n].vao), DeleteBuffer(ms[n].vbo)])[k]
    {
      if k >= 2 * n {
        assert k / 2 == n && k % 2 == k - 2 * n;
      }
    }
  }

  /** The VAO and buffer names of the first n records. */
  function VaoNames(ms: seq<MeshGL>, n: nat): set<nat>
    requires n <= |ms|
  {
    set j | 0 <= j < n :: ms[j].vao
  }

  function VboNames(ms: seq<MeshGL>, n: nat): set<nat>
    requires n <= |ms|
  {
    set j | 0 <= j < n :: ms[j].vbo
  }

  lemma NamesSnoc(ms: seq<MeshGL>, n: nat)
    requires n < |ms|
    ensures VaoNames(ms, n + 1) == VaoNames(ms, n) + {ms[n].vao}
    ensures VboNames(ms, n + 1) == VboNames(ms, n) + {ms[n].vbo}
  {
  }

  /** Pairwise distinct names: no two records share a VAO or a buffer. */
  predicate DistinctNames(ms: seq<MeshGL>)
  {
    forall j, k :: 0 <= j < k < |ms| ==> ms[j].vao != ms[k].vao && ms[j].vbo != ms[k].vbo
  }

  /**
   * With distinct names, the release loop deletes each record's VAO and
   * buffer exactly once: the only deletion of record j's VAO is at 2j and
   * the only deletion of its buffer at 2j + 1.
   */
  lemma EachNameDeletedOnce(ms: seq<MeshGL>)
    requires DistinctNames(ms)
    ensures forall j, k :: 0 <= j < |ms| && 0 <= k < 2 * |ms| ==>
      (Deletions(ms, |ms|)[k] == DeleteVertexArray(ms[j].vao) <==> k == 2 * j)
    ensures forall j, k :: 0 <= j < |ms| && 0 <= k < 2 * |ms| ==>
      (Deletions(ms, |ms|)[k] == DeleteBuffer(ms[j].vbo) <==> k == 2 * j + 1)
  {
    forall j, k | 0 <= j < |ms| && 0 <= k < 2 * |ms|
      ensures Deletions(ms, |ms|)[k] == DeleteVertexArray(ms[j].vao) <==> k == 2 * j
      ensures Deletions(ms, |ms|)[k] == DeleteBuffer(ms[j].vbo) <==> k == 2 * j + 1
    {
      assert (2 * j) / 2 == j && (2 * j) % 2 == 0 && (2 * j + 1) / 2 == j && (2 * j + 1) % 2 == 1;
      if k / 2 != j {
        assert ms[k / 2].vao != ms[j].vao && ms[k / 2].vbo != ms[j].vbo;
      }
    }
  }

  // ---------------------------------------------------------------------
  // The window

  class MainWindow {
    /** m_meshesGL. */
    var meshesGL: seq<MeshGL>
    /** The names the next glGenVertexArrays / glGenBuffers hand out. */
    var nextVao: nat
    var nextVbo: nat
    /** Live vertex array objects with their attribute arrays, and live buffer objects. */
    var vaos: map<nat, map<ShaderInput, AttribPointer>>
    var buffers: map<nat, BufferStore>
    /** The GL commands issued so far. */
    var commands: seq<Command>

    /** Every record's GL objects are live and set up, and no two records share a name. */
    predicate Valid()
      reads this
    {
      Live(meshesGL, nextVao, nextVbo, vaos, buffers)
    }

    constructor ()
      ensures Valid()
      ensures meshesGL == [] && vaos == map[] && buffers == map[] && commands == []
    {
      meshesGL := [];
      nextVao := 1;
      nextVbo := 1;
      vaos := map[];
      buffers := map[];
      commands := [];
    }

    /**
     * InitializeGL: depth testing is enabled first; a main shader that fails
     * to build gives 4, otherwise the OBJ meshes are loaded and 0 returned.
     */
    method InitializeGL(mainShaderOk: bool, meshes: seq<Mesh>, materials: seq<Material>) returns (status: int)
      requires Valid() && MaterialsResolve(meshes, materials)
      modifies this`meshesGL, this`nextVao, this`nextVbo, this`vaos, this`buffers, this`commands
      ensures Valid()
      ensures status == (if mainShaderOk then 0 else 4)
      ensures commands == old(commands) + [EnableDepthTest]
      ensures !mainShaderOk ==>
        meshesGL == old(meshesGL) && vaos == old(vaos) && buffers == old(buffers)
        && nextVao == old(nextVao) && nextVbo == old(nextVbo)
      ensures mainShaderOk ==> IdsResolve(NonEmpty(meshes), materials)
      ensures mainShaderOk ==>
        meshesGL == old(meshesGL) + Records(NonEmpty(meshes), materials, old(nextVao), old(nextVbo))
        && nextVao == old(nextVao) + |NonEmpty(meshes)| && nextVbo == old(nextVbo) + |NonEmpty(meshes)|
        && Uploaded(buffers, old(nextVbo), NonEmpty(meshes))
        && vaos == old(vaos) + NewVaos(NonEmpty(meshes), old(nextVao), old(nextVbo))
        && buffers == old(buffers) + NewBuffers(NonEmpty(meshes), old(nextVbo))
    {
      commands := commands + [EnableDepthTest];
      if !mainShaderOk {
        return 4;
      }
      LoadObjFile(meshes, materials);
      status := 0;
    }

    /**
     * loadObjFile: skips the meshes without vertices and appends one record
     * per remaining mesh, in order, with fresh VAO and buffer names, the
     * vertices uploaded and the attribute arrays set.
     */
    method LoadObjFile(meshes: seq<Mesh>, materials: seq<Material>)
      requires Valid() && MaterialsResolve(meshes, materials)
      modifies this`meshesGL, this`nextVao, this`nextVbo, this`vaos, this`buffers
      ensures Valid()
      ensures IdsResolve(NonEmpty(meshes), materials)
      ensures meshesGL == old(meshesGL) + Records(NonEmpty(meshes), materials, old(nextVao), old(nextVbo))
      ensures nextVao == old(nextVao) + |NonEmpty(meshes)| && nextVbo == old(nextVbo) + |NonEmpty(meshes)|
      ensures Uploaded(buffers, old(nextVbo), NonEmpty(meshes))
      ensures vaos == old(vaos) + NewVaos(NonEmpty(meshes), old(nextVao), old(nextVbo))
      ensures buffers == old(buffers) + NewBuffers(NonEmpty(meshes), old(nextVbo))
    {
      ghost var firstVao, firstVbo := nextVao, nextVbo;
      ghost var head, headVaos, headBuffers := meshesGL, vaos, buffers;
      ghost var kept: seq<Mesh> := [];
      assert vaos + NewVaos([], firstVao, firstVbo) == vaos;
      assert buffers + NewBuffers([], firstVbo) == buffers;
      for i := 0 to |meshes|
        invariant kept == NonEmpty(meshes[..i])
        invariant LoadedSoFar(kept, materials, head, headVaos, headBuffers, firstVao, firstVbo)
      {
        assert meshes[..i + 1] == meshes[..i] + [meshes[i]];
        NonEmptyAppend(meshes[..i], [meshes[i]]);
        LoadMesh(meshes[i], materials, kept, head, headVaos, headBuffers, firstVao, firstVbo);
        kept := kept + NonEmpty([meshes[i]]);
      }
      assert meshes[..|meshes|] == meshes;
      NewBuffersUploaded(headBuffers, kept, firstVbo);
    }

    /**
     * After loading `kept`: the window is valid and its records are the
     * ones for `kept` behind `head`, with the names handed out from
     * firstVao and firstVbo on, and the objects there were before
     * (headVaos, headBuffers) joined only by the new ones.
     */
    ghost predicate LoadedSoFar(kept: seq<Mesh>, materials: seq<Material>, head: seq<MeshGL>,
                                headVaos: map<nat, map<ShaderInput, AttribPointer>>, headBuffers: map<nat, BufferStore>,
                                firstVao: nat, firstVbo: nat)
      reads this
    {
      Valid() && IdsResolve(kept, materials)
      && meshesGL == head + Records(kept, materials, firstVao, firstVbo)
      && nextVao == firstVao + |kept| && nextVbo == firstVbo + |kept|
      && vaos == headVaos + NewVaos(kept, firstVao, firstVbo)
      && buffers == headBuffers + NewBuffers(kept, firstVbo)
    }

    /** One iteration of loadObjFile's loop: a mesh without vertices is skipped (the `continue`). */
    method LoadMesh(mesh: Mesh, materials: seq<Material>,
                    ghost kept: seq<Mesh>, ghost head: seq<MeshGL>,
                    ghost headVaos: map<nat, map<ShaderInput, AttribPointer>>, ghost headBuffers: map<nat, BufferStore>,
                    ghost firstVao: nat, ghost firstVbo: nat)
      requires LoadedSoFar(kept, materials, head, headVaos, headBuffers, firstVao, firstVbo)
      requires |mesh.vertices| > 0 ==> mesh.materialID < |materials|
      modifies this`meshesGL, this`nextVao, this`nextVbo, this`vaos, this`buffers
      ensures LoadedSoFar(kept + NonEmpty([mesh]), materials, head, headVaos, headBuffers, firstVao, firstVbo)
    {
      NonEmptySingle(mesh);
      if |mesh.vertices| == 0 {
        assert kept + NonEmpty([mesh]) == kept;
        return;
      }
      assert kept + NonEmpty([mesh]) == kept + [mesh];
      CreateMeshGL(mesh, materials);
      assert meshesGL == head + Records(kept + [mesh], materials, firstVao, firstVbo) by {
        RecordsSnoc(kept, mesh, materials, firstVao, firstVbo);
      }
      assert vaos == headVaos + NewVaos(kept + [mesh], firstVao, firstVbo)
          && buffers == headBuffers + NewBuffers(kept + [mesh], firstVbo) by {
        NewObjectsSnoc(kept, mesh, firstVao, firstVbo, headVaos, headBuffers);
      }
    }

    /** The body of loadObjFile's loop for one non-empty mesh. */
    method CreateMeshGL(mesh: Mesh, materials: seq<Material>)
      requires Valid() && |mesh.vertices| > 0 && mesh.materialID < |materials|
      modifies this`meshesGL, this`nextVao, this`nextVbo, this`vaos, this`buffers
      ensures Valid()
      ensures meshesGL == old(meshesGL) + [MeshRecord(mesh, materials, old(nextVao), old(nextVbo))]
      ensures nextVao == old(nextVao) + 1 && nextVbo == old(nextVbo) + 1
      ensures vaos == old(vaos)[old(nextVao) := MeshAttribs(old(nextVbo))]
      ensures buffers == old(buffers)[old(nextVbo) := BufferStore(UploadSize(|mesh.vertices|), mesh.vertices)]
    {
      var material := materials[mesh.materialID];
      var vao := nextVao;                       // glGenVertexArrays
      nextVao := nextVao + 1;
      var vbo := nextVbo;                       // glGenBuffers
      nextVbo := nextVbo + 1;
      var meshGL := MeshGL(vao, vbo, |mesh.vertices|, material.kd, material.ks, material.kn);

      var dataSize := UploadSize(|mesh.vertices|);
      var stride := VertexBytes;
      var positionOffset := 0;
      var normalOffset := PositionBytes;
      buffers := buffers[vbo := BufferStore(dataSize, mesh.vertices)];

      var attribs := map[VPosition := AttribPointer(vbo, stride, positionOffset)];
      attribs := attribs[VNormal := AttribPointer(vbo, stride, normalOffset)];
      vaos := vaos[vao := attribs];

      meshesGL := meshesGL + [meshGL];
      AppendKeepsValid(old(meshesGL), meshGL, old(nextVao), old(nextVbo), old(vaos), old(buffers), mesh.vertices);
    }

    /** RenderScene: clear, bind the shader, then draw every record in list order. */
    method RenderScene()
      modifies this`commands
      ensures commands == old(commands) + [Clear, UseProgram] + MeshDraws(meshesGL, |meshesGL|)
    {
      commands := commands + [Clear, UseProgram];
      ghost var head := commands;
      for j := 0 to |meshesGL|
        invariant commands == head + MeshDraws(meshesGL, j)
      {
        var m := meshesGL[j];
        commands := commands + [SetMaterial(m.diffuse, m.specular, m.specularExponent)];
        commands := commands + [BindVertexArray(m.vao)];
        commands := commands + [DrawTriangles(0, m.numVertices)];
        MeshDrawsSnoc(meshesGL, j);
      }
    }

    /**
     * The release at the end of RenderLoop: the VAO and buffer of every
     * record are deleted, then the list is cleared.
     */
    method ReleaseMeshes()
      requires Valid()
      modifies this`meshesGL, this`vaos, this`buffers, this`commands
      ensures Valid()
      ensures meshesGL == []
      ensures commands == old(commands) + Deletions(old(meshesGL), |old(meshesGL)|)
      ensures vaos == old(vaos) - VaoNames(old(meshesGL), |old(meshesGL)|)
      ensures buffers == old(buffers) - VboNames(old(meshesGL), |old(meshesGL)|)
    {
      ghost var head := commands;
      var ms := meshesGL;
      for j := 0 to |ms|
        invariant commands == head + Deletions(ms, j)
        invariant vaos == old(vaos) - VaoNames(ms, j)
        invariant buffers == old(buffers) - VboNames(ms, j)
      {
        DeleteMesh(ms[j]);
        DeletionsSnoc(ms, j);
        NamesSnoc(ms, j);
      }
      meshesGL := [];
    }

    /** glDeleteVertexArrays and glDeleteBuffers for one record. */
    method DeleteMesh(m: MeshGL)
      modifies this`vaos, this`buffers, this`commands
      ensures commands == old(commands) + [DeleteVertexArray(m.vao), DeleteBuffer(m.vbo)]
      ensures vaos == old(vaos) - {m.vao} && buffers == old(buffers) - {m.vbo}
    {
      commands := commands + [DeleteVertexArray(m.vao)];
      vaos := vaos - {m.vao};
      commands := commands + [DeleteBuffer(m.vbo)];
      buffers := buffers - {m.vbo};
    }
  }

  /** Appending a record with the next fresh names, set up as CreateMeshGL does, keeps the window valid. */
  lemma AppendKeepsValid(ms: seq<MeshGL>, r: MeshGL, nextVao: nat, nextVbo: nat,
                         vaos: map<nat, map<ShaderInput, AttribPointer>>, buffers: map<nat, BufferStore>,
                         data: seq<Vertex>)
    requires Live(ms, nextVao, nextVbo, vaos, buffers)
    requires r.vao == nextVao && r.vbo == nextVbo && r.numVertices == |data| > 0
    ensures Live(ms + [r], nextVao + 1, nextVbo + 1, vaos[nextVao := MeshAttribs(nextVbo)],
                 buffers[nextVbo := BufferStore(UploadSize(|data|), data)])
  {
  }
}
