/**
 * The colour-ID picking window (Lab_2_Picking).
 *
 * Ten spirals are drawn around a circle.  A shift-left-click runs a hidden
 * identification pass: the background is cleared to white, spiral i is drawn
 * in the flat colour that encodes i, and while drawing, a table from colour
 * key to spiral index is built.  The pixel under the cursor is then read
 * back, decoded to a key and looked up; the result (or -1) becomes the
 * selected spiral, which the visible pass draws with a highlighted VAO.
 *
 * GL calls are recorded as a trace of commands.  Rasterisation and the depth
 * test are an oracle `frontMost` that names, per pixel, the front-most spiral
 * covering it, if any.  Float vertex data is symbolic: an entry only says
 * which client array, which step of the generating loop and which ring it
 * came from.
 */
module Picking {
  import opened Wrappers
  import opened CInt
  import opened ColorCodec
  import opened GlBuffer

  // ---------------------------------------------------------------------
  // Constants

  const NbStepsSpiral := 100
  /** NbStepsSpiral * 2: an inner and an outer vertex per step. */
  const NbVerticesSpiral := 200
  const NbSpirals := 10

  /** Values of GLFW_MOUSE_BUTTON_LEFT, GLFW_PRESS and GLFW_MOD_SHIFT in GLFW's public header. */
  const GlfwMouseButtonLeft := 0
  const GlfwPress := 1
  const GlfwModShift := 0x0001

  /** Initial window size (m_windowWidth, m_windowHeight). */
  const DefaultWidth := 1200
  const DefaultHeight := 800

  /** sizeof(GLfloat), the size of one xyz entry, and sizeof of one NbVerticesSpiral x 3 array. */
  const FloatBytes := 4
  const Vec3Bytes := 12             // 3 * FloatBytes
  const ArrayBytes := 2400          // NbVerticesSpiral * Vec3Bytes

  type SpiralIndex = i: int | 0 <= i < NbSpirals

  // ---------------------------------------------------------------------
  // Integer conversions of the C++ code

  /**
   * The row handed to glReadPixels: `m_windowHeight - 1 - y`, computed in
   * unsigned arithmetic because m_windowHeight is unsigned, then passed as GLint.
   */
  function ReadRow(height: Uint32, y: Int32): Int32
  {
    NarrowToInt32(height - 1 - y)
  }

  /** The two wrap-arounds cancel: the row is the exact flip whenever that fits a GLint. */
  lemma ReadRowExact(height: Uint32, y: Int32)
    requires -0x8000_0000 <= height - 1 - y < 0x8000_0000
    ensures ReadRow(height, y) == height - 1 - y
  {
    NarrowExact(height - 1 - y);
  }

  /**
   * For a window at most 2^31 rows high, the row read is inside the
   * framebuffer exactly when the cursor row is, and it is then the flip of y.
   */
  lemma ReadRowInside(height: Uint32, y: Int32)
    requires height <= 0x8000_0000
    ensures 0 <= ReadRow(height, y) < height <==> 0 <= y < height
    ensures 0 <= y < height ==> ReadRow(height, y) == height - 1 - y
  {
    if y <= height - 1 - 0x8000_0000 {
      assert 0x8000_0000 <= height - 1 - y < 0x1_0000_0000;
      assert ReadRow(height, y) < 0;
    } else {
      ReadRowExact(height, y);
    }
  }

  // ---------------------------------------------------------------------
  // VAO and buffer names

  /** VAO_IDs; their position in the enumeration indexes m_VAOs[NumVAOs]. */
  datatype VaoId = VaoSpiral | VaoSpiralSelected | VaoSpiralPicking | VaoRay
  {
    function Index(): (k: nat)
      ensures k < NumVAOs
    {
      match this
      case VaoSpiral => 0
      case VaoSpiralSelected => 1
      case VaoSpiralPicking => 2
      case VaoRay => 3
    }
  }
  const NumVAOs := 4

  /** Buffer_IDs; their position indexes m_buffers[NumBuffers]. */
  datatype BufferId = VboSpiral | VboRay
  {
    function Index(): (k: nat)
      ensures k < NumBuffers
    {
      match this
      case VboSpiral => 0
      case VboRay => 1
    }
  }
  const NumBuffers := 2

  /** Distinct enumerators index distinct slots of m_VAOs and m_buffers. */
  lemma EnumIndicesDistinct(u: VaoId, v: VaoId, b: BufferId, c: BufferId)
    ensures u.Index() == v.Index() <==> u == v
    ensures b.Index() == c.Index() <==> b == c
  {
  }

  // ---------------------------------------------------------------------
  // Geometry

  /** The four client arrays filled by InitGeometrySpiral. */
  datatype SpiralArray = Vertices | Colors | SelectedColors | Normals

  /** Shader inputs a VAO feeds. */
  datatype ShaderInput = VPosition | VColor | VNormal

  /**
   * One xyz entry: not yet written (or undefined buffer storage), or the
   * value computed for `source` at loop step `step` on the inner or outer ring.
   */
  datatype Vec3 = Undefined | Generated(source: SpiralArray, step: nat, outer: bool)

  /**
   * Entry k of a spiral array: step k / 2, ring k % 2.  Only positions differ
   * between the two rings of a step; colours and normals are the same.
   */
  function SpiralValue(source: SpiralArray, k: nat): Vec3
  {
    Generated(source, k / 2, source == Vertices && k % 2 == 1)
  }

  /** Offsets at which the four arrays are uploaded, in bytes. */
  function ArrayOffset(source: SpiralArray): nat
  {
    match source
    case Vertices => 0
    case Colors => ArrayBytes
    case SelectedColors => 2 * ArrayBytes
    case Normals => 3 * ArrayBytes
  }

  /** DataSize: the four arrays together, 4 * ArrayBytes. */
  const DataSize := 9600

  /** The four upload regions, in upload order. */
  function UploadRegions(): seq<Region>
  {
    [Region(ArrayOffset(Vertices), ArrayBytes), Region(ArrayOffset(Colors), ArrayBytes),
     Region(ArrayOffset(SelectedColors), ArrayBytes), Region(ArrayOffset(Normals), ArrayBytes)]
  }

  /** The regions start at 0, follow each other without gap or overlap and fill DataSize. */
  lemma UploadRegionsTile()
    ensures Tiles(UploadRegions(), 0, DataSize)
    ensures TotalSize(UploadRegions()) == DataSize
  {
    var rs := UploadRegions();
    assert Tiles(rs[3..], 3 * ArrayBytes, DataSize) by {
      assert rs[3..][1..] == [];
    }
    assert rs[2..][1..] == rs[3..];
    assert rs[1..][1..] == rs[2..];
    TilesPartition(rs, 0, DataSize);
  }

  /** A buffer-storage attribute source: which buffer, from which byte offset (stride 0, 3 floats). */
  datatype AttribSource = AttribSource(buffer: BufferId, offset: nat)

  /** A client array as the generating loop leaves it. */
  function SpiralArrayContents(source: SpiralArray): (a: seq<Vec3>)
    ensures |a| == NbVerticesSpiral
  {
    seq(NbVerticesSpiral, k requires 0 <= k < NbVerticesSpiral => SpiralValue(source, k))
  }

  /** The spiral VBO after InitGeometrySpiral: the four arrays back to back. */
  function SpiralBufferContents(): seq<Vec3>
  {
    SpiralArrayContents(Vertices) + SpiralArrayContents(Colors)
      + SpiralArrayContents(SelectedColors) + SpiralArrayContents(Normals)
  }

  /**
   * The buffer has DataSize / 12 entries and holds entry k of each array at
   * that array's upload offset: the four uploads land where the attribute
   * pointers look for them.
   */
  lemma BufferHoldsArrays(source: SpiralArray, k: nat)
    requires k < NbVerticesSpiral
    ensures |SpiralBufferContents()| == DataSize / Vec3Bytes
    ensures SpiralBufferContents()[ArrayOffset(source) / Vec3Bytes + k] == SpiralValue(source, k)
  {
    var buf := SpiralBufferContents();
    match source {
      case Vertices => assert buf[k] == SpiralArrayContents(Vertices)[k];
      case Colors => assert buf[NbVerticesSpiral + k] == SpiralArrayContents(Colors)[k];
      case SelectedColors => assert buf[2 * NbVerticesSpiral + k] == SpiralArrayContents(SelectedColors)[k];
      case Normals => assert buf[3 * NbVerticesSpiral + k] == SpiralArrayContents(Normals)[k];
    }
  }

  /** The attribute arrays the three spiral VAOs are given. */
  function SpiralAttribs(): map<(VaoId, ShaderInput), AttribSource>
  {
    map[(VaoSpiral, VPosition) := AttribSource(VboSpiral, ArrayOffset(Vertices)),
        (VaoSpiral, VColor) := AttribSource(VboSpiral, ArrayOffset(Colors)),
        (VaoSpiral, VNormal) := AttribSource(VboSpiral, ArrayOffset(Normals)),
        (VaoSpiralSelected, VPosition) := AttribSource(VboSpiral, ArrayOffset(Vertices)),
        (VaoSpiralSelected, VColor) := AttribSource(VboSpiral, ArrayOffset(SelectedColors)),
        (VaoSpiralSelected, VNormal) := AttribSource(VboSpiral, ArrayOffset(Normals)),
        (VaoSpiralPicking, VPosition) := AttribSource(VboSpiral, ArrayOffset(Vertices))]
  }

  /** What a VAO fetches for shader input `input` at vertex k: entry offset / 12 + k of the buffer. */
  function Fetch(buf: seq<Vec3>, attribs: map<(VaoId, ShaderInput), AttribSource>,
                 vao: VaoId, input: ShaderInput, k: nat): Option<Vec3>
  {
    if (vao, input) in attribs && attribs[(vao, input)].offset / Vec3Bytes + k < |buf|
    then Some(buf[attribs[(vao, input)].offset / Vec3Bytes + k])
    else None
  }

  /**
   * The client array meant to feed each VAO input: positions and normals are
   * shared, colours come from Colors for VAO_Spiral and from SelectedColors
   * for VAO_SpiralSelected, and the picking VAO feeds positions only.
   */
  function IntendedArray(vao: VaoId, input: ShaderInput): Option<SpiralArray>
  {
    match (vao, input)
    case (VaoSpiral, VPosition) => Some(Vertices)
    case (VaoSpiral, VColor) => Some(Colors)
    case (VaoSpiral, VNormal) => Some(Normals)
    case (VaoSpiralSelected, VPosition) => Some(Vertices)
    case (VaoSpiralSelected, VColor) => Some(SelectedColors)
    case (VaoSpiralSelected, VNormal) => Some(Normals)
    case (VaoSpiralPicking, VPosition) => Some(Vertices)
    case _ => None
  }

  /** The recorded attribute arrays point into the spiral VBO at the offset of the intended array, and nowhere else. */
  lemma SpiralAttribsAt(vao: VaoId, input: ShaderInput)
    ensures (vao, input) in SpiralAttribs() <==> IntendedArray(vao, input).Some?
    ensures (vao, input) in SpiralAttribs() ==>
      SpiralAttribs()[(vao, input)] == AttribSource(VboSpiral, ArrayOffset(IntendedArray(vao, input).value))
  {
  }

  /**
   * Every vertex k of a spiral draw reads, through each VAO input, entry k
   * of the array meant for it, and an input with no intended array reads nothing.
   */
  lemma VaosFetchTheirArrays(vao: VaoId, input: ShaderInput, k: nat)
    requires k < NbVerticesSpiral
    ensures Fetch(SpiralBufferContents(), SpiralAttribs(), vao, input, k)
      == if IntendedArray(vao, input).Some? then Some(SpiralValue(IntendedArray(vao, input).value, k)) else None
  {
    SpiralAttribsAt(vao, input);
    if IntendedArray(vao, input).Some? {
      BufferHoldsArrays(IntendedArray(vao, input).value, k);
    }
  }

  /** Each slot k of a spiral array is written by exactly one (step, ring) pair of the generating loop. */
  lemma SlotOwner(k: nat, step: nat, ring: nat)
    requires k < NbVerticesSpiral && ring < 2
    ensures k / 2 < NbStepsSpiral
    ensures (step * 2 + ring == k) <==> (step == k / 2 && ring == k % 2)
  {
  }

  // ---------------------------------------------------------------------
  // Commands and render passes

  datatype Program = MainProgram | PickingProgram

  /** The GL commands the window issues, as far as the model follows them. */
  datatype Command =
    | Clear(color: Color4)                 // glClear(COLOR | DEPTH) with the clear colour then current
    | UseProgram(program: Program)
    | BindVertexArray(vao: VaoId)
    | SetPickColor(color: Color4)          // the uColor uniform of the picking shader
    | DrawSpiral(program: Program, vao: VaoId, spiral: int, first: int, count: int)
                                           // glDrawArrays(GL_TRIANGLE_STRIP, first, count), the
                                           // model-view matrix being the translation of `spiral`
    | Flush
    | Finish
    | ReadPixel(x: int, y: int)            // glReadPixels(x, y, 1, 1, GL_RGBA, GL_UNSIGNED_BYTE)
    | Viewport(width: int, height: int)
    | EnableDepthTest

  /** Commands RenderScene issues for spiral i. */
  function VisibleSpiral(i: int, selected: int): seq<Command>
  {
    if i == selected then
      [BindVertexArray(VaoSpiralSelected),
       DrawSpiral(MainProgram, VaoSpiralSelected, i, 0, NbVerticesSpiral),
       BindVertexArray(VaoSpiral)]
    else
      [DrawSpiral(MainProgram, VaoSpiral, i, 0, NbVerticesSpiral)]
  }

  /** Commands RenderScene issues for spirals 0 .. n-1. */
  function VisibleSpirals(n: nat, selected: int): seq<Command>
  {
    if n == 0 then [] else VisibleSpirals(n - 1, selected) + VisibleSpiral(n - 1, selected)
  }

  /** The visible pass, clearing with the current clear colour. */
  function VisiblePass(clear: Color4, selected: int): seq<Command>
  {
    [Clear(clear), UseProgram(MainProgram), BindVertexArray(VaoSpiral)]
      + VisibleSpirals(NbSpirals, selected) + [Flush]
  }

  /** The flat colour spiral i is drawn with in the identification pass (`channel / 255.0`). */
  function PickColor(i: Uint32): Color4
  {
    ToColor4(GetRgba(i))
  }

  /** Commands the identification pass issues for spiral i. */
  function IdSpiral(i: nat): seq<Command>
    requires i < NbSpirals
  {
    [SetPickColor(PickColor(i)), DrawSpiral(PickingProgram, VaoSpiralPicking, i, 0, NbVerticesSpiral)]
  }

  /** Commands the identification loop issues for spirals 0 .. n-1: entry k belongs to spiral k / 2. */
  function IdSpirals(n: nat): seq<Command>
    requires n <= NbSpirals
  {
    seq(2 * n, k requires 0 <= k < 2 * n => IdSpiral(k / 2)[k % 2])
  }

  /** One more iteration of the identification loop appends the commands of the next spiral. */
  lemma IdSpiralsSnoc(n: nat)
    requires n < NbSpirals
    ensures IdSpirals(n + 1) == IdSpirals(n) + IdSpiral(n)
  {
    forall k | 0 <= k < 2 * n + 2
      ensures IdSpirals(n + 1)[k] == (IdSpirals(n) + IdSpiral(n))[k]
    {
      if k >= 2 * n {
        assert k / 2 == n && k % 2 == k - 2 * n;
      }
    }
  }

  /** The drawing part of the identification pass, up to glFinish. */
  function IdDraw(): seq<Command>
  {
    [Clear(WhiteClear), UseProgram(PickingProgram), BindVertexArray(VaoSpiralPicking)]
      + IdSpirals(NbSpirals) + [Finish]
  }

  /** The identification pass and the read of the pixel at (x, row). */
  function IdPass(x: int, row: int): seq<Command>
  {
    IdDraw() + [ReadPixel(x, row)]
  }

  /** What a draw call draws: through which VAO, which spiral, over which vertex range. */
  datatype DrawCall = DrawCall(vao: VaoId, spiral: int, first: int, count: int)

  /** The draw call a command makes, if it is one. */
  function DrawOf(c: Command): seq<DrawCall>
  {
    if c.DrawSpiral? then [DrawCall(c.vao, c.spiral, c.first, c.count)] else []
  }

  /** The draw calls of a command sequence, in order. */
  function Draws(cs: seq<Command>): seq<DrawCall>
  {
    if cs == [] then [] else DrawOf(cs[0]) + Draws(cs[1..])
  }

  /**
   * Spirals 0 .. n-1 in order, each over its whole strip, spiral `selected`
   * through VAO_SpiralSelected and every other one through VAO_Spiral.
   */
  function VisibleDraws(n: nat, selected: int): seq<DrawCall>
  {
    seq(n, i => DrawCall(if i == selected then VaoSpiralSelected else VaoSpiral, i, 0, NbVerticesSpiral))
  }

  /** Spirals 0 .. n-1 in order, each over its whole strip, through VAO_SpiralPicking. */
  function PickingDraws(n: nat): seq<DrawCall>
  {
    seq(n, i => DrawCall(VaoSpiralPicking, i, 0, NbVerticesSpiral))
  }

  lemma {:induction false} DrawsAppend(a: seq<Command>, b: seq<Command>)
    ensures Draws(a + b) == Draws(a) + Draws(b)
  {
    if a == [] {
      assert a + b == b;
    } else {
      assert (a + b)[1..] == a[1..] + b;
      DrawsAppend(a[1..], b);
    }
  }

  lemma {:induction false} NoDraws(cs: seq<Command>)
    requires forall k :: 0 <= k < |cs| ==> !cs[k].DrawSpiral?
    ensures Draws(cs) == []
  {
    if cs != [] {
      NoDraws(cs[1..]);
    }
  }

  /** Commands around a body that draw nothing leave the body's draws. */
  lemma FramedDraws(head: seq<Command>, body: seq<Command>, tail: seq<Command>)
    requires forall k :: 0 <= k < |head| ==> !head[k].DrawSpiral?
    requires forall k :: 0 <= k < |tail| ==> !tail[k].DrawSpiral?
    ensures Draws(head + body + tail) == Draws(body)
  {
    NoDraws(head);
    NoDraws(tail);
    DrawsAppend(head, body);
    DrawsAppend(head + body, tail);
  }

  /** Spiral i is drawn once over its whole strip, through VAO_SpiralSelected exactly when it is the selection. */
  lemma VisibleSpiralDraws(i: int, selected: int)
    ensures Draws(VisibleSpiral(i, selected))
      == [DrawCall(if i == selected then VaoSpiralSelected else VaoSpiral, i, 0, NbVerticesSpiral)]
  {
    var draw := DrawSpiral(MainProgram, if i == selected then VaoSpiralSelected else VaoSpiral,
                           i, 0, NbVerticesSpiral);
    if i == selected {
      var bind1, bind2 := BindVertexArray(VaoSpiralSelected), BindVertexArray(VaoSpiral);
      assert VisibleSpiral(i, selected) == [bind1] + [draw] + [bind2];
      FramedDraws([bind1], [draw], [bind2]);
    }
    assert [draw][1..] == [];
  }

  lemma {:induction false} VisibleSpiralsDraws(n: nat, selected: int)
    ensures Draws(VisibleSpirals(n, selected)) == VisibleDraws(n, selected)
  {
    if n > 0 {
      VisibleSpiralsDraws(n - 1, selected);
      VisibleSpiralDraws(n - 1, selected);
      DrawsAppend(VisibleSpirals(n - 1, selected), VisibleSpiral(n - 1, selected));
      assert VisibleDraws(n, selected) == VisibleDraws(n - 1, selected) + VisibleDraws(n, selected)[n - 1..];
    }
  }

  /** Spiral i is drawn once over its whole strip in the identification pass. */
  lemma IdSpiralDraws(i: nat)
    requires i < NbSpirals
    ensures Draws(IdSpiral(i)) == [DrawCall(VaoSpiralPicking, i, 0, NbVerticesSpiral)]
  {
    var draw := DrawSpiral(PickingProgram, VaoSpiralPicking, i, 0, NbVerticesSpiral);
    assert IdSpiral(i) == [SetPickColor(PickColor(i))] + [draw] + [];
    FramedDraws([SetPickColor(PickColor(i))], [draw], []);
    assert [draw][1..] == [];
  }

  lemma {:induction false} IdSpiralsDraws(n: nat)
    requires n <= NbSpirals
    ensures Draws(IdSpirals(n)) == PickingDraws(n)
  {
    if n > 0 {
      var last := DrawCall(VaoSpiralPicking, n - 1, 0, NbVerticesSpiral);
      assert Draws(IdSpirals(n)) == PickingDraws(n - 1) + [last] by {
        IdSpiralsDraws(n - 1);
        IdSpiralDraws(n - 1);
        IdSpiralsSnoc(n - 1);
        DrawsAppend(IdSpirals(n - 1), IdSpiral(n - 1));
      }
      assert PickingDraws(n) == PickingDraws(n - 1) + [last];
    }
  }

  /**
   * RenderScene draws every spiral once, in index order, over its whole
   * strip, and draws exactly the selected spiral through the highlighting
   * VAO; with the selection -1 (or any value outside [0, NbSpirals)) none is.
   */
  lemma HighlightsExactlySelected(clear: Color4, selected: int)
    ensures Draws(VisiblePass(clear, selected)) == VisibleDraws(NbSpirals, selected)
    ensures forall k :: 0 <= k < NbSpirals ==>
      (Draws(VisiblePass(clear, selected))[k].vao == VaoSpiralSelected <==> k == selected)
  {
    FramedDraws([Clear(clear), UseProgram(MainProgram), BindVertexArray(VaoSpiral)],
                VisibleSpirals(NbSpirals, selected), [Flush]);
    VisibleSpiralsDraws(NbSpirals, selected);
  }

  /**
   * The identification pass draws the same spirals, in the same order, over
   * the same vertex ranges as the visible pass (each draw carrying the same
   * per-index translation), all through the picking VAO.
   */
  lemma BothPassesDrawTheSameSpirals(clear: Color4, selected: int, x: int, row: int)
    ensures Draws(IdPass(x, row)) == PickingDraws(NbSpirals)
    ensures |Draws(IdPass(x, row))| == |Draws(VisiblePass(clear, selected))| == NbSpirals
    ensures forall k :: 0 <= k < NbSpirals ==>
      var pick, visible := Draws(IdPass(x, row))[k], Draws(VisiblePass(clear, selected))[k];
      pick.spiral == visible.spiral == k && pick.first == visible.first && pick.count == visible.count
  {
    HighlightsExactlySelected(clear, selected);
    var head := [Clear(WhiteClear), UseProgram(PickingProgram), BindVertexArray(VaoSpiralPicking)];
    assert IdPass(x, row) == head + IdSpirals(NbSpirals) + [Finish, ReadPixel(x, row)];
    FramedDraws(head, IdSpirals(NbSpirals), [Finish, ReadPixel(x, row)]);
    IdSpiralsDraws(NbSpirals);
  }

  /** Each draw of the identification pass is preceded by the colour that encodes its own spiral. */
  lemma IdPassColours(x: int, row: int, i: nat)
    requires i < NbSpirals
    ensures IdPass(x, row)[3 + 2 * i] == SetPickColor(PickColor(i))
    ensures IdPass(x, row)[4 + 2 * i] == DrawSpiral(PickingProgram, VaoSpiralPicking, i, 0, NbVerticesSpiral)
  {
    assert (2 * i) / 2 == i && (2 * i) % 2 == 0 && (2 * i + 1) / 2 == i && (2 * i + 1) % 2 == 1;
  }

  // ---------------------------------------------------------------------
  // Key table and pick resolution

  /** The key under which spiral i is stored: GetIntFromRGBA(GetRGBA(i)). */
  function SpiralKey(i: Uint32): Uint32
  {
    GetIntFromRgba(GetRgba(i))
  }

  /** std::map::insert: the entry is added only if the key is not present yet. */
  function MapInsert(m: map<Uint32, int>, key: Uint32, value: int): (r: map<Uint32, int>)
    ensures r.Keys == m.Keys + {key}
    ensures r[key] == if key in m then m[key] else value
    ensures forall k :: k in m ==> r[k] == m[k]
  {
    if key in m then m else m[key := value]
  }

  /** The table after the identification loop has inserted spirals 0 .. n-1 in increasing order. */
  function IdTable(n: nat): map<Uint32, int>
    requires n <= NbSpirals
  {
    if n == 0 then map[] else MapInsert(IdTable(n - 1), SpiralKey(n - 1), n - 1)
  }

  /** std::map::find followed by the `-1` default. */
  function Lookup(table: map<Uint32, int>, key: Uint32): int
  {
    if key in table then table[key] else -1
  }

  /**
   * If the table sends exactly the indices below i to themselves, inserting
   * spiral i's key (which is i, and not yet present) extends that to i + 1.
   */
  lemma InsertNextSpiral(table: map<Uint32, int>, i: nat)
    requires i < NbSpirals
    requires forall key: Uint32 :: key in table <==> key < i
    requires forall key: Uint32 :: key in table ==> table[key] == key
    ensures forall key: Uint32 :: key in MapInsert(table, SpiralKey(i), i) <==> key < i + 1
    ensures forall key: Uint32 :: key in MapInsert(table, SpiralKey(i), i) ==> MapInsert(table, SpiralKey(i), i)[key] == key
  {
    DecodeEncode(i);
  }

  /**
   * A spiral's key is its own index (the encoding is the plain byte split),
   * so the table the loop builds over [0, n) is the identity on [0, n).
   */
  lemma {:induction false} IdTableIsIdentity(n: nat)
    requires n <= NbSpirals
    ensures forall key: Uint32 :: key in IdTable(n) <==> key < n
    ensures forall key: Uint32 :: key in IdTable(n) ==> IdTable(n)[key] == key
  {
    if n > 0 {
      IdTableIsIdentity(n - 1);
      InsertNextSpiral(IdTable(n - 1), n - 1);
    }
  }

  /**
   * A table whose keys are exactly 0 .. n-1, each sent to itself, is the
   * table the insertion loop builds over [0, n): the pointwise invariant of
   * the loop pins the table down completely.
   */
  lemma IdentityIsIdTable(table: map<Uint32, int>, n: nat)
    requires n <= NbSpirals
    requires forall key: Uint32 :: key in table <==> key < n
    requires forall key: Uint32 :: key in table ==> table[key] == key
    ensures table == IdTable(n)
  {
    IdTableIsIdentity(n);
    assert table.Keys == IdTable(n).Keys;
  }

  /**
   * The table maps the key of every inserted spiral to that spiral, and each
   * of its entries is such a pair: keys and indices correspond one to one.
   */
  lemma IdTableInverse(n: nat)
    requires n <= NbSpirals
    ensures forall i :: 0 <= i < n ==> SpiralKey(i) in IdTable(n) && IdTable(n)[SpiralKey(i)] == i
    ensures forall key :: key in IdTable(n) ==> 0 <= IdTable(n)[key] < n && SpiralKey(IdTable(n)[key]) == key
  {
    IdTableIsIdentity(n);
    forall i | 0 <= i < n
      ensures SpiralKey(i) == i
    {
      DecodeEncode(i);
    }
  }

  /** The selection a decoded key stands for: a spiral index names that spiral, any other key none. */
  function KeySelection(key: Uint32): int
  {
    if key < NbSpirals then key else -1
  }

  /** Looking a key up in the finished table gives the key itself for a spiral index, else -1. */
  lemma LookupIdTable(key: Uint32)
    ensures Lookup(IdTable(NbSpirals), key) == KeySelection(key)
  {
    IdTableIsIdentity(NbSpirals);
  }

  /** What the user sees selected at a pixel: the front-most spiral there, or none. */
  function Selection(front: Option<SpiralIndex>): int
  {
    match front
    case None => -1
    case Some(i) => i
  }

  /**
   * The pixel left by the identification pass where `front` is the
   * front-most spiral (the depth-test winner) or None (only background).
   * Blending is off and the shader is flat, so the framebuffer holds the
   * quantised draw colour, or the quantised clear colour.
   */
  function IdPassPixel(front: Option<SpiralIndex>): Rgba
  {
    match front
    case None => Quantize(WhiteClear)
    case Some(i) => Quantize(PickColor(i))
  }

  /**
   * The four bytes glReadPixels leaves in pixelData: the pixel at (x, row)
   * if that lies in the width x height framebuffer; otherwise nothing is
   * written and pixelData keeps whatever `stale` bytes it held.
   */
  function PixelRead(frontMost: (int, int) -> Option<SpiralIndex>, stale: Rgba,
                     x: int, row: int, width: Uint32, height: Uint32): Rgba
  {
    if 0 <= x < width && 0 <= row < height then IdPassPixel(frontMost(x, row)) else stale
  }

  /**
   * Decoding the pixel of the identification pass and looking it up resolves
   * to the front-most spiral; a background pixel (white, key 0xFFFFFFFF)
   * resolves to -1.
   */
  lemma PickResolvesFrontMost(front: Option<SpiralIndex>)
    ensures KeySelection(GetIntFromRgba(IdPassPixel(front))) == Selection(front)
  {
    match front {
      case None =>
        QuantizeWhite();
        WhiteIsOnlyMaxKey(0);
      case Some(i) =>
        QuantizeToColor4(GetRgba(i));
        DecodeEncode(i);
    }
  }

  /**
   * A click inside a window at most 2^31 rows high selects the spiral the
   * user sees front-most under the cursor (row y counted from the top), or
   * -1 over the background.
   */
  lemma PickSelectsFrontMost(frontMost: (int, int) -> Option<SpiralIndex>, stale: Rgba,
                             x: Int32, y: Int32, width: Uint32, height: Uint32)
    requires 0 <= x < width && 0 <= y < height && height <= 0x8000_0000
    ensures KeySelection(GetIntFromRgba(PixelRead(frontMost, stale, x, ReadRow(height, y), width, height)))
            == Selection(frontMost(x, height - 1 - y))
  {
    ReadRowInside(height, y);
    PickResolvesFrontMost(frontMost(x, height - 1 - y));
  }

  /**
   * Writing the four arrays at their offsets into DataSize / 12 entries of
   * storage overwrites every entry, each by exactly one upload: the result
   * is the four arrays back to back, whatever the storage held before.
   */
  lemma UploadFillsBuffer(storage: seq<Vec3>, v: seq<Vec3>, c: seq<Vec3>, s: seq<Vec3>, n: seq<Vec3>)
    requires |storage| == DataSize / Vec3Bytes
    requires |v| == |c| == |s| == |n| == NbVerticesSpiral
    ensures Splice(Splice(Splice(Splice(storage, 0, v), NbVerticesSpiral, c), 2 * NbVerticesSpiral, s),
                   3 * NbVerticesSpiral, n)
            == v + c + s + n
  {
    var b1 := Splice(storage, 0, v);
    var b2 := Splice(b1, NbVerticesSpiral, c);
    var b3 := Splice(b2, 2 * NbVerticesSpiral, s);
    var b4 := Splice(b3, 3 * NbVerticesSpiral, n);
    forall k | 0 <= k < |b4|
      ensures b4[k] == (v + c + s + n)[k]
    {
    }
  }

  /** The seven attribute pointers, set in InitGeometrySpiral's order, record SpiralAttribs. */
  lemma SpiralAttribsInOrder(m: map<(VaoId, ShaderInput), AttribSource>)
    ensures m[(VaoSpiral, VPosition) := AttribSource(VboSpiral, ArrayOffset(Vertices))]
             [(VaoSpiral, VColor) := AttribSource(VboSpiral, ArrayOffset(Colors))]
             [(VaoSpiral, VNormal) := AttribSource(VboSpiral, ArrayOffset(Normals))]
             [(VaoSpiralSelected, VPosition) := AttribSource(VboSpiral, ArrayOffset(Vertices))]
             [(VaoSpiralSelected, VColor) := AttribSource(VboSpiral, ArrayOffset(SelectedColors))]
             [(VaoSpiralSelected, VNormal) := AttribSource(VboSpiral, ArrayOffset(Normals))]
             [(VaoSpiralPicking, VPosition) := AttribSource(VboSpiral, ArrayOffset(Vertices))]
            == m + SpiralAttribs()
  {
  }

  // ---------------------------------------------------------------------
  // The window

  class MainWindow {
    var windowWidth: Uint32
    var windowHeight: Uint32
    /** m_selectedSpiral: the highlighted spiral, -1 for none. */
    var selectedSpiral: int
    /** GL state: clear colour, current program, bound VAO and array buffer. */
    var clearColor: Color4
    var program: Option<Program>
    var boundVao: Option<VaoId>
    var arrayBuffer: Option<BufferId>
    /** Contents of the spiral VBO, one entry per xyz triple. */
    var spiralBuffer: seq<Vec3>
    /** Attribute arrays recorded in each VAO. */
    var vaoAttribs: map<(VaoId, ShaderInput), AttribSource>
    /** The GL commands issued so far. */
    var commands: seq<Command>

    /** Nothing is selected at start; the window is 1200 x 800; GL state is at its defaults. */
    constructor ()
      ensures selectedSpiral == -1
      ensures windowWidth == DefaultWidth && windowHeight == DefaultHeight
      ensures clearColor == Color4(0.0, 0.0, 0.0, 0.0)
      ensures program == None && boundVao == None && arrayBuffer == None
      ensures spiralBuffer == [] && vaoAttribs == map[] && commands == []
    {
      windowWidth := DefaultWidth;
      windowHeight := DefaultHeight;
      selectedSpiral := -1;
      clearColor := Color4(0.0, 0.0, 0.0, 0.0);
      program := None;
      boundVao := None;
      arrayBuffer := None;
      spiralBuffer := [];
      vaoAttribs := map[];
      commands := [];
    }

    /**
     * Shader loading and VAO/VBO creation: 4 when the main shader fails,
     * 3 when it has no vPosition, 4 when the picking shader fails, otherwise
     * the spiral geometry is set up and depth testing enabled.
     */
    method InitializeGL(mainShaderOk: bool, positionLocation: int, pickingShaderOk: bool)
      returns (status: int)
      modifies this
      ensures !mainShaderOk ==> status == 4
      ensures mainShaderOk && positionLocation < 0 ==> status == 3
      ensures mainShaderOk && positionLocation >= 0 && !pickingShaderOk ==> status == 4
      ensures status != 0 ==>
        (spiralBuffer == old(spiralBuffer) && vaoAttribs == old(vaoAttribs) && commands == old(commands)
         && program == old(program) && boundVao == old(boundVao) && arrayBuffer == old(arrayBuffer))
      ensures status == 0 <==> mainShaderOk && positionLocation >= 0 && pickingShaderOk
      ensures status == 0 ==>
        (spiralBuffer == SpiralBufferContents() && vaoAttribs == old(vaoAttribs) + SpiralAttribs()
         && commands == old(commands) + [EnableDepthTest]
         && program == Some(PickingProgram) && boundVao == Some(VaoSpiralPicking) && arrayBuffer == Some(VboSpiral))
      ensures selectedSpiral == old(selectedSpiral)
      ensures windowWidth == old(windowWidth) && windowHeight == old(windowHeight)
      ensures clearColor == old(clearColor)
    {
      if !mainShaderOk {
        return 4;
      }
      if positionLocation < 0 {
        return 3;
      }
      if !pickingShaderOk {
        return 4;
      }
      status := InitGeometrySpiral();
      if status != 0 {
        return;
      }
      commands := commands + [EnableDepthTest];
    }

    /** glVertexAttribPointer + glEnableVertexAttribArray: records the source in the bound VAO. */
    method AttribPointer(input: ShaderInput, offset: nat)
      requires boundVao.Some? && arrayBuffer.Some?
      modifies this`vaoAttribs
      ensures vaoAttribs == old(vaoAttribs)[(boundVao.value, input) := AttribSource(arrayBuffer.value, offset)]
    {
      vaoAttribs := vaoAttribs[(boundVao.value, input) := AttribSource(arrayBuffer.value, offset)];
    }

    /**
     * Fills the four client arrays (entries 2i and 2i+1 at step i, each
     * written exactly once), uploads them back to back into the spiral VBO
     * and records the attribute arrays of the three spiral VAOs.
     */
    method InitGeometrySpiral() returns (status: int)
      modifies this
      ensures status == 0
      ensures spiralBuffer == SpiralBufferContents()
      ensures vaoAttribs == old(vaoAttribs) + SpiralAttribs()
      ensures arrayBuffer == Some(VboSpiral)
      ensures program == Some(PickingProgram) && boundVao == Some(VaoSpiralPicking)
      ensures selectedSpiral == old(selectedSpiral) && commands == old(commands)
      ensures windowWidth == old(windowWidth) && windowHeight == old(windowHeight)
      ensures clearColor == old(clearColor)
    {
      var vertices, colors, selectedColors, normals := GenerateSpiral();
      UploadSpiral(vertices[..], colors[..], selectedColors[..], normals[..]);
      CreateSpiralVaos();
      status := 0;
    }

    /**
     * The upload half of InitGeometrySpiral: DataSize bytes of storage for the
     * spiral VBO, then the four arrays written at their offsets.
     */
    method UploadSpiral(vertices: seq<Vec3>, colors: seq<Vec3>, selectedColors: seq<Vec3>, normals: seq<Vec3>)
      requires |vertices| == |colors| == |selectedColors| == |normals| == NbVerticesSpiral
      modifies this`spiralBuffer, this`arrayBuffer
      ensures spiralBuffer == vertices + colors + selectedColors + normals
      ensures arrayBuffer == Some(VboSpiral)
    {
      var dataSize := 4 * ArrayBytes;
      var offsetVertices := 0;
      var offsetColors := ArrayBytes;
      var offsetSelectedColors := offsetColors + ArrayBytes;
      var offsetNormals := offsetSelectedColors + ArrayBytes;

      arrayBuffer := Some(VboSpiral);
      spiralBuffer := seq(dataSize / Vec3Bytes, _ => Undefined);
      ghost var storage := spiralBuffer;
      spiralBuffer := Splice(spiralBuffer, offsetVertices / Vec3Bytes, vertices);
      spiralBuffer := Splice(spiralBuffer, offsetColors / Vec3Bytes, colors);
      spiralBuffer := Splice(spiralBuffer, offsetSelectedColors / Vec3Bytes, selectedColors);
      spiralBuffer := Splice(spiralBuffer, offsetNormals / Vec3Bytes, normals);
      UploadFillsBuffer(storage, vertices, colors, selectedColors, normals);
    }

    /**
     * The VAO half of InitGeometrySpiral: with the spiral VBO bound, the
     * three spiral VAOs get their attribute arrays, the first two under the
     * main shader and the picking one under the picking shader.
     */
    method CreateSpiralVaos()
      requires arrayBuffer == Some(VboSpiral)
      modifies this`vaoAttribs, this`program, this`boundVao
      ensures vaoAttribs == old(vaoAttribs) + SpiralAttribs()
      ensures program == Some(PickingProgram) && boundVao == Some(VaoSpiralPicking)
    {
      var offsetVertices := ArrayOffset(Vertices);
      var offsetColors := ArrayOffset(Colors);
      var offsetSelectedColors := ArrayOffset(SelectedColors);
      var offsetNormals := ArrayOffset(Normals);

      program := Some(MainProgram);
      boundVao := Some(VaoSpiral);
      AttribPointer(VPosition, offsetVertices);
      AttribPointer(VColor, offsetColors);
      AttribPointer(VNormal, offsetNormals);

      boundVao := Some(VaoSpiralSelected);
      AttribPointer(VPosition, offsetVertices);
      AttribPointer(VColor, offsetSelectedColors);
      AttribPointer(VNormal, offsetNormals);

      program := Some(PickingProgram);
      boundVao := Some(VaoSpiralPicking);
      AttribPointer(VPosition, offsetVertices);
      SpiralAttribsInOrder(old(vaoAttribs));
    }

    /** RenderScene: the visible pass, highlighting the selected spiral. */
    method RenderScene()
      modifies this`commands, this`program, this`boundVao
      ensures commands == old(commands) + VisiblePass(clearColor, selectedSpiral)
      ensures program == Some(MainProgram) && boundVao == Some(VaoSpiral)
    {
      commands := commands + [Clear(clearColor)];
      program := Some(MainProgram);
      commands := commands + [UseProgram(MainProgram)];
      boundVao := Some(VaoSpiral);
      commands := commands + [BindVertexArray(VaoSpiral)];
      ghost var head := commands;

      for i := 0 to NbSpirals
        modifies this`commands, this`boundVao
        invariant commands == head + VisibleSpirals(i, selectedSpiral)
        invariant boundVao == Some(VaoSpiral)
      {
        DrawVisibleSpiral(i);
      }
      commands := commands + [Flush];
    }

    /** The body of RenderScene's loop: spiral i, through the highlighting VAO if it is the selection. */
    method DrawVisibleSpiral(i: int)
      requires program == Some(MainProgram) && boundVao == Some(VaoSpiral)
      modifies this`commands, this`boundVao
      ensures commands == old(commands) + VisibleSpiral(i, selectedSpiral)
      ensures boundVao == Some(VaoSpiral)
    {
      var isSelected := selectedSpiral == i;
      if isSelected {
        boundVao := Some(VaoSpiralSelected);
        commands := commands + [BindVertexArray(VaoSpiralSelected)];
      }
      commands := commands + [DrawSpiral(program.value, boundVao.value, i, 0, NbVerticesSpiral)];
      if isSelected {
        boundVao := Some(VaoSpiral);
        commands := commands + [BindVertexArray(VaoSpiral)];
      }
    }

    /**
     * PerformSelection(x, y): the identification pass, the read-back of the
     * pixel at column x and flipped row, and the update of the selection.
     * `frontMost` is the rasteriser's answer per pixel; `stale` is what
     * pixelData holds if glReadPixels writes nothing.
     */
    method PerformSelection(x: Int32, y: Int32, frontMost: (int, int) -> Option<SpiralIndex>, stale: Rgba)
      modifies this`commands, this`clearColor, this`program, this`boundVao, this`selectedSpiral
      ensures commands == old(commands) + IdPass(x, ReadRow(windowHeight, y))
      ensures selectedSpiral == KeySelection(GetIntFromRgba(
                PixelRead(frontMost, stale, x, ReadRow(windowHeight, y), windowWidth, windowHeight)))
      ensures clearColor == old(clearColor)
      ensures program == Some(PickingProgram) && boundVao == Some(VaoSpiralPicking)
    {
      var table := IdentificationPass();
      var row := ReadRow(windowHeight, y);
      commands := commands + [ReadPixel(x, row)];
      var pixelData := PixelRead(frontMost, stale, x, row, windowWidth, windowHeight);

      var key := GetIntFromRgba(pixelData);
      selectedSpiral := if key in table then table[key] else -1;
    }

    /** The drawing half of PerformSelection, up to glFinish; returns the key table. */
    method IdentificationPass() returns (table: map<Uint32, int>)
      modifies this`commands, this`clearColor, this`program, this`boundVao
      ensures commands == old(commands) + IdDraw()
      ensures forall key: Uint32 :: Lookup(table, key) == KeySelection(key)
      ensures clearColor == old(clearColor)
      ensures program == Some(PickingProgram) && boundVao == Some(VaoSpiralPicking)
    {
      ClearIdBackground();
      program := Some(PickingProgram);
      commands := commands + [UseProgram(PickingProgram)];
      boundVao := Some(VaoSpiralPicking);
      commands := commands + [BindVertexArray(VaoSpiralPicking)];
      table := DrawIdSpirals();
      commands := commands + [Finish];
    }

    /** Clears to white, then restores the previous clear colour. */
    method ClearIdBackground()
      modifies this`commands, this`clearColor
      ensures commands == old(commands) + [Clear(WhiteClear)]
      ensures clearColor == old(clearColor)
    {
      var saved := clearColor;
      clearColor := WhiteClear;
      commands := commands + [Clear(clearColor)];
      clearColor := saved;
    }

    /**
     * The loop of PerformSelection: spiral i is drawn in the colour encoding
     * i, and the key decoded from that colour is inserted into the table,
     * which ends up sending exactly the spiral indices to themselves.  The
     * loop invariant states the table pointwise; IdentityIsIdTable shows
     * that a table of that shape after i iterations is IdTable(i).
     */
    method DrawIdSpirals() returns (table: map<Uint32, int>)
      requires program == Some(PickingProgram) && boundVao == Some(VaoSpiralPicking)
      modifies this`commands
      ensures commands == old(commands) + IdSpirals(NbSpirals)
      ensures forall key: Uint32 :: Lookup(table, key) == KeySelection(key)
    {
      table := map[];
      ghost var head := commands;
      for i := 0 to NbSpirals
        invariant forall key: Uint32 :: key in table <==> key < i
        invariant forall key: Uint32 :: key in table ==> table[key] == key
        invariant commands == head + IdSpirals(i)
      {
        InsertNextSpiral(table, i);
        table := DrawIdSpiral(i, table);
        IdSpiralsSnoc(i);
      }
    }

    /** One iteration of the loop of PerformSelection, for spiral i. */
    method DrawIdSpiral(i: int, table: map<Uint32, int>) returns (table': map<Uint32, int>)
      requires 0 <= i < NbSpirals
      requires program == Some(PickingProgram) && boundVao == Some(VaoSpiralPicking)
      modifies this`commands
      ensures commands == old(commands) + IdSpiral(i)
      ensures table' == MapInsert(table, SpiralKey(i), i)
    {
      var color := GetRgba(i);
      var key := GetIntFromRgba(color);
      table' := MapInsert(table, key, i);
      commands := commands + [SetPickColor(ToColor4(color))];
      commands := commands + [DrawSpiral(program.value, boundVao.value, i, 0, NbVerticesSpiral)];
    }

    /** FramebufferSizeCallback: stores the new size (as unsigned) and sets the viewport. */
    method FramebufferSizeCallback(width: Int32, height: Int32)
      modifies this
      ensures windowWidth == ToUint32(width) && windowHeight == ToUint32(height)
      ensures width >= 0 && height >= 0 ==> windowWidth == width && windowHeight == height
      ensures commands == old(commands) + [Viewport(width, height)]
      ensures selectedSpiral == old(selectedSpiral) && clearColor == old(clearColor)
      ensures program == old(program) && boundVao == old(boundVao) && arrayBuffer == old(arrayBuffer)
      ensures spiralBuffer == old(spiralBuffer) && vaoAttribs == old(vaoAttribs)
    {
      windowWidth := ToUint32(width);
      windowHeight := ToUint32(height);
      commands := commands + [Viewport(width, height)];
    }

    /**
     * MouseButtonCallback: a pick runs only for a left-button press with
     * exactly the shift modifier, at the cursor position; any other event
     * changes nothing.
     */
    method MouseButtonCallback(button: int, action: int, mods: int, cursorX: Int32, cursorY: Int32,
                               frontMost: (int, int) -> Option<SpiralIndex>, stale: Rgba)
      modifies this`commands, this`clearColor, this`program, this`boundVao, this`selectedSpiral
      ensures !(button == GlfwMouseButtonLeft && action == GlfwPress && mods == GlfwModShift) ==>
                selectedSpiral == old(selectedSpiral) && commands == old(commands)
                && program == old(program) && boundVao == old(boundVao)
      ensures button == GlfwMouseButtonLeft && action == GlfwPress && mods == GlfwModShift ==>
                commands == old(commands) + IdPass(cursorX, ReadRow(windowHeight, cursorY))
                && program == Some(PickingProgram) && boundVao == Some(VaoSpiralPicking)
                && selectedSpiral == KeySelection(GetIntFromRgba(
                     PixelRead(frontMost, stale, cursorX, ReadRow(windowHeight, cursorY), windowWidth, windowHeight)))
      ensures clearColor == old(clearColor)
    {
      if button == GlfwMouseButtonLeft && action == GlfwPress && mods == GlfwModShift {
        PerformSelection(cursorX, cursorY, frontMost, stale);
      }
    }
  }

  /** The first n entries of `a` are those of the array `source` as generated. */
  predicate Filled(a: seq<Vec3>, source: SpiralArray, n: nat)
  {
    n <= |a| && forall k :: 0 <= k < n ==> a[k] == SpiralValue(source, k)
  }

  /** Writing step i's two entries extends a filled prefix of 2i entries to 2i + 2. */
  lemma FilledStep(a: seq<Vec3>, source: SpiralArray, i: nat)
    requires Filled(a, source, 2 * i) && 2 * i + 2 <= |a|
    ensures Filled(a[2 * i := Generated(source, i, false)][2 * i + 1 := Generated(source, i, source == Vertices)],
                   source, 2 * i + 2)
  {
    assert (2 * i) / 2 == i && (2 * i) % 2 == 0 && (2 * i + 1) / 2 == i && (2 * i + 1) % 2 == 1;
  }

  /**
   * Fills the arrays Vertices, Colors, SelectedColors and Normals the way the
   * loop of InitGeometrySpiral does: step i writes entries 2i and 2i+1
   * (SlotOwner: every entry has exactly one such step).
   */
  method GenerateSpiral() returns (vertices: array<Vec3>, colors: array<Vec3>,
                                   selectedColors: array<Vec3>, normals: array<Vec3>)
    ensures fresh(vertices) && fresh(colors) && fresh(selectedColors) && fresh(normals)
    ensures vertices[..] == SpiralArrayContents(Vertices)
    ensures colors[..] == SpiralArrayContents(Colors)
    ensures selectedColors[..] == SpiralArrayContents(SelectedColors)
    ensures normals[..] == SpiralArrayContents(Normals)
  {
    vertices := new Vec3[NbVerticesSpiral](_ => Undefined);
    colors := new Vec3[NbVerticesSpiral](_ => Undefined);
    selectedColors := new Vec3[NbVerticesSpiral](_ => Undefined);
    normals := new Vec3[NbVerticesSpiral](_ => Undefined);

    for i := 0 to NbStepsSpiral
      invariant Filled(vertices[..], Vertices, 2 * i)
      invariant Filled(colors[..], Colors, 2 * i)
      invariant Filled(selectedColors[..], SelectedColors, 2 * i)
      invariant Filled(normals[..], Normals, 2 * i)
    {
      FilledStep(vertices[..], Vertices, i);
      FilledStep(colors[..], Colors, i);
      FilledStep(selectedColors[..], SelectedColors, i);
      FilledStep(normals[..], Normals, i);
      WriteStep(vertices, colors, selectedColors, normals, i);
    }
    assert vertices[..] == SpiralArrayContents(Vertices);
    assert colors[..] == SpiralArrayContents(Colors);
    assert selectedColors[..] == SpiralArrayContents(SelectedColors);
  }

  /** The body of the generating loop at step i: two entries of each array. */
  method WriteStep(vertices: array<Vec3>, colors: array<Vec3>, selectedColors: array<Vec3>, normals: array<Vec3>,
                   i: nat)
    requires vertices.Length == colors.Length == selectedColors.Length == normals.Length == NbVerticesSpiral
    requires i < NbStepsSpiral
    requires vertices != colors && vertices != selectedColors && vertices != normals
    requires colors != selectedColors && colors != normals && selectedColors != normals
    modifies vertices, colors, selectedColors, normals
    ensures vertices[..] == old(vertices[..])[i * 2 := Generated(Vertices, i, false)][i * 2 + 1 := Generated(Vertices, i, true)]
    ensures colors[..] == old(colors[..])[i * 2 := Generated(Colors, i, false)][i * 2 + 1 := Generated(Colors, i, false)]
    ensures selectedColors[..]
      == old(selectedColors[..])[i * 2 := Generated(SelectedColors, i, false)][i * 2 + 1 := Generated(SelectedColors, i, false)]
    ensures normals[..] == old(normals[..])[i * 2 := Generated(Normals, i, false)][i * 2 + 1 := Generated(Normals, i, false)]
  {
    vertices[i * 2] := Generated(Vertices, i, false);
    vertices[i * 2 + 1] := Generated(Vertices, i, true);
    colors[i * 2] := Generated(Colors, i, false);
    colors[i * 2 + 1] := Generated(Colors, i, false);
    selectedColors[i * 2] := Generated(SelectedColors, i, false);
    selectedColors[i * 2 + 1] := Generated(SelectedColors, i, false);
    normals[i * 2] := Generated(Normals, i, false);
    normals[i * 2 + 1] := Generated(Normals, i, false);
  }
}
