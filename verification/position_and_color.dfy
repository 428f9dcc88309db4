/**
 * The position-and-colour window (02_PositionAndColor): nine vertex
 * positions and three vertex colours are packed back to back into one
 * buffer; a frame draws three triangles, and only the first one reads the
 * per-vertex colours, whose attribute array is enabled around that draw
 * alone.
 *
 * Floats are modelled as reals; the shaders are outside the model: their
 * build outcome and attribute locations are parameters.
 */
module PositionAndColor {
  import opened Wrappers
  import opened GlBuffer

  /** sizeof(GLfloat). */
  const FloatBytes := 4
  const NbVertices := 9
  const PositionComponents := 3
  const ColorComponents := 4

  /** The client arrays: three triangles of XYZ positions, and one RGBA colour for each vertex of the first. */
  const Positions: seq<real> := [
    -0.9,  0.1, 0.0,   0.0,  0.9, 0.0,   0.9,  0.1, 0.0,
    -0.1, -0.1, 0.0,  -0.1, -0.9, 0.0,  -0.9, -0.1, 0.0,
     0.1, -0.1, 0.0,   0.9, -0.9, 0.0,   0.1, -0.9, 0.0]
  const Colors: seq<real> := [
    0.0, 1.0, 1.0, 1.0,
    1.0, 0.0, 1.0, 1.0,
    1.0, 1.0, 0.0, 1.0]

  /** One float slot of buffer storage: undefined until something is uploaded there. */
  datatype Cell = Undefined | Float(value: real)

  /** Floats as uploaded by glBufferSubData: one defined cell per float, in order. */
  function Cells(fs: seq<real>): seq<Cell>
  {
    seq(|fs|, i requires 0 <= i < |fs| => Float(fs[i]))
  }

  /** glVertexAttribPointer with float components: component count, byte stride (0 for tightly packed) and byte offset. */
  datatype AttribPointer = AttribPointer(components: nat, stride: nat, offset: nat)

  datatype Rgba = Rgba(r: real, g: real, b: real, a: real)

  const Background := Rgba(0.5, 0.5, 0.5, 1.0)
  const Green := Rgba(0.0, 1.0, 0.0, 1.0)
  const TransparentRed := Rgba(1.0, 0.0, 0.0, 0.0)

  /** The GL commands of a frame; a draw records the attribute arrays enabled when it is issued. */
  datatype Command =
    | Clear
    | BindVertexArray
    | UseProgram
    | EnableAttrib(location: int)
    | DisableAttrib(location: int)
    | SetColor(c: Rgba)                                // the "uColor" uniform
    | DrawTriangles(first: nat, count: nat, arrays: set<int>)
    | Flush

  // ---------------------------------------------------------------------
  // Buffer layout

  /** Byte sizes of the two client arrays. */
  const PositionBytes := FloatBytes * |Positions|
  const ColorBytes := FloatBytes * |Colors|

  /** The two sub-uploads: positions at 0, colours right after them. */
  function UploadRegions(): seq<Region>
  {
    [Region(0, PositionBytes), Region(PositionBytes, ColorBytes)]
  }

  /**
   * The positions hold 9 XYZ vertices and the colours 3 RGBA ones; their
   * uploads start at 0, do not overlap, and together fill the allocation
   * of 4 * (27 + 12) bytes exactly.
   */
  lemma UploadRegionsFillBuffer()
    ensures |Positions| == NbVertices * PositionComponents && |Colors| == 3 * ColorComponents
    ensures Tiles(UploadRegions(), 0, FloatBytes * (|Positions| + |Colors|))
    ensures TotalSize(UploadRegions()) == FloatBytes * (|Positions| + |Colors|)
    ensures UploadRegions()[0].End() <= UploadRegions()[1].offset
    ensures forall p :: 0 <= p < FloatBytes * (|Positions| + |Colors|) ==> Covered(UploadRegions(), p)
  {
    TilesPartition(UploadRegions(), 0, FloatBytes * (|Positions| + |Colors|));
  }

  /**
   * What an attribute array hands vertex v: `components` floats starting at
   * byte offset + v * stride (a stride of 0 meaning tightly packed), or
   * None when the read is not float-aligned or leaves the buffer.
   */
  function Fetch(data: seq<Cell>, p: AttribPointer, v: nat): Option<seq<Cell>>
  {
    var stride := if p.stride == 0 then p.components * FloatBytes else p.stride;
    var start := p.offset + v * stride;
    if start % FloatBytes != 0 || start / FloatBytes + p.components > |data| then None
    else Some(data[start / FloatBytes .. start / FloatBytes + p.components])
  }

  /** The attribute arrays InitializeGL sets up, for the given locations. */
  function Layout(positionLocation: int, colorLocation: int): map<int, AttribPointer>
  {
    map[positionLocation := AttribPointer(PositionComponents, 0, 0),
        colorLocation := AttribPointer(ColorComponents, 0, FloatBytes * |Positions|)]
  }

  /** The buffer contents after both uploads. */
  function Uploaded(): seq<Cell>
  {
    Cells(Positions) + Cells(Colors)
  }

  // ---------------------------------------------------------------------
  // Frames

  /** The commands of one frame, starting from the attribute arrays `enabled`. */
  function Frame(colorLocation: int, enabled: set<int>): seq<Command>
  {
    [Clear, BindVertexArray, UseProgram]
    + [EnableAttrib(colorLocation), DrawTriangles(0, 3, enabled + {colorLocation}), DisableAttrib(colorLocation)]
    + [SetColor(Green), DrawTriangles(3, 3, enabled - {colorLocation})]
    + [SetColor(TransparentRed), DrawTriangles(6, 3, enabled - {colorLocation})]
    + [Flush]
  }

  /** The vertex ranges of the draws of a command sequence, in order. */
  function DrawRanges(cs: seq<Command>): seq<Region>
  {
    if cs == [] then []
    else (if cs[0].DrawTriangles? then [Region(cs[0].first, cs[0].count)] else []) + DrawRanges(cs[1..])
  }

  lemma {:induction false} DrawRangesAppend(a: seq<Command>, b: seq<Command>)
    ensures DrawRanges(a + b) == DrawRanges(a) + DrawRanges(b)
  {
    if a == [] {
      assert a + b == b;
    } else {
      assert (a + b)[0] == a[0] && (a + b)[1..] == a[1..] + b;
      DrawRangesAppend(a[1..], b);
    }
  }

  /** The three draws of a frame cover the nine vertices in order, without gap or overlap. */
  lemma FrameDrawsTileVertices(colorLocation: int, enabled: set<int>)
    ensures DrawRanges(Frame(colorLocation, enabled)) == [Region(0, 3), Region(3, 3), Region(6, 3)]
    ensures Tiles(DrawRanges(Frame(colorLocation, enabled)), 0, NbVertices)
    ensures forall v :: 0 <= v < NbVertices ==> Covered(DrawRanges(Frame(colorLocation, enabled)), v)
  {
    var prologue: seq<Command> := [Clear, BindVertexArray, UseProgram];
    var first := [EnableAttrib(colorLocation), DrawTriangles(0, 3, enabled + {colorLocation}), DisableAttrib(colorLocation)];
    var second := [SetColor(Green), DrawTriangles(3, 3, enabled - {colorLocation})];
    var third := [SetColor(TransparentRed), DrawTriangles(6, 3, enabled - {colorLocation})];
    var epilogue: seq<Command> := [Flush];
    DrawRangesAppend(prologue, first);
    DrawRangesAppend(prologue + first, second);
    DrawRangesAppend(prologue + first + second, third);
    DrawRangesAppend(prologue + first + second + third, epilogue);
    assert DrawRanges(prologue) == [] by {
      assert prologue[1..][1..][1..] == [];
    }
    assert DrawRanges(first) == [Region(0, 3)] by {
      assert DrawRanges(first[2..]) == [] by {
        assert first[2..][1..] == [];
      }
    }
    assert DrawRanges(second) == [Region(3, 3)] by {
      assert second[1..][1..] == [];
    }
    assert DrawRanges(third) == [Region(6, 3)] by {
      assert third[1..][1..] == [];
    }
    assert DrawRanges(epilogue) == [] by {
      assert epilogue[1..] == [];
    }
    var ranges := [Region(0, 3), Region(3, 3), Region(6, 3)];
    assert Tiles(ranges, 0, NbVertices) by {
      assert Tiles(ranges[1..][1..], 6, NbVertices) by {
        assert ranges[1..][1..][1..] == [];
      }
    }
    TilesPartition(ranges, 0, NbVertices);
  }

  /**
   * With the layout InitializeGL leaves, the position array hands every
   * vertex 0..8 its own three floats, and the colour array hands each of
   * the vertices 0..2 its own four floats; for every later vertex the
   * colour read would leave the buffer.
   */
  lemma AttribReads(positionLocation: int, colorLocation: int, v: nat)
    requires positionLocation != colorLocation
    ensures v < NbVertices ==>
      Fetch(Uploaded(), Layout(positionLocation, colorLocation)[positionLocation], v)
        == Some(Cells(Positions[3 * v .. 3 * v + 3]))
    ensures v < 3 ==>
      Fetch(Uploaded(), Layout(positionLocation, colorLocation)[colorLocation], v)
        == Some(Cells(Colors[4 * v .. 4 * v + 4]))
    ensures v >= 3 ==> Fetch(Uploaded(), Layout(positionLocation, colorLocation)[colorLocation], v) == None
  {
    assert (12 * v) % 4 == 0 && (12 * v) / 4 == 3 * v;
    assert (108 + 16 * v) % 4 == 0 && (108 + 16 * v) / 4 == 27 + 4 * v;
    if v < NbVertices {
      CellsSlice(Positions, Colors, 3 * v, 3 * v + 3);
    }
    if v < 3 {
      CellsSlice(Colors, [], 4 * v, 4 * v + 4);
      assert Uploaded()[27 + 4 * v .. 27 + 4 * v + 4] == Cells(Colors)[4 * v .. 4 * v + 4];
    }
  }

  /** Slicing commutes with turning floats into cells, also when more cells follow. */
  lemma CellsSlice(fs: seq<real>, more: seq<real>, a: nat, b: nat)
    requires a <= b <= |fs|
    ensures (Cells(fs) + Cells(more))[a..b] == Cells(fs[a..b])
    ensures Cells(fs)[a..b] == Cells(fs[a..b])
  {
  }

  /**
   * In a frame drawn after InitializeGL (positions enabled, colours not),
   * the colour array is read only by the first draw, so only for vertices
   * 0..2, which the colour array covers; every draw reads the positions.
   */
  lemma ColorsReadOnlyByFirstTriangle(positionLocation: int, colorLocation: int)
    requires positionLocation != colorLocation
    ensures forall k :: 0 <= k < |Frame(colorLocation, {positionLocation})| && Frame(colorLocation, {positionLocation})[k].DrawTriangles? ==>
      var d := Frame(colorLocation, {positionLocation})[k];
      positionLocation in d.arrays
      && (colorLocation in d.arrays <==> d.first == 0)
      && (colorLocation in d.arrays ==> d.first + d.count <= |Colors| / ColorComponents)
  {
  }

  // ---------------------------------------------------------------------
  // The window

  class MainWindow {
    /** The attribute locations of vPosition and vColor in the main shader. */
    var positionLocation: int
    var colorLocation: int
    /** The array buffer: its byte size and its float slots. */
    var bufferSize: int
    var bufferData: seq<Cell>
    /** The attribute arrays of the VAO and the ones enabled in it. */
    var attribs: map<int, AttribPointer>
    var enabled: set<int>
    var clearColor: Rgba
    /** The GL commands issued so far. */
    var commands: seq<Command>

    constructor ()
      ensures bufferSize == 0 && bufferData == [] && attribs == map[] && enabled == {} && commands == []
    {
      positionLocation, colorLocation := -1, -1;
      bufferSize, bufferData := 0, [];
      attribs, enabled := map[], {};
      clearColor := Rgba(0.0, 0.0, 0.0, 0.0);
      commands := [];
    }

    /**
     * InitializeGL: 4 when the main shader fails, 5 when vPosition or
     * vColor has no location (-1), before any buffer work; otherwise the
     * buffer is allocated for both arrays and filled by two sub-uploads,
     * positions are laid out and enabled, colours laid out but left
     * disabled, and 0 returned.
     */
    method InitializeGL(mainShaderOk: bool, positionLoc: int, colorLoc: int) returns (status: int)
      requires mainShaderOk && positionLoc != -1 && colorLoc != -1 ==> positionLoc != colorLoc
      modifies this
      ensures status == (if !mainShaderOk then 4 else if positionLoc == -1 || colorLoc == -1 then 5 else 0)
      ensures status != 0 ==> unchanged(this)
      ensures status == 0 ==>
        (positionLocation == positionLoc && colorLocation == colorLoc
         && bufferSize == FloatBytes * (|Positions| + |Colors|) && bufferData == Uploaded()
         && attribs == Layout(positionLoc, colorLoc) && enabled == {positionLoc}
         && clearColor == Background && commands == old(commands))
    {
      if !mainShaderOk {
        return 4;
      }
      if positionLoc == -1 {
        return 5;
      }
      if colorLoc == -1 {
        return 5;
      }
      positionLocation, colorLocation := positionLoc, colorLoc;
      attribs, enabled := map[], {};          // glGenVertexArrays: a fresh VAO
      var size := FloatBytes * (|Positions| + |Colors|);
      bufferSize := size;
      bufferData := seq(size / FloatBytes, _ => Undefined);
      bufferData := Splice(bufferData, 0, Cells(Positions));
      bufferData := Splice(bufferData, |Positions|, Cells(Colors));
      attribs := attribs[positionLoc := AttribPointer(PositionComponents, 0, 0)];
      enabled := enabled + {positionLoc};
      attribs := attribs[colorLoc := AttribPointer(ColorComponents, 0, FloatBytes * |Positions|)];
      clearColor := Background;
      assert bufferData == Uploaded();
      return 0;
    }

    /**
     * RenderScene: the colour array is enabled for the first triangle only;
     * the second is drawn green and the third transparent red through the
     * uniform colour.
     */
    method RenderScene()
      modifies this`enabled, this`commands
      ensures commands == old(commands) + Frame(colorLocation, old(enabled))
      ensures enabled == old(enabled) - {colorLocation}
    {
      commands := commands + [Clear, BindVertexArray, UseProgram];
      enabled := enabled + {colorLocation};
      commands := commands + [EnableAttrib(colorLocation), DrawTriangles(0, 3, enabled)];
      enabled := enabled - {colorLocation};
      commands := commands + [DisableAttrib(colorLocation)];
      commands := commands + [SetColor(Green), DrawTriangles(3, 3, enabled)];
      commands := commands + [SetColor(TransparentRed), DrawTriangles(6, 3, enabled)];
      commands := commands + [Flush];
      assert (old(enabled) + {colorLocation}) - {colorLocation} == old(enabled) - {colorLocation};
    }
  }
}
