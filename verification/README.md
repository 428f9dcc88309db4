# OpenGL example windows of ETS-LOG750, modelled in Dafny

This project models the application logic of four OpenGL example windows. It
covers what each window puts into GL buffers, how it lays that data out for
the shaders, which draw calls it issues in which order, and, for the picking
lab, how a mouse click becomes a selected object. GL calls are recorded as a
trace of commands in each window object. Shader compilation, the OBJ parser,
the clock and the rasteriser are inputs: booleans, sequences, a real number
and an oracle function.

| file | models |
|---|---|
| `wrappers.dfy` | `Option` |
| `c_int.dfy` | 32-bit signed and unsigned integers and the C++ conversions between them |
| `color_codec.dfy` | GetRGBA / GetIntFromRGBA, and float colour channels written to an 8-bit framebuffer |
| `gl_buffer.dfy` | byte regions of a GL buffer, tiling, and `glBufferSubData` as a splice |
| `picking.dfy` | `Lab_2_Picking`: spiral geometry, the visible pass, the colour-ID pass, the key table and the selection |
| `obj_loader.dfy` | `Lab_2_ObjLoader`: one VAO/VBO per non-empty mesh, per-mesh material draws, release |
| `animation.dfy` | `04_Animation`: interleaved position/normal packing, attribute layout, transform selection per mode |
| `position_and_color.dfy` | `02_PositionAndColor`: one buffer with positions then colours, and three triangles with different colour sources |

Main results:

- **Picking.**
  - A shift-left-click inside the window sets `m_selectedSpiral` to the spiral the user sees front-most under the cursor, or to -1 over the background. See `Picking.PickSelectsFrontMost` together with `Picking.MainWindow.PerformSelection`.
  - The key table built during the identification pass maps exactly the keys 0..9 to themselves (`Picking.IdTableIsIdentity`).
  - The visible pass highlights exactly the selected spiral (`Picking.HighlightsExactlySelected`).
- **OBJ loader.**
  - Every non-empty mesh gets one record, in order, whose buffer holds its vertices (`ObjLoader.MainWindow.LoadObjFile`).
  - Every vertex-attribute read stays inside that buffer, for a mesh whose byte size (24 per vertex) fits the 32-bit `GLsizei` the code stores it in, i.e. fewer than 89,478,486 vertices (`ObjLoader.AttribReadsInBounds`).
  - Loading creates objects only under fresh names, and releasing the loaded records gives back exactly the objects there were before (`ObjLoader.LoadThenRelease`).
  - Releasing deletes each name exactly once (`ObjLoader.EachNameDeletedOnce`).
- **Animation.**
  - The packed buffer holds, for each vertex, the placed position and then the normal (`Animation.InterleaveRecords`).
  - The stride-24 layout fetches exactly those floats (`Animation.LayoutMatchesRecords`).
- **Position and colour.**
  - The two uploads fill the buffer without gap or overlap (`PositionAndColor.UploadRegionsFillBuffer`).
  - The three draws cover vertices 0..8 once each (`PositionAndColor.FrameDrawsTileVertices`).
  - Only the first triangle reads vertex colours (`PositionAndColor.ColorsReadOnlyByFirstTriangle`).

Two details of the read-back follow from the code:

- The picking read-back row is `m_windowHeight - 1 - y`. It is computed in unsigned arithmetic, because `m_windowHeight` is unsigned, and then passed as a GLint. The two wrap-arounds cancel. The row is therefore exactly `H - 1 - y` whenever that value fits a GLint, not only for `y <= H - 1`. For `y >= H` the row is negative and the read falls outside the framebuffer (`Picking.ReadRowExact`, `Picking.ReadRowInside`).
- The framebuffer height used for the flip is the stored window height, `m_windowHeight`. The framebuffer size callback updates it.

## Model

| member | source | states |
|---|---|---|
| CInt.NarrowExact | examples/Lab_2_Picking/Mainwindow.cpp:389 | converting an integer to GLint leaves it unchanged exactly when it lies in [-2^31, 2^31) |
| ColorCodec.DecodeEncode | examples/Lab_2_Picking/Mainwindow.cpp:367-369 | GetIntFromRGBA(GetRGBA(id)) gives back id, for every 32-bit id |
| ColorCodec.EncodeDecode | examples/Lab_2_Picking/Mainwindow.cpp:397-399 | GetRGBA(GetIntFromRGBA(c)) gives back c, for every 8-bit colour, so no read-back colour is lost |
| ColorCodec.EncodeInjective | examples/Lab_2_Picking/Mainwindow.cpp:367-371 | two ids get the same colour iff they are equal |
| ColorCodec.WhiteIsOnlyMaxKey | examples/Lab_2_Picking/Mainwindow.cpp:345 | the white clear colour decodes to 0xFFFFFFFF, and that is the only id encoded as white |
| ColorCodec.UnormToByte | examples/Lab_2_Picking/Mainwindow.cpp:375-376 | the framebuffer byte for a channel strictly inside (0, 1) is the nearest byte to channel * 255 |
| ColorCodec.ByteToUnorm | examples/Lab_2_Picking/Mainwindow.cpp:375 | `channel / 255.0` lies in [0, 1] |
| ColorCodec.ChannelRoundTrip | examples/Lab_2_Picking/Mainwindow.cpp:375-376 | a byte sent as `b / 255.0` is stored back as b |
| ColorCodec.QuantizeToColor4 | examples/Lab_2_Picking/Mainwindow.cpp:375-376 | a colour sent as a float uniform reads back as the same RGBA bytes |
| ColorCodec.QuantizeWhite | examples/Lab_2_Picking/Mainwindow.cpp:345-346 | the (1, 1, 1, 1) clear colour reads back as four 255 bytes |
| GlBuffer.TilesPartition | examples/02_PositionAndColor/Mainwindow.cpp:124-130 | regions that tile [start, end) sum to its length, lie inside it, do not overlap, and cover every byte of it |
| GlBuffer.Splice | examples/Lab_2_Picking/Mainwindow.cpp:284-287 | glBufferSubData replaces exactly the bytes [at, at + size) with the data and keeps the rest |
| Picking.ReadRowExact | examples/Lab_2_Picking/Mainwindow.cpp:389 | the unsigned `m_windowHeight - 1 - y` passed as GLint is the exact flip whenever that fits a GLint |
| Picking.ReadRowInside | examples/Lab_2_Picking/Mainwindow.cpp:389 | for heights up to 2^31, the row read is inside the framebuffer iff the cursor row is, and is then the flip of y |
| Picking.VaoId.Index | examples/Lab_2_Picking/MainWindow.h:50 | every VAO_IDs enumerator indexes inside m_VAOs[NumVAOs] |
| Picking.BufferId.Index | examples/Lab_2_Picking/MainWindow.h:51 | every Buffer_IDs enumerator indexes inside m_buffers[NumBuffers] |
| Picking.EnumIndicesDistinct | examples/Lab_2_Picking/MainWindow.h:50-54 | distinct enumerators name distinct slots of m_VAOs and m_buffers |
| Picking.UploadRegionsTile | examples/Lab_2_Picking/Mainwindow.cpp:276-287 | the four sub-uploads start at 0, follow each other without gap or overlap and fill DataSize |
| Picking.SpiralArrayContents | examples/Lab_2_Picking/Mainwindow.cpp:222-227 | each client array has NbVerticesSpiral entries |
| Picking.BufferHoldsArrays | examples/Lab_2_Picking/Mainwindow.cpp:276-287 | the VBO has DataSize / 12 entries, and entry k of each array sits at that array's offset / 12 + k |
| Picking.SpiralAttribsAt | examples/Lab_2_Picking/Mainwindow.cpp:296-324 | a VAO has an attribute array for an input iff the code sets one, and it points at the intended array's offset in the spiral VBO |
| Picking.VaosFetchTheirArrays | examples/Lab_2_Picking/Mainwindow.cpp:296-324 | spiral and picking VAOs read vertex k's position, (selected) colour and normal from the right array; the picking VAO feeds only positions |
| Picking.SlotOwner | examples/Lab_2_Picking/Mainwindow.cpp:240-272 | each array slot k < 200 is written by exactly one (step, ring) pair of the generating loop, namely (k / 2, k % 2) |
| Picking.IdSpiralsSnoc | examples/Lab_2_Picking/Mainwindow.cpp:357-381 | one more iteration of the identification loop appends the colour and draw of the next spiral |
| Picking.VisibleSpiralDraws | examples/Lab_2_Picking/Mainwindow.cpp:168-182 | spiral i is drawn once over vertices [0, 200), through VAO_SpiralSelected iff it is the selection |
| Picking.VisibleSpiralsDraws | examples/Lab_2_Picking/Mainwindow.cpp:156-183 | the draw calls of RenderScene's loop are the spirals 0..n-1 in order, each through its highlighting or plain VAO |
| Picking.IdSpiralDraws | examples/Lab_2_Picking/Mainwindow.cpp:378-380 | spiral i is drawn once over its whole strip through VAO_SpiralPicking |
| Picking.IdSpiralsDraws | examples/Lab_2_Picking/Mainwindow.cpp:357-381 | the draw calls of the identification loop are the spirals 0..n-1 in order through VAO_SpiralPicking |
| Picking.HighlightsExactlySelected | examples/Lab_2_Picking/Mainwindow.cpp:144-186 | RenderScene draws the ten spirals in order, and the k-th draw uses VAO_SpiralSelected iff k == m_selectedSpiral |
| Picking.BothPassesDrawTheSameSpirals | examples/Lab_2_Picking/Mainwindow.cpp:156-183 | the identification pass draws the same ten spirals, in the same order and vertex ranges, as the visible pass |
| Picking.IdPassColours | examples/Lab_2_Picking/Mainwindow.cpp:366-380 | in the identification pass each spiral's draw comes right after setting the colour that encodes its own index |
| Picking.MapInsert | examples/Lab_2_Picking/Mainwindow.cpp:371 | std::map::insert adds the key, keeps an existing entry, and leaves every other entry unchanged |
| Picking.InsertNextSpiral | examples/Lab_2_Picking/Mainwindow.cpp:367-371 | inserting spiral i into a table that maps exactly keys < i to themselves gives one that maps exactly keys < i + 1 to themselves |
| Picking.IdTableIsIdentity | examples/Lab_2_Picking/Mainwindow.cpp:357-371 | after n iterations the table's keys are exactly 0..n-1 and each maps to itself |
| Picking.IdentityIsIdTable | examples/Lab_2_Picking/Mainwindow.cpp:357-371 | a table whose keys are exactly 0..n-1, each mapped to itself (the loop invariant of the identification pass), is the table the n insertions build |
| Picking.IdTableInverse | examples/Lab_2_Picking/Mainwindow.cpp:357-371 | every spiral's key is in the table and maps back to it, and every entry is a spiral index whose key is the entry's key |
| Picking.LookupIdTable | examples/Lab_2_Picking/Mainwindow.cpp:399-402 | looking up a key in the finished table yields the key for a spiral index and -1 for every other key |
| Picking.PickResolvesFrontMost | examples/Lab_2_Picking/Mainwindow.cpp:340-402 | decoding the pixel of the identification pass gives the front-most spiral's index, and -1 on the white background |
| Picking.PickSelectsFrontMost | examples/Lab_2_Picking/Mainwindow.cpp:386-402 | a click inside a window at most 2^31 rows high selects the spiral seen front-most at (x, height - 1 - y), or -1 |
| Picking.UploadFillsBuffer | examples/Lab_2_Picking/Mainwindow.cpp:283-287 | the four glBufferSubData calls overwrite every entry of the DataSize storage, leaving the four arrays back to back |
| Picking.SpiralAttribsInOrder | examples/Lab_2_Picking/Mainwindow.cpp:296-324 | the seven glVertexAttribPointer calls, in code order, record exactly the intended attribute table |
| Picking.MainWindow.constructor | examples/Lab_2_Picking/MainWindow.h:43-65 | nothing selected (-1), window 1200 x 800, no buffer contents, no VAO attributes |
| Picking.MainWindow.InitializeGL | examples/Lab_2_Picking/Mainwindow.cpp:96-142 | returns 4, 3 or 4 for a failed main shader, a missing vPosition or a failed picking shader, changing no buffer, VAO, binding or command; otherwise 0, the filled VBO, the three VAOs, depth test, and the picking program, picking VAO and spiral VBO left bound |
| Picking.MainWindow.AttribPointer | examples/Lab_2_Picking/Mainwindow.cpp:298-303 | glVertexAttribPointer records the bound buffer and offset for the input in the bound VAO only |
| Picking.MainWindow.InitGeometrySpiral | examples/Lab_2_Picking/Mainwindow.cpp:219-327 | returns 0; the VBO holds the four generated arrays back to back and the VAOs get exactly the intended attribute arrays |
| Picking.MainWindow.UploadSpiral | examples/Lab_2_Picking/Mainwindow.cpp:276-287 | the VBO becomes vertices, colours, selected colours and normals back to back |
| Picking.MainWindow.CreateSpiralVaos | examples/Lab_2_Picking/Mainwindow.cpp:289-324 | the three VAOs get the intended attribute arrays; the picking program and VAO are left bound |
| Picking.MainWindow.RenderScene | examples/Lab_2_Picking/Mainwindow.cpp:144-186 | appends the visible pass for the current selection and clear colour |
| Picking.MainWindow.DrawVisibleSpiral | examples/Lab_2_Picking/Mainwindow.cpp:168-182 | one loop body: spiral i through the highlighting VAO if selected, and the plain VAO is bound again afterwards |
| Picking.MainWindow.PerformSelection | examples/Lab_2_Picking/Mainwindow.cpp:329-404 | appends the identification pass and read at the flipped row; the selection becomes the decoded key's spiral or -1; the clear colour is restored |
| Picking.MainWindow.IdentificationPass | examples/Lab_2_Picking/Mainwindow.cpp:340-384 | appends the white clear, the coloured draws and glFinish; the table looks up every key to the spiral it names or -1 |
| Picking.MainWindow.ClearIdBackground | examples/Lab_2_Picking/Mainwindow.cpp:342-348 | clears to white and leaves the clear colour as it was |
| Picking.MainWindow.DrawIdSpirals | examples/Lab_2_Picking/Mainwindow.cpp:357-381 | appends the ten colour/draw pairs, and the table built alongside resolves every key to its spiral or -1 |
| Picking.MainWindow.DrawIdSpiral | examples/Lab_2_Picking/Mainwindow.cpp:359-380 | one iteration: appends spiral i's colour and draw, and inserts its key into the table |
| Picking.MainWindow.FramebufferSizeCallback | examples/Lab_2_Picking/Mainwindow.cpp:407-411 | the size is stored as unsigned (as-is for non-negative values), the viewport is set, and nothing else changes |
| Picking.MainWindow.MouseButtonCallback | examples/Lab_2_Picking/Mainwindow.cpp:413-428 | only a left press with exactly the shift modifier performs a selection at the cursor, leaving the picking program and VAO bound; any other event changes nothing |
| Picking.FilledStep | examples/Lab_2_Picking/Mainwindow.cpp:239-272 | writing step i's two entries extends a correctly filled prefix of 2i entries to 2i + 2 |
| Picking.GenerateSpiral | examples/Lab_2_Picking/Mainwindow.cpp:222-273 | the loop fills all four arrays with their intended values: entry k of each holds step k / 2, ring k % 2 |
| Picking.WriteStep | examples/Lab_2_Picking/Mainwindow.cpp:239-272 | step i writes entries 2i and 2i + 1 of each array (inner then outer ring) and nothing else |
| ObjLoader.NonEmpty | examples/Lab_2_ObjLoader/MainWindow.cpp:249-252 | the kept meshes are no more than the input, each is non-empty and each comes from the input |
| ObjLoader.NonEmptySingle | examples/Lab_2_ObjLoader/MainWindow.cpp:251-252 | a single mesh is kept iff it has vertices |
| ObjLoader.NonEmptyAppend | examples/Lab_2_ObjLoader/MainWindow.cpp:249-252 | filtering a concatenation filters each part, so the order of meshes is kept |
| ObjLoader.NonEmptyKeepsAll | examples/Lab_2_ObjLoader/MainWindow.cpp:249-252 | every mesh is kept iff every mesh has vertices |
| ObjLoader.NonEmptyDropsAll | examples/Lab_2_ObjLoader/MainWindow.cpp:249-252 | no mesh is kept iff no mesh has vertices |
| ObjLoader.RecordsSnoc | examples/Lab_2_ObjLoader/MainWindow.cpp:254-291 | loading one more mesh appends its record, with the next VAO and VBO names |
| ObjLoader.RecordsCopyMeshes | examples/Lab_2_ObjLoader/MainWindow.cpp:254-263 | record j has the vertex count of kept mesh j and the Kd, Ks and Kn of that mesh's material |
| ObjLoader.NewBuffersUploaded | examples/Lab_2_ObjLoader/MainWindow.cpp:270-276 | after a load, buffer firstVbo + j holds the vertices of kept mesh j, whatever buffers existed before |
| ObjLoader.AttribReadsInBounds | examples/Lab_2_ObjLoader/MainWindow.cpp:270-288 | both attributes of a record read its own VBO with stride 24, and, when numVertices * 24 < 2^31 (the `GLsizei dataSize` does not wrap), every read of a vertex k < numVertices stays inside the buffer |
| ObjLoader.MeshDrawsSnoc | examples/Lab_2_ObjLoader/MainWindow.cpp:176-186 | one more loop iteration appends the next mesh's material, bind and draw |
| ObjLoader.EveryMeshDrawnInOrder | examples/Lab_2_ObjLoader/MainWindow.cpp:176-186 | the draw loop issues 3 commands per mesh, in order: its material, its VAO, and a draw of all its vertices |
| ObjLoader.DrawsAreWholeMeshes | examples/Lab_2_ObjLoader/MainWindow.cpp:176-186 | every draw call in the loop draws a whole mesh from vertex 0 |
| ObjLoader.DeletionsSnoc | examples/Lab_2_ObjLoader/MainWindow.cpp:207-214 | one more release iteration appends the deletion of that mesh's VAO and VBO |
| ObjLoader.NamesSnoc | examples/Lab_2_ObjLoader/MainWindow.cpp:207-214 | the names released so far grow by that mesh's VAO and VBO |
| ObjLoader.EachNameDeletedOnce | examples/Lab_2_ObjLoader/MainWindow.cpp:207-214 | with distinct names, mesh j's VAO is deleted only at step 2j and its VBO only at step 2j + 1 |
| ObjLoader.NewVaosAt | examples/Lab_2_ObjLoader/MainWindow.cpp:265-287 | the VAOs a load creates are exactly the names firstVao .. firstVao + n - 1, the j-th reading buffer firstVbo + j with stride 24 and offsets 0 and 12 |
| ObjLoader.NewBuffersAt | examples/Lab_2_ObjLoader/MainWindow.cpp:266-276 | the buffers a load creates are exactly the names firstVbo .. firstVbo + n - 1, the j-th holding kept mesh j's vertices with the narrowed size |
| ObjLoader.NewObjectsSnoc | examples/Lab_2_ObjLoader/MainWindow.cpp:265-287 | creating the next mesh's VAO and VBO extends the created objects by exactly those two names |
| ObjLoader.LoadThenRelease | examples/Lab_2_ObjLoader/MainWindow.cpp:205-215 | the created objects are exactly those named by the new records; existing objects are kept as they were; deleting the new records' names restores the objects there were before |
| ObjLoader.AppendKeepsValid | examples/Lab_2_ObjLoader/MainWindow.cpp:265-291 | adding a record under fresh names, with its buffer and attributes, keeps every record valid and all names distinct |
| ObjLoader.MainWindow.constructor | examples/Lab_2_ObjLoader/MainWindow.cpp:17-23 | no meshes, no GL objects, no commands |
| ObjLoader.MainWindow.InitializeGL | examples/Lab_2_ObjLoader/MainWindow.cpp:92-115 | depth test is enabled first; returns 4 on a failed shader with no record, name or buffer changed; otherwise 0, one record per non-empty mesh under fresh names, each VBO holding its mesh's vertices, and the VAO and buffer maps changed only by adding the new objects |
| ObjLoader.MainWindow.LoadObjFile | examples/Lab_2_ObjLoader/MainWindow.cpp:237-293 | appends one record per non-empty mesh, in order, under fresh names; each VBO holds that mesh's vertices; the VAO and buffer maps gain exactly the new objects and keep every other entry |
| ObjLoader.MainWindow.LoadMesh | examples/Lab_2_ObjLoader/MainWindow.cpp:250-291 | one loop iteration: an empty mesh is skipped, any other is loaded, and the loop invariant is kept |
| ObjLoader.MainWindow.CreateMeshGL | examples/Lab_2_ObjLoader/MainWindow.cpp:254-291 | creates a VAO and VBO under fresh names, uploads the vertices, sets both attributes and appends the record |
| ObjLoader.MainWindow.RenderScene | examples/Lab_2_ObjLoader/MainWindow.cpp:153-187 | appends a clear, the program bind, and then each mesh's material, bind and draw, in order |
| ObjLoader.MainWindow.ReleaseMeshes | examples/Lab_2_ObjLoader/MainWindow.cpp:205-215 | deletes every record's VAO then VBO in order, drops exactly those names, and empties the list |
| ObjLoader.MainWindow.DeleteMesh | examples/Lab_2_ObjLoader/MainWindow.cpp:212-213 | deletes one record's VAO and VBO and nothing else |
| Animation.InterleaveSnoc | examples/04_Animation/MainWindow.cpp:116-125 | one more loop iteration appends that vertex's six floats |
| Animation.InterleaveRecords | examples/04_Animation/MainWindow.cpp:114-125 | the vector has 6 floats per vertex; floats 6i..6i+2 are vertex i's scaled and offset position, and 6i+3..6i+5 its normal |
| Animation.LayoutMatchesRecords | examples/04_Animation/MainWindow.cpp:131-151 | with stride 24 and offsets 0 and 12, vertex i's position and normal fetch exactly its packed floats |
| Animation.NoReadPastRecords | examples/04_Animation/MainWindow.cpp:131-151 | a fetch for a vertex past the last one reads nothing |
| Animation.DrawReadsPackedVertices | examples/04_Animation/MainWindow.cpp:297 | every vertex drawn by glDrawArrays(0, m_nbVertices) is fetched from the packed buffer |
| Animation.MixEndpoints | examples/04_Animation/MainWindow.cpp:271 | `t * b + (1 - t) * a` is a at t = 0 and b at t = 1 |
| Animation.ModeDispatch | examples/04_Animation/MainWindow.cpp:262-292 | identity iff the mode is outside 0..3; Euler iff mode 0 or 2; quaternion iff mode 1 or 3; mode 2 at t = 0 is mode 0; mode 3 starts from the first quaternion |
| Animation.AnimationTimeInRange | examples/04_Animation/MainWindow.cpp:256-260 | for a non-negative clock the animation time lies in [0, 1) and repeats every 3 seconds |
| Animation.MainWindow.constructor | examples/04_Animation/MainWindow.cpp:21-23 | no vertices, no buffer, no attributes, mode 0, time 0, not animating |
| Animation.MainWindow.InitializeGL | examples/04_Animation/MainWindow.cpp:91-156 | returns 4 on a failed shader, 5 on a failed OBJ load, changing nothing; otherwise 0, with the interleaved buffer, the two enabled attributes and the depth test |
| Animation.MainWindow.PackVertices | examples/04_Animation/MainWindow.cpp:114-125 | returns the interleaved vector of the mesh and counts m_nbVertices to its vertex count |
| Animation.MainWindow.RenderScene | examples/04_Animation/MainWindow.cpp:248-301 | updates the time only when animating; appends clear, bind, program, the mode's transform, the draw of all vertices and flush |
| PositionAndColor.UploadRegionsFillBuffer | examples/02_PositionAndColor/Mainwindow.cpp:97-130 | 27 position floats and 12 colour floats; the two uploads tile the buffer, do not overlap, and cover every byte |
| PositionAndColor.FrameDrawsTileVertices | examples/02_PositionAndColor/Mainwindow.cpp:172-185 | the three draws cover vertices [0, 3), [3, 6) and [6, 9): every vertex once, none twice |
| PositionAndColor.AttribReads | examples/02_PositionAndColor/Mainwindow.cpp:133-140 | every vertex's position reads its three floats; colours exist only for vertices 0..2; reads past them find nothing |
| PositionAndColor.ColorsReadOnlyByFirstTriangle | examples/02_PositionAndColor/Mainwindow.cpp:168-185 | each draw reads positions; it reads vertex colours iff it is the first triangle, whose vertices all have colours |
| PositionAndColor.MainWindow.constructor | examples/02_PositionAndColor/Mainwindow.cpp:14-16 | empty buffer, no attributes, nothing enabled, no commands |
| PositionAndColor.MainWindow.InitializeGL | examples/02_PositionAndColor/Mainwindow.cpp:73-160 | returns 4 on a failed shader and 5 on a missing vPosition or vColor, changing nothing; otherwise 0, with the 156-byte buffer, both attribute arrays, only vPosition enabled, and the grey clear colour |
| PositionAndColor.MainWindow.RenderScene | examples/02_PositionAndColor/Mainwindow.cpp:162-188 | appends the frame (coloured triangle, green triangle, transparent red triangle, flush) and leaves vColor disabled |

## Left out

- Window creation, the GLFW event loop, ImGui, shader source loading and `Initialisation()` with its return codes 1 and 2: they are library plumbing. Shader success and attribute locations are parameters.
- Matrices, trigonometry and float rounding are left out. Vertex data is symbolic in the picking model and exact `real` elsewhere. Transforms in the animation model are symbolic terms, and so are Euler angles, angleAxis, lerp and slerp.
- Animation.TransformFor: the slerp branch leaves `q` default-constructed when `sinTheta <= 0.00001`; the model keeps only the symbolic slerp term, not that guard.
- Picking.MainWindow.MouseButtonCallback: the cursor position is an `Int32` parameter. The `(int)` cast from `double` is not modelled.
- GetRGBA and GetIntFromRGBA are not defined in the modelled files. They are modelled as the byte split of a 32-bit value and its reassembly, and every picking result depends on that.
- Rasterisation and the depth test are an oracle `frontMost` from pixel to the front-most spiral. When `glReadPixels` reads outside the framebuffer, `pixelData` holds undefined bytes, given as `stale`.
- Picking.PixelRead: the framebuffer is taken to be `m_windowWidth` x `m_windowHeight` pixels, and cursor coordinates are taken to be framebuffer pixels. On a high-density display the framebuffer is larger than the window. Also, the window never calls its size callback at start-up, so the initial 1200 x 800 is the window size. Neither case is modelled.
- Picking.MainWindow.CreateSpiralVaos: the `vColor` and `vNormal` locations of the main shader, and the `vPosition` location of the picking shader, are never checked by the code. The model treats them as valid shader inputs. What GL does with a location of -1 is not modelled.
- GL object names come from counters in the model. The driver's `glGen*` name allocation is not modelled beyond giving fresh names.
- ObjLoader: `sizeof(OBJLoader::Vertex)` is taken to be 24, i.e. two packed `float[3]`. The vertex layout header is not part of this model.
- ObjLoader: the OBJ parser is left out. Meshes and materials are parameters, and every non-empty mesh's `materialID` is required to index the materials; the code does not check this.
- ObjLoader.MainWindow.CreateMeshGL: `GLsizei dataSize` is narrowed to 32 bits as in the code. What `glBufferData` does with a wrapped, negative size is not modelled.
- ObjLoader.AttribReadsInBounds: in-bounds reads are proved only for meshes of fewer than 89,478,486 vertices. Above that, `dataSize` wraps in the code, the stored size no longer covers the vertices, and reads can fall outside it.
- ObjLoader and Animation: the `vPosition`/`vNormal` locations are not checked by the code. They are modelled as shader inputs, not integer locations.
- ObjLoader: `FramebufferSizeCallback`, the camera and the light are left out.
- Animation.MainWindow.constructor: the initial mode 0, time 0, animation off, zero Euler angles and quaternion angles, and unit z quaternion axes are assumed. The header that initialises these members is not part of this model.
- Animation.MainWindow.InitializeGL: `m_nbVertices` is unbounded (`nat`). The `GLuint`/`int` width of the count is not modelled. A loaded OBJ with no mesh is excluded by a requires, because the code reads `getMeshes()[0]` without a check.
- Animation.MainWindow.RenderScene: the clock is the `clock` parameter. The time stays as it was when `m_animate` is false.
- PositionAndColor.MainWindow.RenderScene: the code queries `vColor`'s location again each frame; the model uses the location stored by `InitializeGL`. What the fragment shader does with the default colour of a disabled attribute is left out.
- The picking window's unused `VAO_Ray` and `VBO_Ray` appear only as enumerators.
