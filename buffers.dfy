/** Vertex-attribute and index buffers: `buildBuffer` uploads an array and
    describes it, the `init*Buffer` helpers also point a named attribute of
    the program at the new buffer, and the three mesh layouts (an OBJ mesh, an
    array of faces, the two-triangle screen quad) combine them. */
module Buffers {
  import opened Wrappers
  import opened WebGLState
  import opened WebGL
  import GlMath

  /** The descriptor returned for every uploaded array. `numItems` is the
      JavaScript quotient `data.length / itemSize`, not necessarily whole. */
  datatype Buffer = Buffer(buffer: Handle, data: seq<real>, itemSize: nat, numItems: real)

  /** The buffers of one mesh; `None` stands for `null` and `undefined`. */
  datatype MeshBuffers = MeshBuffers(
    indexBuffer: Option<Buffer>,
    normalBuffer: Option<Buffer>,
    textureAddressBuffer: Option<Buffer>,
    textureBuffer: Option<Buffer>,
    vertexBuffer: Option<Buffer>,
    barycentricBuffer: Option<Buffer>)

  /** The arrays of a loaded mesh. */
  datatype MeshArrays = MeshArrays(
    positions: seq<real>,
    normals: seq<real>,
    textures: seq<real>,
    textureAddresses: seq<real>,
    indices: seq<real>)

  /** The two triangles of the screen quad, three coordinates per corner. */
  const BASE_TRIANGLE_MESH: seq<real> := [-1.0, 1.0, 0.0, 1.0, 1.0, 0.0, -1.0, -1.0, 0.0, 1.0, -1.0, 0.0]

  /** `data.length / itemSize`: whole exactly when the length divides. */
  function NumItems(length: nat, itemSize: nat): (n: real)
    requires itemSize > 0
    ensures n * itemSize as real == length as real
    ensures length % itemSize == 0 ==> n == (length / itemSize) as real
  {
    length as real / itemSize as real
  }

  /** What `bufferData` receives: 32-bit floats for ARRAY_BUFFER, unsigned
      16-bit integers for any other target. */
  function UploadOf(target: Target, data: seq<real>): (u: Upload)
    ensures u.Float32? <==> target == ArrayBuffer
    ensures u.Float32? ==> u.floats == data
    ensures u.Uint16? ==> |u.shorts| == |data| && forall k :: 0 <= k < |data| ==> 0 <= u.shorts[k] < 0x1_0000
  {
    if target == ArrayBuffer then Float32(data) else Uint16(ToUint16Array(data))
  }

  /** Element indices that are whole numbers below 2^16 reach the GPU unchanged. */
  lemma IndicesSurviveNarrowing(data: seq<real>)
    requires forall k :: 0 <= k < |data| ==> data[k] == data[k].Floor as real && 0.0 <= data[k] < 65536.0
    ensures var u := UploadOf(ElementArrayBuffer, data);
      forall k :: 0 <= k < |data| ==> u.shorts[k] as real == data[k]
  {
  }

  /** The buffer `o` was uploaded in state `s` as a live buffer holding `u`. */
  ghost predicate Uploaded(s: GLState, o: Option<Buffer>, u: Upload)
  {
    o.Some? && Live(s, o.value.buffer) && s.kinds[o.value.buffer] == BufferKind
    && o.value.buffer in s.data && s.data[o.value.buffer] == u
  }

  /** The attribute `name` of `program` is enabled and reads `size` floats at
      a time from the buffer `o`. */
  ghost predicate Feeds(s: GLState, o: Option<Buffer>, program: Handle, name: string, size: nat)
  {
    o.Some? && Attribute(program, name) in s.enabled && Attribute(program, name) in s.pointers
    && s.pointers[Attribute(program, name)] == Pointer(Some(o.value.buffer), size)
  }

  /** Objects made before stay as they were, and nothing is deleted. */
  ghost predicate Extends(s: GLState, r: GLState)
  {
    && s.next <= r.next && r.deleted == s.deleted
    && (forall h :: h in s.kinds ==> h in r.kinds && r.kinds[h] == s.kinds[h])
    && (forall h :: h in s.data && h < s.next ==> h in r.data && r.data[h] == s.data[h])
  }

  /** Attributes other than `a` keep their pointers and stay enabled, and the
      element buffer binding is untouched. */
  ghost predicate Keeps(s: GLState, r: GLState, a: Attribute)
  {
    && (forall x :: x != a && x in s.pointers ==> x in r.pointers && r.pointers[x] == s.pointers[x])
    && s.enabled <= r.enabled
    && r.elementBuffer == s.elementBuffer
  }

  lemma ExtendsTrans(s: GLState, r: GLState, q: GLState)
    requires Extends(s, r) && Extends(r, q)
    ensures Extends(s, q)
  {
  }

  /** A later state that extends this one still holds what was uploaded. */
  lemma KeepUpload(s: GLState, r: GLState, o: Option<Buffer>, u: Upload)
    requires Valid(s) && Uploaded(s, o, u) && Extends(s, r)
    ensures Uploaded(r, o, u)
  {
  }

  /** ... and still feeds the attributes it fed, unless one was re-pointed. */
  lemma KeepFeed(s: GLState, r: GLState, o: Option<Buffer>, program: Handle, name: string, size: nat, a: Attribute)
    requires Feeds(s, o, program, name, size) && Keeps(s, r, a) && a != Attribute(program, name)
    ensures Feeds(r, o, program, name, size)
  {
  }

  /** `buildBuffer`: a new buffer, bound to `target`, holding `data`; the
      descriptor keeps `data` itself. */
  method BuildBuffer(gl: GL, target: Target, data: seq<real>, itemSize: nat) returns (b: Buffer)
    requires gl.Valid() && itemSize > 0
    modifies gl
    ensures gl.Valid()
    ensures b == Buffer(old(gl.st.next), data, itemSize, NumItems(|data|, itemSize))
    ensures gl.st == WebGLState.BindBuffer(old(gl.st).(next := b.buffer + 1, kinds := old(gl.st.kinds)[b.buffer := BufferKind],
                                                      data := old(gl.st.data)[b.buffer := UploadOf(target, data)]),
                                           target, Some(b.buffer))
  {
    var buffer := gl.CreateObject(BufferKind);
    gl.BindBuffer(target, Some(buffer));
    gl.BufferData(target, UploadOf(target, data));
    b := Buffer(buffer, data, itemSize, NumItems(|data|, itemSize));
  }

  /** The whole state change of `InitAttributeBuffer`. */
  ghost predicate AttributeStep(s: GLState, r: GLState, a: Attribute, h: Handle, data: seq<real>, size: nat)
  {
    r == s.(next := h + 1, kinds := s.kinds[h := BufferKind], data := s.data[h := Float32(data)],
            arrayBuffer := Some(h), pointers := s.pointers[a := Pointer(Some(h), size)], enabled := s.enabled + {a})
  }

  /** A float buffer that the attribute `name` of `program` reads `size` at a time. */
  method InitAttributeBuffer(gl: GL, program: Handle, name: string, data: seq<real>, size: nat) returns (b: Buffer)
    requires gl.Valid() && size > 0
    modifies gl
    ensures gl.Valid()
    ensures b == Buffer(old(gl.st.next), data, size, NumItems(|data|, size))
    ensures AttributeStep(old(gl.st), gl.st, Attribute(program, name), b.buffer, data, size)
    ensures Extends(old(gl.st), gl.st) && gl.st.next == b.buffer + 1 && Keeps(old(gl.st), gl.st, Attribute(program, name))
    ensures Uploaded(gl.st, Some(b), Float32(data)) && Feeds(gl.st, Some(b), program, name, size)
  {
    b := BuildBuffer(gl, ArrayBuffer, data, size);
    gl.VertexAttribPointer(Attribute(program, name), size);
    gl.EnableVertexAttribArray(Attribute(program, name));
  }

  /** `Math.round(n / 3)` for a whole `n`. */
  function RoundThird(n: nat): (r: nat)
    ensures -1 <= 3 * r - n <= 1
  {
    (n + 1) / 3
  }

  /** `initBarycentricBuffer`: nothing unless asked for, otherwise the
      barycentric pattern for `numFaces` faces, three floats per vertex. */
  method InitBarycentricBuffer(gl: GL, program: Handle, numFaces: nat, useBarycentric: bool) returns (b: Option<Buffer>)
    requires gl.Valid()
    modifies gl
    ensures gl.Valid()
    ensures !useBarycentric ==> b.None? && gl.st == old(gl.st)
    ensures useBarycentric ==> (b.Some? && b.value.buffer == old(gl.st.next) && b.value.itemSize == 3
      && b.value.data == GlMath.Barycentric(numFaces) && b.value.numItems == (3 * numFaces) as real
      && AttributeStep(old(gl.st), gl.st, Attribute(program, "aBarycentric"), b.value.buffer, b.value.data, 3)
      && Extends(old(gl.st), gl.st) && gl.st.next == b.value.buffer + 1
      && Keeps(old(gl.st), gl.st, Attribute(program, "aBarycentric"))
      && Uploaded(gl.st, b, Float32(b.value.data)) && Feeds(gl.st, b, program, "aBarycentric", 3))
  {
    if !useBarycentric {
      return None;
    }
    var coords := GlMath.ComputeBarycentricCoords(numFaces);
    var buffer := InitAttributeBuffer(gl, program, "aBarycentric", coords, 3);
    assert |coords| == 9 * numFaces && 9 * numFaces % 3 == 0;
    b := Some(buffer);
  }

  /** The handles of the buffers present in `b`. */
  function Handles(b: MeshBuffers): (hs: seq<Handle>)
  {
    (if b.indexBuffer.Some? then [b.indexBuffer.value.buffer] else [])
    + (if b.normalBuffer.Some? then [b.normalBuffer.value.buffer] else [])
    + (if b.textureAddressBuffer.Some? then [b.textureAddressBuffer.value.buffer] else [])
    + (if b.textureBuffer.Some? then [b.textureBuffer.value.buffer] else [])
    + (if b.vertexBuffer.Some? then [b.vertexBuffer.value.buffer] else [])
    + (if b.barycentricBuffer.Some? then [b.barycentricBuffer.value.buffer] else [])
  }

  /** `initBuffers`: one buffer per array of the mesh, in the order index,
      normal, texture address, texture, vertex, barycentric; the barycentric
      pattern is sized by the vertex count `round(positions.length / 3)`. */
  method InitBuffers(gl: GL, program: Handle, mesh: MeshArrays, useBarycentric: bool) returns (b: MeshBuffers)
    requires gl.Valid()
    modifies gl
    ensures gl.Valid() && Extends(old(gl.st), gl.st) && gl.st.program == old(gl.st.program)
    ensures var n := old(gl.st.next);
      && b.indexBuffer.Some? && b.indexBuffer.value.buffer == n && b.normalBuffer.Some? && b.normalBuffer.value.buffer == n + 1
      && b.textureAddressBuffer.Some? && b.textureAddressBuffer.value.buffer == n + 2
      && b.textureBuffer.Some? && b.textureBuffer.value.buffer == n + 3
      && b.vertexBuffer.Some? && b.vertexBuffer.value.buffer == n + 4
      && (useBarycentric <==> b.barycentricBuffer.Some?)
      && (useBarycentric ==> b.barycentricBuffer.value.buffer == n + 5)
      && gl.st.next == n + if useBarycentric then 6 else 5
    ensures Uploaded(gl.st, b.indexBuffer, Uint16(ToUint16Array(mesh.indices))) && b.indexBuffer.value.itemSize == 1
    ensures Uploaded(gl.st, b.normalBuffer, Float32(mesh.normals)) && b.normalBuffer.value.itemSize == 3
    ensures Uploaded(gl.st, b.textureAddressBuffer, Float32(mesh.textureAddresses)) && b.textureAddressBuffer.value.itemSize == 1
    ensures Uploaded(gl.st, b.textureBuffer, Float32(mesh.textures)) && b.textureBuffer.value.itemSize == 2
    ensures Uploaded(gl.st, b.vertexBuffer, Float32(mesh.positions)) && b.vertexBuffer.value.itemSize == 3
    ensures b.indexBuffer.value.data == mesh.indices && b.normalBuffer.value.data == mesh.normals
      && b.textureAddressBuffer.value.data == mesh.textureAddresses && b.textureBuffer.value.data == mesh.textures
      && b.vertexBuffer.value.data == mesh.positions
    ensures b.indexBuffer.value.numItems == |mesh.indices| as real
    ensures b.vertexBuffer.value.numItems == NumItems(|mesh.positions|, 3)
    ensures useBarycentric ==> (Uploaded(gl.st, b.barycentricBuffer, Float32(GlMath.Barycentric(RoundThird(|mesh.positions|))))
      && b.barycentricBuffer.value.itemSize == 3
      && Feeds(gl.st, b.barycentricBuffer, program, "aBarycentric", 3))
    ensures Feeds(gl.st, b.normalBuffer, program, "aVertexNormal", 3)
      && Feeds(gl.st, b.textureAddressBuffer, program, "aTextureAddress", 1)
      && Feeds(gl.st, b.textureBuffer, program, "aTextureCoord", 2)
      && Feeds(gl.st, b.vertexBuffer, program, "aVertexPosition", 3)
    ensures gl.st.elementBuffer == Some(b.indexBuffer.value.buffer)
  {
    ghost var s0 := gl.st;
    var index := BuildBuffer(gl, ElementArrayBuffer, mesh.indices, 1);
    ghost var s1 := gl.st;
    assert Extends(s0, s1) && Uploaded(s1, Some(index), Uint16(ToUint16Array(mesh.indices)));
    var normal := InitAttributeBuffer(gl, program, "aVertexNormal", mesh.normals, 3);
    ghost var s2 := gl.st;
    KeepUpload(s1, s2, Some(index), Uint16(ToUint16Array(mesh.indices)));
    ExtendsTrans(s0, s1, s2);
    var textureAddress := InitAttributeBuffer(gl, program, "aTextureAddress", mesh.textureAddresses, 1);
    ghost var s3 := gl.st;
    KeepUpload(s2, s3, Some(index), Uint16(ToUint16Array(mesh.indices)));
    KeepUpload(s2, s3, Some(normal), Float32(mesh.normals));
    KeepFeed(s2, s3, Some(normal), program, "aVertexNormal", 3, Attribute(program, "aTextureAddress"));
    ExtendsTrans(s0, s2, s3);
    var texture := InitAttributeBuffer(gl, program, "aTextureCoord", mesh.textures, 2);
    ghost var s4 := gl.st;
    KeepUpload(s3, s4, Some(index), Uint16(ToUint16Array(mesh.indices)));
    KeepUpload(s3, s4, Some(normal), Float32(mesh.normals));
    KeepUpload(s3, s4, Some(textureAddress), Float32(mesh.textureAddresses));
    KeepFeed(s3, s4, Some(normal), program, "aVertexNormal", 3, Attribute(program, "aTextureCoord"));
    KeepFeed(s3, s4, Some(textureAddress), program, "aTextureAddress", 1, Attribute(program, "aTextureCoord"));
    ExtendsTrans(s0, s3, s4);
    var vertex := InitAttributeBuffer(gl, program, "aVertexPosition", mesh.positions, 3);
    ghost var s5 := gl.st;
    KeepUpload(s4, s5, Some(index), Uint16(ToUint16Array(mesh.indices)));
    KeepUpload(s4, s5, Some(normal), Float32(mesh.normals));
    KeepUpload(s4, s5, Some(textureAddress), Float32(mesh.textureAddresses));
    KeepUpload(s4, s5, Some(texture), Float32(mesh.textures));
    KeepFeed(s4, s5, Some(normal), program, "aVertexNormal", 3, Attribute(program, "aVertexPosition"));
    KeepFeed(s4, s5, Some(textureAddress), program, "aTextureAddress", 1, Attribute(program, "aVertexPosition"));
    KeepFeed(s4, s5, Some(texture), program, "aTextureCoord", 2, Attribute(program, "aVertexPosition"));
    ExtendsTrans(s0, s4, s5);
    var barycentric := InitBarycentricBuffer(gl, program, RoundThird(|mesh.positions|), useBarycentric);
    if useBarycentric {
      ghost var s6 := gl.st;
      KeepUpload(s5, s6, Some(index), Uint16(ToUint16Array(mesh.indices)));
      KeepUpload(s5, s6, Some(normal), Float32(mesh.normals));
      KeepUpload(s5, s6, Some(textureAddress), Float32(mesh.textureAddresses));
      KeepUpload(s5, s6, Some(texture), Float32(mesh.textures));
      KeepUpload(s5, s6, Some(vertex), Float32(mesh.positions));
      KeepFeed(s5, s6, Some(normal), program, "aVertexNormal", 3, Attribute(program, "aBarycentric"));
      KeepFeed(s5, s6, Some(textureAddress), program, "aTextureAddress", 1, Attribute(program, "aBarycentric"));
      KeepFeed(s5, s6, Some(texture), program, "aTextureCoord", 2, Attribute(program, "aBarycentric"));
      KeepFeed(s5, s6, Some(vertex), program, "aVertexPosition", 3, Attribute(program, "aBarycentric"));
      ExtendsTrans(s0, s5, s6);
    } else {
      assert gl.st == s5;
    }
    assert Extends(s0, gl.st);
    b := MeshBuffers(Some(index), Some(normal), Some(textureAddress), Some(texture), Some(vertex), barycentric);
  }

  /** `faceArray.flat()`: the vertices of every face, face by face. */
  function Flat(faces: seq<seq<GlMath.Vector3>>): (vs: seq<GlMath.Vector3>)
  {
    if faces == [] then [] else Flat(faces[..|faces| - 1]) + faces[|faces| - 1]
  }

  /** `Object.values` of each vertex, flattened: x, y, z per vertex. */
  function Coordinates(vs: seq<GlMath.Vector3>): (r: seq<real>)
    ensures |r| == 3 * |vs|
  {
    if vs == [] then [] else
      var v := vs[|vs| - 1];
      Coordinates(vs[..|vs| - 1]) + [v.x, v.y, v.z]
  }

  /** Vertex `i` occupies positions 3i, 3i+1, 3i+2. */
  lemma {:induction false} CoordinatesAt(vs: seq<GlMath.Vector3>, i: nat)
    requires i < |vs|
    ensures Coordinates(vs)[3 * i..3 * i + 3] == [vs[i].x, vs[i].y, vs[i].z]
  {
    var r := Coordinates(vs);
    var prev := Coordinates(vs[..|vs| - 1]);
    if i == |vs| - 1 {
      assert r[3 * i..3 * i + 3] == r[|prev|..];
    } else {
      CoordinatesAt(vs[..|vs| - 1], i);
      assert r[3 * i..3 * i + 3] == prev[3 * i..3 * i + 3];
    }
  }

  /** Every face is a triangle. */
  predicate Triangles(faces: seq<seq<GlMath.Vector3>>)
  {
    forall i :: 0 <= i < |faces| ==> |faces[i]| == 3
  }

  /** With triangles, vertex j of face i is flattened vertex 3i + j. */
  lemma {:induction false} FlatTriangles(faces: seq<seq<GlMath.Vector3>>, i: nat, j: nat)
    requires Triangles(faces) && i < |faces| && j < 3
    ensures |Flat(faces)| == 3 * |faces|
    ensures Flat(faces)[3 * i + j] == faces[i][j]
  {
    var last := |faces| - 1;
    if i < last {
      FlatTriangles(faces[..last], i, j);
    } else if last > 0 {
      FlatTriangles(faces[..last], 0, 0);
    }
  }

  /** The positions uploaded for a face array: nine floats per triangle, the
      coordinates of vertex j of face i at 9i + 3j. */
  lemma FacePositions(faces: seq<seq<GlMath.Vector3>>, i: nat, j: nat)
    requires Triangles(faces) && i < |faces| && j < 3
    ensures |Coordinates(Flat(faces))| == 9 * |faces|
    ensures Coordinates(Flat(faces))[9 * i + 3 * j..9 * i + 3 * j + 3] == [faces[i][j].x, faces[i][j].y, faces[i][j].z]
  {
    FlatTriangles(faces, i, j);
    CoordinatesAt(Flat(faces), 3 * i + j);
  }

  /** `initMeshBuffersFromFaceArray`: vertex and flat-normal buffers and, when
      asked for, one barycentric block per face; no index, texture or texture
      address buffer. A face with fewer than three vertices makes the normal
      computation throw after the vertex buffer has been made. */
  method InitMeshBuffersFromFaceArray(gl: GL, program: Handle, faces: seq<seq<GlMath.Vector3>>, useBarycentric: bool,
                                      sqrt: real -> real)
    returns (r: Result<MeshBuffers, JsError>)
    requires gl.Valid()
    modifies gl
    ensures gl.Valid() && Extends(old(gl.st), gl.st)
    ensures r.Ok? <==> GlMath.ComputeFaceNormals(faces, sqrt).Some?
    ensures r.Err? ==> gl.st.next == old(gl.st.next) + 1
    ensures r.Ok? ==> var b := r.value;
      && b.indexBuffer.None? && b.textureBuffer.None? && b.textureAddressBuffer.None?
      && Uploaded(gl.st, b.vertexBuffer, Float32(Coordinates(Flat(faces))))
      && Feeds(gl.st, b.vertexBuffer, program, "aVertexPosition", 3)
      && Uploaded(gl.st, b.normalBuffer, Float32(GlMath.ComputeFaceNormals(faces, sqrt).value))
      && Feeds(gl.st, b.normalBuffer, program, "aVertexNormal", 3)
      && (useBarycentric <==> b.barycentricBuffer.Some?)
      && (useBarycentric ==> Uploaded(gl.st, b.barycentricBuffer, Float32(GlMath.Barycentric(|faces|)))
                             && Feeds(gl.st, b.barycentricBuffer, program, "aBarycentric", 3))
  {
    var positions := Coordinates(Flat(faces));
    var vertex := InitAttributeBuffer(gl, program, "aVertexPosition", positions, 3);
    var normals := GlMath.ComputeFaceNormals(faces, sqrt);
    if normals.None? {
      return Err(TypeError("Cannot read properties of undefined (reading 'x')"));
    }
    var normal := InitAttributeBuffer(gl, program, "aVertexNormal", normals.value, 3);
    var barycentric := InitBarycentricBuffer(gl, program, |faces|, useBarycentric);
    r := Ok(MeshBuffers(None, Some(normal), None, None, Some(vertex), barycentric));
  }

  /** `initBaseMeshBuffers`: the screen quad, four corners of three floats,
      fed to `aBaseVertexPosition`. */
  method InitBaseMeshBuffers(gl: GL, program: Handle) returns (b: Buffer)
    requires gl.Valid()
    modifies gl
    ensures gl.Valid() && Extends(old(gl.st), gl.st)
    ensures b.data == BASE_TRIANGLE_MESH && b.itemSize == 3 && b.numItems == 4.0
    ensures Uploaded(gl.st, Some(b), Float32(BASE_TRIANGLE_MESH)) && b.buffer == old(gl.st.next)
    ensures Feeds(gl.st, Some(b), program, "aBaseVertexPosition", 3)
    ensures gl.st.next == old(gl.st.next) + 1
  {
    b := BuildBuffer(gl, ArrayBuffer, BASE_TRIANGLE_MESH, 3);
    gl.EnableVertexAttribArray(Attribute(program, "aBaseVertexPosition"));
    gl.VertexAttribPointer(Attribute(program, "aBaseVertexPosition"), 3);
  }
}
