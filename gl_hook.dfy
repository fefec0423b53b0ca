/** `src/hooks/gl.ts`: the hook that builds a demo's renderer once its canvas
    exists, and the teardown that releases the GL objects when the demo
    unmounts. */
module GlHook {
  import opened Wrappers
  import opened WebGLState
  import opened WebGL
  import opened Refs
  import opened Uniforms
  import opened Buffers
  import opened Initialize
  import opened TextureLoader
  import GlMath
  import MtlLoader

  /** `canvasRef.current`: not yet rendered, cleared by React on unmount, or
      the mounted canvas. */
  datatype CanvasRef = Undefined | Null | Mounted

  /** `InitializeProps`. An absent optional ref is `null`; `materials` is
      `mesh.materials`, absent without a mesh. */
  datatype Props = Props(
    gl: Ref<GL?>,
    programRef: Ref?<Option<Handle>>,
    uniformLocations: Ref<Locations>,
    outlineUniformLocations: Ref?<Locations>,
    canvas: CanvasRef,
    fragmentSource: string,
    vertexSource: string,
    uniforms: Table,
    FBOA: Ref?<Option<FBO>>,
    FBOB: Ref?<Option<FBO>>,
    faceArray: Option<seq<seq<GlMath.Vector3>>>,
    buffersRef: Ref?<Option<MeshBuffers>>,
    mesh: Option<MeshArrays>,
    materials: Option<seq<MtlLoader.Material>>,
    meshType: MeshType,
    outlineProgramRef: Ref?<Option<Handle>>,
    baseVertexBufferRef: Ref?<Option<Buffer>>,
    imageTextures: Option<seq<Named<string>>>,
    texturesRef: Ref?<Option<seq<Handle>>>,
    loadedShadersRef: Ref?<Option<LoadedShaders>>)

  /** Why `initializeGL` stopped: an exception, or a texture promise that
      rejected. */
  datatype Failure = Thrown(error: JsError) | Rejected(rejection: Rejection)

  const DESTRUCTURE_ERROR := "Cannot destructure property 'gl' of undefined"

  // ---------------------------------------------------------------------------
  // Initialisation

  /** `Object.values(loadedTextures).map(({ texture }) => texture)`. */
  function TextureHandles(textures: seq<Named<Texture>>): (r: seq<Handle>)
    ensures |r| == |textures| && forall k :: 0 <= k < |r| ==> r[k] == textures[k].value.texture
  {
    seq(|textures|, k requires 0 <= k < |textures| => textures[k].value.texture)
  }

  /** What `texturesRef` receives: the handles when images were loaded, and
      `undefined` from the material path, whose promise resolves to nothing. */
  function TexturesRefValue(loaded: Loaded): (r: Option<seq<Handle>>)
  {
    if loaded.Images? then Some(TextureHandles(loaded.textures)) else None
  }

  /** The handles `texturesRef` holds after an image load are the fresh
      handles from `base` on, one per image that has a source. */
  lemma ImageHandles(images: seq<Named<string>>, load: Loader, base: nat)
    ensures var r := TexturesRefValue(Images(Made(Kept(images, load), load, base)));
      && r.Some? && |r.value| == |Kept(images, load)|
      && forall k :: 0 <= k < |r.value| ==> r.value[k] == base + k
  {
    MadeEntries(Kept(images, load), load, base);
  }

  /** `initializeMeshAndProgram`: the mesh's buffers, then the refs that the
      render loop reads; an exception from `initializeMesh` leaves the refs
      unassigned. */
  method InitializeMeshAndProgram(p: Props, ctx: GL, program: Handle, outlineProgram: Option<Handle>, sqrt: real -> real)
    returns (r: Result<(), JsError>)
    requires ctx.Valid() && (p.programRef != null ==> p.programRef != p.outlineProgramRef)
    modifies ctx, p.buffersRef, p.baseVertexBufferRef, p.gl, p.programRef, p.outlineProgramRef
    ensures ctx.Valid() && Extends(old(ctx.st), ctx.st)
    ensures r.Err? ==>
      && p.gl.current == old(p.gl.current) && Current(p.programRef) == old(Current(p.programRef))
      && Current(p.outlineProgramRef) == old(Current(p.outlineProgramRef))
    ensures r.Ok? ==>
      && p.gl.current == ctx
      && (p.programRef != null ==> p.programRef.current == Some(program))
      && (p.outlineProgramRef != null ==> p.outlineProgramRef.current == outlineProgram)
  {
    r := InitializeMesh(ctx, program, outlineProgram, p.meshType, p.faceArray, p.mesh, p.buffersRef,
                        p.baseVertexBufferRef, sqrt);
    if r.Err? {
      return;
    }
    p.gl.current := ctx;
    if p.programRef != null {
      p.programRef.current := Some(program);
    }
    if p.outlineProgramRef != null {
      p.outlineProgramRef.current := outlineProgram;
    }
  }

  /** The texture step of `initializeGL`: textures are loaded only when the
      demo names images or its mesh has materials, and `texturesRef` receives
      what the load resolved to. */
  method LoadDemoTextures(p: Props, ctx: GL, load: Loader) returns (r: Result<(), Rejection>)
    requires ctx.Valid()
    modifies ctx, p.texturesRef
    ensures ctx.Valid() && Grown(old(ctx.st), ctx.st) && ctx.st.program == old(ctx.st.program)
    ensures p.imageTextures.None? && p.materials.None? ==> r.Ok? && ctx.st == old(ctx.st) && Current(p.texturesRef) == old(Current(p.texturesRef))
    ensures r.Ok? && p.texturesRef != null && p.imageTextures.Some? ==>
      p.texturesRef.current == TexturesRefValue(Images(Made(Kept(p.imageTextures.value, load), load, old(ctx.st.next))))
    ensures r.Ok? && p.texturesRef != null && p.imageTextures.None? && p.materials.Some? ==> p.texturesRef.current.None?
    ensures p.imageTextures.Some? ==> (r.Err? <==> exists e :: e in p.imageTextures.value && load(e.value).None?)
  {
    if p.imageTextures.None? && p.materials.None? {
      return Ok(());
    }
    var loaded := LoadTextures(ctx, p.uniformLocations.current, p.imageTextures, p.materials, load);
    if loaded.Err? {
      return Err(loaded.error);
    }
    if p.texturesRef != null {
      p.texturesRef.current := TexturesRefValue(loaded.value);
    }
    r := Ok(());
  }

  /** The part of `initializeGL` after the renderer: the textures, then the
      mesh and the refs the render loop reads. */
  method LoadAndMesh(p: Props, ctx: GL, program: Handle, outlineProgram: Option<Handle>, load: Loader, sqrt: real -> real)
    returns (r: Result<(), Failure>)
    requires ctx.Valid() && (p.programRef != null ==> p.programRef != p.outlineProgramRef)
    modifies ctx, p.gl, p.buffersRef, p.baseVertexBufferRef, p.programRef, p.outlineProgramRef, p.texturesRef
    ensures ctx.Valid()
    ensures r.Err? ==>
      && p.gl.current == old(p.gl.current) && Current(p.programRef) == old(Current(p.programRef))
      && Current(p.outlineProgramRef) == old(Current(p.outlineProgramRef))
    ensures r.Ok? && p.texturesRef != null && p.imageTextures.Some? ==>
      p.texturesRef.current == TexturesRefValue(Images(Made(Kept(p.imageTextures.value, load), load, old(ctx.st.next))))
    ensures r.Ok? ==>
      && p.gl.current == ctx
      && (p.programRef != null ==> p.programRef.current == Some(program))
      && (p.outlineProgramRef != null ==> p.outlineProgramRef.current == outlineProgram)
  {
    var textures := LoadDemoTextures(p, ctx, load);
    if textures.Err? {
      return Err(Rejected(textures.error));
    }
    ghost var loaded := Current(p.texturesRef);
    var meshed := InitializeMeshAndProgram(p, ctx, program, outlineProgram, sqrt);
    if meshed.Err? {
      return Err(Thrown(meshed.error));
    }
    assert Current(p.texturesRef) == loaded;
    r := Ok(());
  }

  /** `const { program, outlineProgram } = initializeRenderer(...)`: the
      destructuring throws when the canvas is gone and nothing came back. */
  method CreateRenderer(p: Props, ctx: GL, mounted: bool, outlineVertexSource: string, outlineFragmentSource: string)
    returns (r: Result<Renderer, JsError>, ghost after: nat)
    requires ctx.Valid()
    requires p.uniformLocations != p.outlineUniformLocations && (p.FBOA != null ==> p.FBOA != p.FBOB)
    modifies ctx, p.uniformLocations, p.FBOA, p.FBOB, p.outlineUniformLocations, p.loadedShadersRef
    ensures ctx.Valid()
    ensures !mounted ==> r == Err(TypeError(DESTRUCTURE_ERROR)) && ctx.st == old(ctx.st)
    ensures r.Ok? ==> r.value.program == old(ctx.st.next) + 2 && r.value.program < after && after == ctx.st.next
    ensures r.Ok? ==> (r.value.outlineProgram.Some? <==> p.outlineUniformLocations != null)
    ensures p.gl.current == old(p.gl.current) && Current(p.programRef) == old(Current(p.programRef))
      && Current(p.outlineProgramRef) == old(Current(p.outlineProgramRef))
  {
    var renderer := InitializeRenderer(ctx, mounted, p.uniformLocations, p.vertexSource, p.fragmentSource,
                                       p.uniforms, p.FBOA, p.FBOB, p.outlineUniformLocations, p.loadedShadersRef,
                                       outlineVertexSource, outlineFragmentSource);
    if renderer.Err? {
      return Err(renderer.error), 0;
    }
    if renderer.value.None? {
      return Err(TypeError(DESTRUCTURE_ERROR)), 0;
    }
    r := Ok(renderer.value.value);
    after := ctx.st.next;
  }

  /** `initializeGL` once the canvas ref has been rendered: `mounted` says
      whether it still holds the canvas. */
  method InitializeRendered(p: Props, ctx: GL, mounted: bool, outlineVertexSource: string, outlineFragmentSource: string,
                            load: Loader, sqrt: real -> real)
    returns (r: Result<(), Failure>, ghost textureBase: int)
    requires ctx.Valid()
    requires p.uniformLocations != p.outlineUniformLocations && (p.FBOA != null ==> p.FBOA != p.FBOB)
    requires p.programRef != null ==> p.programRef != p.outlineProgramRef
    modifies ctx, p.gl, p.uniformLocations, p.FBOA, p.FBOB, p.outlineUniformLocations, p.loadedShadersRef,
             p.buffersRef, p.baseVertexBufferRef, p.programRef, p.outlineProgramRef, p.texturesRef
    ensures ctx.Valid()
    ensures !mounted ==> r == Err(Thrown(TypeError(DESTRUCTURE_ERROR))) && ctx.st == old(ctx.st)
    ensures r.Err? ==>
      && p.gl.current == old(p.gl.current) && Current(p.programRef) == old(Current(p.programRef))
      && Current(p.outlineProgramRef) == old(Current(p.outlineProgramRef))
    ensures r.Ok? && p.texturesRef != null && p.imageTextures.Some? ==>
      && old(ctx.st.next) + 2 < textureBase
      && p.texturesRef.current == TexturesRefValue(Images(Made(Kept(p.imageTextures.value, load), load, textureBase)))
    ensures r.Ok? ==>
      && p.gl.current == ctx
      && (p.programRef != null ==> p.programRef.current == Some(old(ctx.st.next) + 2))
  {
    var renderer, after := CreateRenderer(p, ctx, mounted, outlineVertexSource, outlineFragmentSource);
    textureBase := after;
    if renderer.Err? {
      r := Err(Thrown(renderer.error));
    } else {
      r := LoadAndMesh(p, ctx, renderer.value.program, renderer.value.outlineProgram, load, sqrt);
    }
  }

  /** `initializeGL`, run once the timeout of the mount effect fires. `ctx`
      is the context the canvas yields. Without a rendered canvas nothing
      happens; a canvas React has already cleared makes `initializeRenderer`
      return nothing, which the destructuring rejects. The textures get
      handles after the renderer's, and the refs the render loop reads are
      assigned only once everything before succeeded. */
  method InitializeGL(p: Props, ctx: GL, outlineVertexSource: string, outlineFragmentSource: string,
                      load: Loader, sqrt: real -> real)
    returns (r: Result<(), Failure>, ghost textureBase: int)
    requires ctx.Valid()
    requires p.uniformLocations != p.outlineUniformLocations && (p.FBOA != null ==> p.FBOA != p.FBOB)
    requires p.programRef != null ==> p.programRef != p.outlineProgramRef
    modifies ctx, p.gl, p.uniformLocations, p.FBOA, p.FBOB, p.outlineUniformLocations, p.loadedShadersRef,
             p.buffersRef, p.baseVertexBufferRef, p.programRef, p.outlineProgramRef, p.texturesRef
    ensures ctx.Valid()
    ensures p.canvas == Undefined ==> r.Ok? && ctx.st == old(ctx.st) && p.gl.current == old(p.gl.current)
    ensures p.canvas == Null ==> r == Err(Thrown(TypeError(DESTRUCTURE_ERROR))) && ctx.st == old(ctx.st)
    ensures r.Err? ==>
      && p.gl.current == old(p.gl.current) && Current(p.programRef) == old(Current(p.programRef))
      && Current(p.outlineProgramRef) == old(Current(p.outlineProgramRef))
    ensures p.canvas == Mounted && r.Ok? && p.texturesRef != null && p.imageTextures.Some? ==>
      && old(ctx.st.next) + 2 < textureBase
      && p.texturesRef.current == TexturesRefValue(Images(Made(Kept(p.imageTextures.value, load), load, textureBase)))
    ensures p.canvas == Mounted && r.Ok? ==>
      && p.gl.current == ctx
      && (p.programRef != null ==> p.programRef.current == Some(old(ctx.st.next) + 2))
  {
    if p.canvas == Undefined {
      return Ok(()), ctx.st.next;
    }
    r, textureBase := InitializeRendered(p, ctx, p.canvas == Mounted, outlineVertexSource, outlineFragmentSource, load, sqrt);
  }

  // ---------------------------------------------------------------------------
  // Teardown

  /** `ref && ref.current`, with `null` for an absent ref. */
  function Current<T>(ref: Ref?<Option<T>>): Option<T>
    reads ref
  {
    if ref == null then None else ref.current
  }

  /** The present buffer handles of a mesh record, in the record's key order. */
  function BufferList(b: MeshBuffers): seq<Handle>
  {
    (if b.indexBuffer.Some? then [b.indexBuffer.value.buffer] else [])
      + (if b.normalBuffer.Some? then [b.normalBuffer.value.buffer] else [])
      + (if b.textureAddressBuffer.Some? then [b.textureAddressBuffer.value.buffer] else [])
      + (if b.textureBuffer.Some? then [b.textureBuffer.value.buffer] else [])
      + (if b.vertexBuffer.Some? then [b.vertexBuffer.value.buffer] else [])
      + (if b.barycentricBuffer.Some? then [b.barycentricBuffer.value.buffer] else [])
  }

  /** The deletions `cleanUpGL` makes before the framebuffers, in order: the
      loaded textures, the mesh buffers present and the base vertex buffer. */
  function DataOrder(textures: Option<seq<Handle>>, buffers: Option<MeshBuffers>, base: Option<Buffer>): seq<Handle>
  {
    (if textures.Some? then textures.value else [])
      + (if buffers.Some? then BufferList(buffers.value) else [])
      + (if base.Some? then [base.value.buffer] else [])
  }

  /** The framebuffer deletions of `cleanUpGL` as written: FBO A's
      framebuffer and depth buffer, then FBO B's framebuffer followed by FBO
      A's depth buffer once more. */
  function FramebufferOrderAsWritten(fboA: Option<FBO>, fboB: Option<FBO>): seq<Handle>
  {
    (if fboA.Some? then [fboA.value.buffer, fboA.value.depthBuffer] else [])
      + (if fboB.Some? then [fboB.value.buffer] + (if fboA.Some? then [fboA.value.depthBuffer] else []) else [])
  }

  /** Each FBO's own framebuffer and depth buffer. */
  function FramebufferOrder(fboA: Option<FBO>, fboB: Option<FBO>): seq<Handle>
  {
    (if fboA.Some? then [fboA.value.buffer, fboA.value.depthBuffer] else [])
      + (if fboB.Some? then [fboB.value.buffer, fboB.value.depthBuffer] else [])
  }

  /** The state after deleting `hs` one by one: exactly those of them that
      were ever created are marked deleted, and nothing else changes. */
  function DeletingAll(s: GLState, hs: seq<Handle>): (r: GLState)
    requires Valid(s)
    ensures Valid(r) && r == s.(deleted := r.deleted)
    ensures forall h :: h in r.deleted <==> h in s.deleted || (h in hs && h in s.kinds)
  {
    if hs == [] then s
    else
      var init := hs[..|hs| - 1];
      assert forall h :: h in hs <==> h in init || h == hs[|hs| - 1] by {
        assert hs == init + [hs[|hs| - 1]];
      }
      Delete(DeletingAll(s, init), hs[|hs| - 1])
  }

  /** After deleting `hs`, a handle is live exactly when it was and is not
      among them. */
  lemma DeletingAllLive(s: GLState, hs: seq<Handle>, h: Handle)
    requires Valid(s)
    ensures Live(DeletingAll(s, hs), h) <==> Live(s, h) && h !in hs
  {
  }

  /** `hs.map(h => gl.deleteX(h))`. */
  method DeleteHandles(gl: GL, hs: seq<Handle>)
    requires gl.Valid()
    modifies gl
    ensures gl.Valid() && gl.st == DeletingAll(old(gl.st), hs)
  {
    var i := 0;
    while i < |hs|
      invariant 0 <= i <= |hs| && gl.Valid()
      invariant gl.st == DeletingAll(old(gl.st), hs[..i])
    {
      gl.DeleteObject(hs[i]);
      assert hs[..i + 1][..i] == hs[..i];
      i := i + 1;
    }
    assert hs[..i] == hs;
  }

  /** The texture units after `bindTexture(TEXTURE_2D, null)` on units
      `0 .. n - 1`. */
  function ClearedUnits(units: map<nat, Option<Handle>>, n: nat): map<nat, Option<Handle>>
  {
    if n == 0 then units else ClearedUnits(units, n - 1)[n - 1 := None]
  }

  /** The bindings `cleanUpGL` clears before deleting anything, on a context
      with `maxUnits` texture units: the last unit visited stays active. */
  function Unbound(s: GLState, maxUnits: nat): GLState
  {
    s.(activeUnit := if maxUnits == 0 then s.activeUnit else maxUnits - 1,
       units := ClearedUnits(s.units, maxUnits), arrayBuffer := None, elementBuffer := None,
       renderbuffer := None, framebuffer := None)
  }

  /** After the unit loop, every unit below the limit is empty and the
      others keep their texture. */
  lemma {:induction false} UnboundTextures(s: GLState, maxUnits: nat, u: nat)
    ensures TextureAt(Unbound(s, maxUnits), u) == if u < maxUnits then None else TextureAt(s, u)
  {
    if maxUnits > 0 {
      UnboundTextures(s, maxUnits - 1, u);
    }
  }

  /** Teardown leaves no other binding behind either. */
  lemma UnboundBindings(s: GLState, maxUnits: nat)
    ensures var r := Unbound(s, maxUnits);
      r.arrayBuffer.None? && r.elementBuffer.None? && r.renderbuffer.None? && r.framebuffer.None?
      && SameObjects(s, r) && r.program == s.program
  {
  }

  /** The unit loop of `cleanUpGL`. */
  method UnbindTextureUnits(gl: GL)
    requires gl.Valid()
    modifies gl
    ensures gl.Valid()
    ensures gl.st == old(gl.st).(activeUnit := Unbound(old(gl.st), gl.maxTextureUnits).activeUnit,
                                 units := ClearedUnits(old(gl.st.units), gl.maxTextureUnits))
  {
    var unit := 0;
    while unit < gl.maxTextureUnits
      invariant 0 <= unit <= gl.maxTextureUnits && gl.Valid()
      invariant gl.st == old(gl.st).(activeUnit := Unbound(old(gl.st), unit).activeUnit,
                                     units := ClearedUnits(old(gl.st.units), unit))
    {
      gl.ActiveTexture(unit);
      gl.BindTexture(None);
      unit := unit + 1;
    }
  }

  /** The unbinding that opens `cleanUpGL`. */
  method UnbindAll(gl: GL)
    requires gl.Valid()
    modifies gl
    ensures gl.Valid() && gl.st == Unbound(old(gl.st), gl.maxTextureUnits)
  {
    UnbindTextureUnits(gl);
    gl.BindBuffer(ArrayBuffer, None);
    gl.BindBuffer(ElementArrayBuffer, None);
    gl.BindRenderbuffer(None);
    gl.BindFramebuffer(None);
  }

  /** The throw of the last step of `cleanUpGL` when FBO B is present but FBO
      A is not: reading `current` of an absent ref, or `depthBuffer` of an
      empty one. */
  function ReadError(noRefA: bool): JsError
  {
    TypeError(if noRefA then "Cannot read properties of undefined (reading 'current')"
              else "Cannot read properties of undefined (reading 'depthBuffer')")
  }

  /** The body of `cleanUpGL` once a context is there: every texture unit
      is emptied and the buffer, renderbuffer and framebuffer bindings
      cleared; then the deletions of `data` and `FramebufferOrderAsWritten`,
      the last of which throws when FBO B is present without FBO A. The
      context is lost last, unless that throw came first. */
  method TearDown(gl: GL, data: seq<Handle>, fboA: Option<FBO>, fboB: Option<FBO>, noRefA: bool)
    returns (r: Result<(), JsError>)
    requires gl.Valid()
    modifies gl
    ensures gl.Valid()
    ensures r.Err? <==> fboB.Some? && fboA.None?
    ensures r.Err? ==> r.error == ReadError(noRefA)
    ensures gl.st == DeletingAll(Unbound(old(gl.st), gl.maxTextureUnits), data + FramebufferOrderAsWritten(fboA, fboB))
                       .(lost := r.Ok? || old(gl.st.lost))
  {
    UnbindAll(gl);
    DeleteHandles(gl, data + FramebufferOrderAsWritten(fboA, fboB));
    if fboB.Some? && fboA.None? {
      return Err(ReadError(noRefA));
    }
    gl.LoseContext();
    r := Ok(());
  }

  /** `TearDown` with FBO B's own depth buffer released: it no longer throws,
      and every deletion happens before the context is lost. */
  method TearDownFixed(gl: GL, data: seq<Handle>, fboA: Option<FBO>, fboB: Option<FBO>)
    requires gl.Valid()
    modifies gl
    ensures gl.Valid()
    ensures gl.st == DeletingAll(Unbound(old(gl.st), gl.maxTextureUnits), data + FramebufferOrder(fboA, fboB)).(lost := true)
  {
    UnbindAll(gl);
    DeleteHandles(gl, data + FramebufferOrder(fboA, fboB));
    gl.LoseContext();
  }

  /** `cleanUpGL`: nothing without a context, `TearDown` of the refs' current
      values otherwise. */
  method CleanUpGL(p: Props) returns (r: Result<(), JsError>)
    requires p.gl.current != null ==> p.gl.current.Valid()
    modifies p.gl.current
    ensures p.gl.current == old(p.gl.current)
    ensures p.gl.current == null ==> r.Ok?
    ensures p.gl.current != null ==>
      var gl := p.gl.current;
      && gl.Valid()
      && (r.Err? <==> old(Current(p.FBOB)).Some? && old(Current(p.FBOA)).None?)
      && gl.st == DeletingAll(Unbound(old(gl.st), gl.maxTextureUnits),
                              old(DataOrder(Current(p.texturesRef), Current(p.buffersRef), Current(p.baseVertexBufferRef))
                                  + FramebufferOrderAsWritten(Current(p.FBOA), Current(p.FBOB)))).(lost := r.Ok? || old(gl.st.lost))
  {
    var gl := p.gl.current;
    if gl == null {
      return Ok(());
    }
    var data := DataOrder(Current(p.texturesRef), Current(p.buffersRef), Current(p.baseVertexBufferRef));
    r := TearDown(gl, data, Current(p.FBOA), Current(p.FBOB), p.FBOA == null);
  }

  /** `cleanUpGL` with `TearDownFixed`. */
  method CleanUpGLFixed(p: Props)
    requires p.gl.current != null ==> p.gl.current.Valid()
    modifies p.gl.current
    ensures p.gl.current == old(p.gl.current)
    ensures p.gl.current != null ==>
      var gl := p.gl.current;
      && gl.Valid()
      && gl.st == DeletingAll(Unbound(old(gl.st), gl.maxTextureUnits),
                              old(DataOrder(Current(p.texturesRef), Current(p.buffersRef), Current(p.baseVertexBufferRef))
                                  + FramebufferOrder(Current(p.FBOA), Current(p.FBOB)))).(lost := true)
  {
    var gl := p.gl.current;
    if gl == null {
      return;
    }
    var data := DataOrder(Current(p.texturesRef), Current(p.buffersRef), Current(p.baseVertexBufferRef));
    TearDownFixed(gl, data, Current(p.FBOA), Current(p.FBOB));
  }

  // ---------------------------------------------------------------------------
  // What teardown releases

  /** As written, FBO B's depth buffer stays live after teardown unless some
      other released handle happens to be it, while the corrected teardown
      ends it. */
  lemma DepthBufferLeaks(s: GLState, textures: Option<seq<Handle>>, buffers: Option<MeshBuffers>, base: Option<Buffer>,
                         fboA: FBO, fboB: FBO)
    requires Valid(s) && Live(s, fboB.depthBuffer)
    requires fboB.depthBuffer !in DataOrder(textures, buffers, base)
    requires fboB.depthBuffer != fboA.buffer && fboB.depthBuffer != fboA.depthBuffer && fboB.depthBuffer != fboB.buffer
    ensures Live(DeletingAll(s, DataOrder(textures, buffers, base) + FramebufferOrderAsWritten(Some(fboA), Some(fboB))),
                 fboB.depthBuffer)
    ensures !Live(DeletingAll(s, DataOrder(textures, buffers, base) + FramebufferOrder(Some(fboA), Some(fboB))),
                  fboB.depthBuffer)
  {
    DeletingAllLive(s, DataOrder(textures, buffers, base) + FramebufferOrderAsWritten(Some(fboA), Some(fboB)), fboB.depthBuffer);
    DeletingAllLive(s, DataOrder(textures, buffers, base) + FramebufferOrder(Some(fboA), Some(fboB)), fboB.depthBuffer);
  }

  /** The corrected teardown ends every handle it is given: the textures,
      the present mesh buffers, the base buffer and both FBOs' framebuffers
      and depth buffers; the handles it is not given keep their state. */
  lemma CleanUpReleases(s: GLState, textures: Option<seq<Handle>>, buffers: Option<MeshBuffers>, base: Option<Buffer>,
                        fboA: Option<FBO>, fboB: Option<FBO>, h: Handle)
    requires Valid(s)
    ensures Live(DeletingAll(s, DataOrder(textures, buffers, base) + FramebufferOrder(fboA, fboB)), h)
        <==> Live(s, h) && h !in DataOrder(textures, buffers, base) + FramebufferOrder(fboA, fboB)
    ensures fboB.Some? ==> fboB.value.depthBuffer in DataOrder(textures, buffers, base) + FramebufferOrder(fboA, fboB)
    ensures textures.Some? ==> forall t :: t in textures.value ==> t in DataOrder(textures, buffers, base)
  {
    DeletingAllLive(s, DataOrder(textures, buffers, base) + FramebufferOrder(fboA, fboB), h);
  }

  /** Neither teardown releases an FBO's target texture unless it is also one
      of the other released handles. */
  lemma TargetTexturesKept(s: GLState, textures: Option<seq<Handle>>, buffers: Option<MeshBuffers>, base: Option<Buffer>,
                           fboA: Option<FBO>, fboB: Option<FBO>, t: Handle)
    requires Valid(s) && Live(s, t)
    requires (fboA.Some? && t == fboA.value.targetTexture) || (fboB.Some? && t == fboB.value.targetTexture)
    requires t !in DataOrder(textures, buffers, base)
    requires fboA.Some? ==> t != fboA.value.buffer && t != fboA.value.depthBuffer
    requires fboB.Some? ==> t != fboB.value.buffer && t != fboB.value.depthBuffer
    ensures Live(DeletingAll(s, DataOrder(textures, buffers, base) + FramebufferOrder(fboA, fboB)), t)
    ensures Live(DeletingAll(s, DataOrder(textures, buffers, base) + FramebufferOrderAsWritten(fboA, fboB)), t)
  {
    DeletingAllLive(s, DataOrder(textures, buffers, base) + FramebufferOrder(fboA, fboB), t);
    DeletingAllLive(s, DataOrder(textures, buffers, base) + FramebufferOrderAsWritten(fboA, fboB), t);
  }
}
