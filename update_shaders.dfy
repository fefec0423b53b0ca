/** `useUpdateShaders`: live editing of a demo's shaders. Each edit of a
    stage's source detaches that stage's shader from the running program,
    compiles the new source and, when it compiles, attaches it, relinks the
    program and looks up every uniform again. The error setter of the stage
    is cleared before each attempt and given the compile error after a
    failed one. */
module UpdateShaders {
  import opened Wrappers
  import opened WebGLState
  import opened WebGL
  import opened Refs
  import opened Uniforms
  import opened Initialize

  // ---------------------------------------------------------------------------
  // The shader record

  /** `loadedShaders.vertexShader` or `loadedShaders.fragmentShader`. */
  function ShaderOf(loaded: LoadedShaders, stage: Stage): Handle
  {
    if stage == VertexStage then loaded.vertexShader else loaded.fragmentShader
  }

  /** The record with the shader of `stage` replaced and the other kept. */
  function WithShader(loaded: LoadedShaders, stage: Stage, shader: Handle): (r: LoadedShaders)
    ensures ShaderOf(r, stage) == shader
    ensures forall other: Stage :: other != stage ==> ShaderOf(r, other) == ShaderOf(loaded, other)
  {
    if stage == VertexStage then loaded.(vertexShader := shader) else loaded.(fragmentShader := shader)
  }

  /** The program `p` has exactly the two shaders of the record attached, one
      per stage: the state `initShaderProgram` builds. */
  predicate Assembled(s: GLState, p: Handle, loaded: LoadedShaders)
  {
    && p in s.kinds && s.kinds[p] == ProgramKind
    && loaded.vertexShader in s.kinds && s.kinds[loaded.vertexShader] == ShaderKind(VertexStage)
    && loaded.fragmentShader in s.kinds && s.kinds[loaded.fragmentShader] == ShaderKind(FragmentStage)
    && AttachedTo(s, p) == Attached(Some(loaded.vertexShader), Some(loaded.fragmentShader))
  }

  /** What a program linked from the record's shaders, with the shader of
      `stage` given `source`, needs of the other stage: compiled, with a
      source the linker accepts alongside. */
  predicate LinksWith(s: GLState, loaded: LoadedShaders, stage: Stage, source: string, links: (string, string) -> bool)
  {
    var other := if stage == VertexStage then FragmentStage else VertexStage;
    var o := ShaderOf(loaded, other);
    && Compiled(s, o) && o in s.sources
    && (if stage == VertexStage then links(source, s.sources[o]) else links(s.sources[o], source))
  }

  // ---------------------------------------------------------------------------
  // One edit, as a function of the state

  /** The program and shader record after an edit. */
  datatype Swapped = Swapped(st: GLState, loaded: LoadedShaders)

  /** After the new shader compiled: `useProgram`, `attachShader`,
      `linkProgram`, and the record names the new shader. */
  function Relink(s: GLState, p: Handle, loaded: LoadedShaders, stage: Stage, shader: Handle,
                  links: (string, string) -> bool): Swapped
  {
    Swapped(LinkProgram(AttachShader(s.(program := Some(p)), p, shader), p, links), WithShader(loaded, stage, shader))
  }

  /** An edit as the effect performs it: detach, then compile. */
  function SwapAsWritten(s: GLState, p: Handle, loaded: LoadedShaders, stage: Stage, source: string,
                         compiles: (Stage, string) -> bool, links: (string, string) -> bool): Swapped
    requires WebGLState.Valid(s)
  {
    var d := DetachShader(s, p, ShaderOf(loaded, stage));
    var c := ShaderLoaded(d, stage, source, compiles);
    if compiles(stage, source) then Relink(c, p, loaded, stage, s.next, links) else Swapped(c, loaded)
  }

  /** An edit that compiles first and detaches the old shader only once the
      new one compiled. */
  function SwapChecked(s: GLState, p: Handle, loaded: LoadedShaders, stage: Stage, source: string,
                       compiles: (Stage, string) -> bool, links: (string, string) -> bool): Swapped
    requires WebGLState.Valid(s)
  {
    var c := ShaderLoaded(s, stage, source, compiles);
    if compiles(stage, source) then Relink(DetachShader(c, p, ShaderOf(loaded, stage)), p, loaded, stage, s.next, links)
    else Swapped(c, loaded)
  }

  /** When the source compiles the two orders leave the same state. */
  lemma SwapsAgreeOnSuccess(s: GLState, p: Handle, loaded: LoadedShaders, stage: Stage, source: string,
                            compiles: (Stage, string) -> bool, links: (string, string) -> bool)
    requires WebGLState.Valid(s) && compiles(stage, source)
    ensures SwapAsWritten(s, p, loaded, stage, source, compiles, links) == SwapChecked(s, p, loaded, stage, source, compiles, links)
  {
    var h := ShaderOf(loaded, stage);
    var d := DetachShader(s, p, h);
    assert ShaderLoaded(d, stage, source, compiles) == DetachShader(ShaderLoaded(s, stage, source, compiles), p, h);
  }

  /** The record's shaders with the slot of `stage` emptied. */
  function Without(loaded: LoadedShaders, stage: Stage): Attached
  {
    if stage == VertexStage then Attached(None, Some(loaded.fragmentShader)) else Attached(Some(loaded.vertexShader), None)
  }

  /** The shaders `v` and `f` are compiled and their sources link. */
  predicate PairLinks(s: GLState, v: Handle, f: Handle, links: (string, string) -> bool)
  {
    Compiled(s, v) && Compiled(s, f) && v in s.sources && f in s.sources && links(s.sources[v], s.sources[f])
  }

  /** Detaching the record's shader of `stage` empties exactly that slot. */
  lemma DetachEmpties(s: GLState, p: Handle, loaded: LoadedShaders, stage: Stage)
    requires Assembled(s, p, loaded)
    ensures DetachShader(s, p, ShaderOf(loaded, stage)) == s.(attached := s.attached[p := Without(loaded, stage)])
  {
    assert loaded.vertexShader != loaded.fragmentShader;
  }

  /** Relinking with a new shader in the empty slot assembles the program
      from the updated record; it links when the two shaders do. */
  lemma RelinkAssembles(c: GLState, p: Handle, loaded: LoadedShaders, stage: Stage, n: Handle,
                        links: (string, string) -> bool)
    requires p in c.kinds && c.kinds[p] == ProgramKind && n in c.kinds && c.kinds[n] == ShaderKind(stage)
    requires var other := if stage == VertexStage then FragmentStage else VertexStage;
      ShaderOf(loaded, other) in c.kinds && c.kinds[ShaderOf(loaded, other)] == ShaderKind(other)
    requires AttachedTo(c, p) == Without(loaded, stage)
    ensures var r := Relink(c, p, loaded, stage, n, links);
      && Assembled(r.st, p, r.loaded) && r.st.program == Some(p)
      && r.st.deleted == c.deleted && r.st.kinds == c.kinds
      && (Linked(r.st, p) <==> PairLinks(c, r.loaded.vertexShader, r.loaded.fragmentShader, links))
  {
    var a := AttachShader(c.(program := Some(p)), p, n);
    assert CanAttach(c.(program := Some(p)), p, n);
    var l := WithShader(loaded, stage, n);
    assert AttachedTo(a, p) == Attached(Some(l.vertexShader), Some(l.fragmentShader));
  }

  /** A successful edit: the record names the new shader, the program has it
      attached beside the other stage's shader and is current, and it is
      linked exactly when the other stage's shader links with the new
      source. No shader is deleted, the detached one included. */
  lemma SwapSucceeds(s: GLState, p: Handle, loaded: LoadedShaders, stage: Stage, source: string,
                     compiles: (Stage, string) -> bool, links: (string, string) -> bool)
    requires WebGLState.Valid(s) && Assembled(s, p, loaded) && compiles(stage, source)
    ensures var r := SwapAsWritten(s, p, loaded, stage, source, compiles, links);
      && r.loaded == WithShader(loaded, stage, s.next)
      && Assembled(r.st, p, r.loaded)
      && r.st.program == Some(p)
      && r.st.deleted == s.deleted
      && (Linked(r.st, p) <==> LinksWith(s, loaded, stage, source, links))
  {
    var n := s.next;
    DetachEmpties(s, p, loaded, stage);
    var d := DetachShader(s, p, ShaderOf(loaded, stage));
    var c := ShaderLoaded(d, stage, source, compiles);
    assert c == ShaderCompiled(d, stage, source, compiles);
    assert p < n && loaded.vertexShader < n && loaded.fragmentShader < n;
    RelinkAssembles(c, p, loaded, stage, n, links);
    assert c.sources == s.sources[n := source] && Compiled(c, n);
    assert forall h :: h != n ==> (Compiled(c, h) <==> Compiled(s, h));
  }

  /** The as-written edit on a source that does not compile: the record and
      the link status are left alone, but the program has lost the shader of
      that stage. The new shader is deleted, nothing else. */
  lemma AsWrittenFailureDetaches(s: GLState, p: Handle, loaded: LoadedShaders, stage: Stage, source: string,
                                 compiles: (Stage, string) -> bool, links: (string, string) -> bool)
    requires WebGLState.Valid(s) && Assembled(s, p, loaded) && !compiles(stage, source)
    ensures var r := SwapAsWritten(s, p, loaded, stage, source, compiles, links);
      && r.loaded == loaded
      && (if stage == VertexStage then AttachedTo(r.st, p).vertex.None? else AttachedTo(r.st, p).fragment.None?)
      && !Assembled(r.st, p, r.loaded)
      && (Linked(r.st, p) <==> Linked(s, p)) && r.st.program == s.program
      && Live(r.st, ShaderOf(loaded, stage)) == Live(s, ShaderOf(loaded, stage))
      && !Live(r.st, s.next) && r.st.deleted == s.deleted + {s.next}
  {
  }

  /** The checked edit on a source that does not compile leaves the program,
      its shaders and the record as they were; only the new shader is
      created and deleted again. */
  lemma CheckedFailureKeepsProgram(s: GLState, p: Handle, loaded: LoadedShaders, stage: Stage, source: string,
                                   compiles: (Stage, string) -> bool, links: (string, string) -> bool)
    requires WebGLState.Valid(s) && !compiles(stage, source)
    ensures var r := SwapChecked(s, p, loaded, stage, source, compiles, links);
      && r.loaded == loaded
      && AttachedTo(r.st, p) == AttachedTo(s, p)
      && (Assembled(s, p, loaded) ==> Assembled(r.st, p, r.loaded))
      && (Linked(r.st, p) <==> Linked(s, p)) && r.st.program == s.program
      && !Live(r.st, s.next) && r.st.deleted == s.deleted + {s.next}
  {
  }

  /** The checked edit keeps the program assembled from the record's shaders,
      whatever the source. */
  lemma CheckedKeepsAssembled(s: GLState, p: Handle, loaded: LoadedShaders, stage: Stage, source: string,
                              compiles: (Stage, string) -> bool, links: (string, string) -> bool)
    requires WebGLState.Valid(s) && Assembled(s, p, loaded)
    ensures var r := SwapChecked(s, p, loaded, stage, source, compiles, links);
      Assembled(r.st, p, r.loaded)
  {
    if compiles(stage, source) {
      SwapsAgreeOnSuccess(s, p, loaded, stage, source, compiles, links);
      SwapSucceeds(s, p, loaded, stage, source, compiles, links);
    } else {
      CheckedFailureKeepsProgram(s, p, loaded, stage, source, compiles, links);
    }
  }

  /** An edit that compiles, made while the program lacks the other stage's
      shader, leaves the program unlinked. */
  lemma MissingStageNeverLinks(s: GLState, p: Handle, loaded: LoadedShaders, stage: Stage, source: string,
                               compiles: (Stage, string) -> bool, links: (string, string) -> bool)
    requires WebGLState.Valid(s) && compiles(stage, source)
    requires if stage == VertexStage then AttachedTo(s, p).fragment.None? else AttachedTo(s, p).vertex.None?
    ensures !Linked(SwapAsWritten(s, p, loaded, stage, source, compiles, links).st, p)
  {
    var d := DetachShader(s, p, ShaderOf(loaded, stage));
    var c := ShaderLoaded(d, stage, source, compiles);
    assert if stage == VertexStage then AttachedTo(c, p).fragment.None? else AttachedTo(c, p).vertex.None?;
  }

  /** A fragment edit that does not compile followed by a vertex edit that
      does: as written the program relinks without a fragment shader and
      fails to link, although the last good fragment shader links with the
      new vertex source. */
  lemma BrokenFragmentEditBreaksVertexEdit(s: GLState, p: Handle, loaded: LoadedShaders, badFragment: string,
                                           goodVertex: string, compiles: (Stage, string) -> bool,
                                           links: (string, string) -> bool)
    requires WebGLState.Valid(s) && Assembled(s, p, loaded)
    requires Compiled(s, loaded.fragmentShader) && loaded.fragmentShader in s.sources
    requires !compiles(FragmentStage, badFragment) && compiles(VertexStage, goodVertex)
    requires links(goodVertex, s.sources[loaded.fragmentShader])
    ensures var a := SwapAsWritten(s, p, loaded, FragmentStage, badFragment, compiles, links);
      !Linked(SwapAsWritten(a.st, p, a.loaded, VertexStage, goodVertex, compiles, links).st, p)
  {
    var a := SwapAsWritten(s, p, loaded, FragmentStage, badFragment, compiles, links);
    AsWrittenFailureDetaches(s, p, loaded, FragmentStage, badFragment, compiles, links);
    MissingStageNeverLinks(a.st, p, a.loaded, VertexStage, goodVertex, compiles, links);
  }

  /** The same two edits with the compile checked first: the failed fragment
      edit keeps the last good fragment shader, and the vertex edit links
      with it. */
  lemma CheckedVertexEditAfterBrokenFragment(s: GLState, p: Handle, loaded: LoadedShaders, badFragment: string,
                                             goodVertex: string, compiles: (Stage, string) -> bool,
                                             links: (string, string) -> bool)
    requires WebGLState.Valid(s) && Assembled(s, p, loaded)
    requires Compiled(s, loaded.fragmentShader) && loaded.fragmentShader in s.sources
    requires !compiles(FragmentStage, badFragment) && compiles(VertexStage, goodVertex)
    requires links(goodVertex, s.sources[loaded.fragmentShader])
    ensures var b := SwapChecked(s, p, loaded, FragmentStage, badFragment, compiles, links);
      Linked(SwapChecked(b.st, p, b.loaded, VertexStage, goodVertex, compiles, links).st, p)
  {
    var b := SwapChecked(s, p, loaded, FragmentStage, badFragment, compiles, links);
    CheckedFailureKeepsProgram(s, p, loaded, FragmentStage, badFragment, compiles, links);
    assert b.st.sources == s.sources[s.next := badFragment] && b.st.compiled == s.compiled[s.next := false];
    assert loaded.fragmentShader < s.next;
    assert LinksWith(b.st, b.loaded, VertexStage, goodVertex, links);
    SwapsAgreeOnSuccess(b.st, p, b.loaded, VertexStage, goodVertex, compiles, links);
    SwapSucceeds(b.st, p, b.loaded, VertexStage, goodVertex, compiles, links);
  }

  /** `frameBufferTexture0`, when no setting names it, has a location exactly
      when both ping-pong refs are given. */
  lemma PingPongLocation(keys: seq<string>, s: GLState, p: Handle, usePingPong: bool)
    requires "frameBufferTexture0" !in keys
    ensures "frameBufferTexture0" in CreateUniformLocations(keys, s, p, usePingPong) <==> usePingPong
  {
    assert "frameBufferTexture0" !in RESERVED by {
      forall k | 0 <= k < |RESERVED| ensures RESERVED[k] != "frameBufferTexture0" {
        assert RESERVED[k][0] == 'u';
      }
    }
  }

  // ---------------------------------------------------------------------------
  // The hook

  /** `tryLoadFragmentShader` / `tryLoadVertexShader`. `errors` records the
      calls of the stage's error setter in order; React keeps the last. */
  method TryLoadShader(gl: GL, stage: Stage, source: string, errors: Ref<seq<Option<JsError>>>)
    returns (shader: Option<Handle>)
    requires gl.Valid()
    modifies gl, errors
    ensures gl.Valid() && gl.st == ShaderLoaded(old(gl.st), stage, source, gl.compiles)
    ensures shader.Some? <==> gl.compiles(stage, source)
    ensures shader.Some? ==> shader.value == old(gl.st.next) && errors.current == old(errors.current) + [None]
    ensures shader.None? ==>
      errors.current == old(errors.current) + [None, Some(Error(COMPILE_ERROR + gl.shaderLog(stage, source)))]
  {
    errors.current := errors.current + [None];
    var r := LoadShader(gl, stage, source);
    if r.Err? {
      errors.current := errors.current + [Some(r.error)];
      return None;
    }
    return Some(r.value);
  }

  /** `uniformLocations.current = createUniformLocations(...)` after a relink. */
  method LocateUniforms(gl: GL, program: Handle, uniformLocations: Ref<Locations>, keys: seq<string>,
                        usePingPongBuffers: bool)
    modifies uniformLocations
    ensures uniformLocations.current == CreateUniformLocations(keys, gl.st, program, usePingPongBuffers)
    ensures "frameBufferTexture0" !in keys ==>
      ("frameBufferTexture0" in uniformLocations.current <==> usePingPongBuffers)
  {
    var locations := CreateUniformLocations(keys, gl.st, program, usePingPongBuffers);
    if "frameBufferTexture0" !in keys {
      PingPongLocation(keys, gl.st, program, usePingPongBuffers);
    }
    uniformLocations.current := locations;
  }

  /** One of the two effects of `useUpdateShaders`, for the stage whose
      source changed. Without a context nothing happens. Otherwise the old
      shader of the stage is detached first; a source that does not compile
      ends the effect there, with the uniform locations untouched. A source
      that compiles is attached, the program relinked and every uniform
      located again, with `frameBufferTexture0` only when both ping-pong
      refs are given; a failed link only warns. */
  method UpdateShader(gl: GL?, stage: Stage, source: string, programRef: Ref<Handle>,
                      loadedShadersRef: Ref<LoadedShaders>, uniformLocations: Ref<Locations>, uniforms: Ref<Table>,
                      errors: Ref<seq<Option<JsError>>>, FBOA: Ref?<Option<FBO>>, FBOB: Ref?<Option<FBO>>)
    requires gl != null ==> gl.Valid()
    modifies gl, loadedShadersRef, uniformLocations, errors
    ensures gl == null ==> unchanged(loadedShadersRef, uniformLocations, errors)
    ensures gl != null ==> gl.Valid()
    ensures gl != null ==>
      Swapped(gl.st, loadedShadersRef.current)
        == SwapAsWritten(old(gl.st), old(programRef.current), old(loadedShadersRef.current), stage, source, gl.compiles, gl.links)
    ensures gl != null && gl.compiles(stage, source) ==>
      && uniformLocations.current == CreateUniformLocations(old(uniforms.current.keys), gl.st, old(programRef.current),
                                                            FBOA != null && FBOB != null)
      && ("frameBufferTexture0" !in old(uniforms.current.keys) ==>
            ("frameBufferTexture0" in uniformLocations.current <==> FBOA != null && FBOB != null))
      && errors.current == old(errors.current) + [None]
    ensures gl != null && !gl.compiles(stage, source) ==>
      && unchanged(uniformLocations)
      && errors.current == old(errors.current) + [None, Some(Error(COMPILE_ERROR + gl.shaderLog(stage, source)))]
  {
    if gl == null {
      return;
    }
    var usePingPongBuffers := FBOA != null && FBOB != null;
    var program := programRef.current;
    var keys := uniforms.current.keys;
    ghost var loaded := loadedShadersRef.current;
    ghost var s0 := gl.st;
    gl.DetachShader(program, ShaderOf(loadedShadersRef.current, stage));
    ghost var d := gl.st;
    var shader := TryLoadShader(gl, stage, source, errors);
    ghost var c := gl.st;
    assert c == ShaderLoaded(d, stage, source, gl.compiles);
    if shader.None? {
      return;
    }
    loadedShadersRef.current := WithShader(loadedShadersRef.current, stage, shader.value);
    gl.UseProgram(Some(program));
    gl.AttachShader(program, shader.value);
    gl.LinkProgram(program);
    assert Relink(c, program, loaded, stage, s0.next, gl.links) == Swapped(gl.st, loadedShadersRef.current);
    LocateUniforms(gl, program, uniformLocations, keys, usePingPongBuffers);
  }

  /** The effect with the compile moved ahead of the detach: a source that
      does not compile leaves the program with its last good shader. */
  method UpdateShaderChecked(gl: GL?, stage: Stage, source: string, programRef: Ref<Handle>,
                             loadedShadersRef: Ref<LoadedShaders>, uniformLocations: Ref<Locations>,
                             uniforms: Ref<Table>, errors: Ref<seq<Option<JsError>>>,
                             FBOA: Ref?<Option<FBO>>, FBOB: Ref?<Option<FBO>>)
    requires gl != null ==> gl.Valid()
    modifies gl, loadedShadersRef, uniformLocations, errors
    ensures gl == null ==> unchanged(loadedShadersRef, uniformLocations, errors)
    ensures gl != null ==> gl.Valid()
    ensures gl != null ==>
      Swapped(gl.st, loadedShadersRef.current)
        == SwapChecked(old(gl.st), old(programRef.current), old(loadedShadersRef.current), stage, source, gl.compiles, gl.links)
    ensures gl != null && gl.compiles(stage, source) ==>
      && uniformLocations.current == CreateUniformLocations(old(uniforms.current.keys), gl.st, old(programRef.current),
                                                            FBOA != null && FBOB != null)
      && errors.current == old(errors.current) + [None]
    ensures gl != null && !gl.compiles(stage, source) ==>
      && unchanged(uniformLocations)
      && errors.current == old(errors.current) + [None, Some(Error(COMPILE_ERROR + gl.shaderLog(stage, source)))]
  {
    if gl == null {
      return;
    }
    var usePingPongBuffers := FBOA != null && FBOB != null;
    var program := programRef.current;
    var keys := uniforms.current.keys;
    ghost var loaded := loadedShadersRef.current;
    ghost var s0 := gl.st;
    var shader := TryLoadShader(gl, stage, source, errors);
    if shader.None? {
      return;
    }
    gl.DetachShader(program, ShaderOf(loadedShadersRef.current, stage));
    ghost var d := gl.st;
    loadedShadersRef.current := WithShader(loadedShadersRef.current, stage, shader.value);
    gl.UseProgram(Some(program));
    gl.AttachShader(program, shader.value);
    gl.LinkProgram(program);
    assert Relink(d, program, loaded, stage, s0.next, gl.links) == Swapped(gl.st, loadedShadersRef.current);
    LocateUniforms(gl, program, uniformLocations, keys, usePingPongBuffers);
  }
}
