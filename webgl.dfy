/** The part of a WebGL rendering context the demos drive, as explicit state:
    a handle allocator with the kind of every object made and the set deleted
    so far, shader sources and compile results, the stages attached to each
    program and its link result, the bindings (program in use, texture per
    unit, array/element buffer, renderbuffer, framebuffer), uploaded buffer
    contents, texture sampling setup and the log of uniform calls.
    Whether a source compiles and whether two sources link are oracles given
    when the context is made. */
module WebGLState {
  import opened Wrappers
  import opened JsValue

  type Handle = nat

  datatype Stage = VertexStage | FragmentStage

  datatype Kind = BufferKind | ShaderKind(stage: Stage) | ProgramKind | TextureKind
                | FramebufferKind | RenderbufferKind

  datatype Target = ArrayBuffer | ElementArrayBuffer

  /** `new Float32Array(data)` or `new Uint16Array(data)`. */
  datatype Upload = Float32(floats: seq<real>) | Uint16(shorts: seq<int>)

  /** ECMAScript ToUint16: truncate toward zero, then reduce modulo 2^16. */
  function ToUint16(x: real): (r: int)
    ensures 0 <= r < 0x1_0000
    ensures x == x.Floor as real && 0.0 <= x < 65536.0 ==> r == x.Floor
  {
    var t := if x >= 0.0 then x.Floor else -((-x).Floor);
    t % 0x1_0000
  }

  /** Every element of `data` narrowed to an unsigned 16-bit integer. */
  function ToUint16Array(data: seq<real>): (r: seq<int>)
    ensures |r| == |data| && forall k :: 0 <= k < |data| ==> r[k] == ToUint16(data[k])
  {
    seq(|data|, k requires 0 <= k < |data| => ToUint16(data[k]))
  }

  /** A vertex attribute of a program, as `getAttribLocation` names it. */
  datatype Attribute = Attribute(program: Handle, name: string)

  /** `vertexAttribPointer`: the array buffer bound at the time and the component count. */
  datatype Pointer = Pointer(buffer: Option<Handle>, size: nat)

  /** The shader of each stage attached to a program; WebGL refuses a second
      shader for an occupied stage. */
  datatype Attached = Attached(vertex: Option<Handle>, fragment: Option<Handle>)

  /** A uniform location of a successfully linked program. */
  datatype Location = Location(program: Handle, name: string)

  datatype UniformMethod = Uniform1i | Uniform1f | Uniform2fv | Uniform3fv | Uniform4fv | UniformMatrix4fv

  datatype UniformArg = One(v: Value) | Many(vs: seq<Scalar>)

  datatype UniformCall = UniformCall(kind: UniformMethod, location: Option<Location>, arg: UniformArg)

  datatype GLState = GLState(
    next: nat,
    kinds: map<Handle, Kind>,
    deleted: set<Handle>,
    sources: map<Handle, string>,
    compiled: map<Handle, bool>,
    attached: map<Handle, Attached>,
    linked: map<Handle, bool>,
    program: Option<Handle>,
    activeUnit: nat,
    units: map<nat, Option<Handle>>,
    arrayBuffer: Option<Handle>,
    elementBuffer: Option<Handle>,
    renderbuffer: Option<Handle>,
    framebuffer: Option<Handle>,
    data: map<Handle, Upload>,
    pointers: map<Attribute, Pointer>,
    enabled: set<Attribute>,
    mipmapped: set<Handle>,
    clamped: set<Handle>,
    uniformCalls: seq<UniformCall>,
    lost: bool)

  const Initial := GLState(0, map[], {}, map[], map[], map[], map[], None, 0, map[], None, None, None, None,
                           map[], map[], {}, {}, {}, [], false)

  /** Every handle was issued by the allocator, only issued handles are
      deleted, and shaders are attached only to issued handles. */
  ghost predicate Valid(s: GLState)
  {
    && (forall h :: h in s.kinds ==> h < s.next)
    && s.deleted <= s.kinds.Keys
    && (forall p :: p in s.attached ==> p in s.kinds)
  }

  /** Both states know the same objects: a call that only changes bindings,
      sources or statuses. */
  predicate SameObjects(s: GLState, r: GLState)
  {
    r.next == s.next && r.kinds == s.kinds && r.deleted == s.deleted
  }

  /** A handle that was created and not yet deleted. */
  predicate Live(s: GLState, h: Handle)
  {
    h in s.kinds && h !in s.deleted
  }

  /** The handles of kind `k` that are still live. */
  ghost function LiveOf(s: GLState, k: Kind): set<Handle>
  {
    set h | h in s.kinds && s.kinds[h] == k && h !in s.deleted
  }

  /** `createBuffer`, `createShader`, `createProgram`, ...: a handle never issued before. */
  function Create(s: GLState, k: Kind): (r: (GLState, Handle))
    requires Valid(s)
    ensures Valid(r.0) && r.1 !in s.kinds && Live(r.0, r.1) && r.0.kinds[r.1] == k
    ensures forall h :: h in s.kinds ==> h in r.0.kinds && r.0.kinds[h] == s.kinds[h]
    ensures r.0.deleted == s.deleted
  {
    (s.(next := s.next + 1, kinds := s.kinds[s.next := k]), s.next)
  }

  /** `deleteBuffer`, `deleteTexture`, ...: the handle is no longer live. */
  function Delete(s: GLState, h: Handle): (r: GLState)
    requires Valid(s)
    ensures Valid(r)
    ensures !Live(r, h) && forall g :: g != h ==> (Live(r, g) <==> Live(s, g))
  {
    if h in s.kinds then s.(deleted := s.deleted + {h}) else s
  }

  function ShaderSource(s: GLState, h: Handle, source: string): (r: GLState)
    ensures SameObjects(s, r)
  {
    s.(sources := s.sources[h := source])
  }

  /** A handle made by `createShader`. */
  predicate IsShader(s: GLState, h: Handle)
  {
    h in s.kinds && s.kinds[h].ShaderKind?
  }

  /** A shader with a source that the compiler of its stage accepts. */
  predicate CompileSucceeds(s: GLState, h: Handle, compiles: (Stage, string) -> bool)
  {
    IsShader(s, h) && h in s.sources && compiles(s.kinds[h].stage, s.sources[h])
  }

  /** `compileShader`: the status is the oracle's verdict on the shader's stage and source. */
  function CompileShader(s: GLState, h: Handle, compiles: (Stage, string) -> bool): (r: GLState)
    ensures SameObjects(s, r)
    ensures r.compiled.Keys == s.compiled.Keys + {h}
    ensures r.compiled[h] <==> CompileSucceeds(s, h, compiles)
  {
    s.(compiled := s.compiled[h := CompileSucceeds(s, h, compiles)])
  }

  predicate Compiled(s: GLState, h: Handle)
  {
    h in s.compiled && s.compiled[h]
  }

  function AttachedTo(s: GLState, p: Handle): Attached
  {
    if p in s.attached then s.attached[p] else Attached(None, None)
  }

  /** `attachShader` is accepted: a program, a shader, and the shader's stage
      slot still empty. */
  predicate CanAttach(s: GLState, p: Handle, h: Handle)
  {
    && p in s.kinds && s.kinds[p] == ProgramKind && IsShader(s, h)
    && (if s.kinds[h].stage == VertexStage then AttachedTo(s, p).vertex.None? else AttachedTo(s, p).fragment.None?)
  }

  /** `a` with `h` in the slot of `stage`. */
  function WithStage(a: Attached, stage: Stage, h: Handle): Attached
  {
    if stage == VertexStage then a.(vertex := Some(h)) else a.(fragment := Some(h))
  }

  /** `attachShader`: fills the stage slot of the shader, unless the slot is
      taken or the objects are of the wrong kinds. */
  function AttachShader(s: GLState, p: Handle, h: Handle): (r: GLState)
    ensures SameObjects(s, r)
    ensures CanAttach(s, p, h) ==> AttachedTo(r, p) == WithStage(AttachedTo(s, p), s.kinds[h].stage, h)
    ensures !CanAttach(s, p, h) ==> r == s
    ensures forall q :: q != p ==> AttachedTo(r, q) == AttachedTo(s, q)
  {
    if CanAttach(s, p, h) then s.(attached := s.attached[p := WithStage(AttachedTo(s, p), s.kinds[h].stage, h)])
    else s
  }

  /** `detachShader`: empties the slot holding `h`; a shader that is not
      attached is an error that changes nothing. */
  function DetachShader(s: GLState, p: Handle, h: Handle): (r: GLState)
    ensures SameObjects(s, r)
    ensures AttachedTo(s, p).vertex == Some(h) ==> AttachedTo(r, p) == AttachedTo(s, p).(vertex := None)
    ensures AttachedTo(s, p).fragment == Some(h) && AttachedTo(s, p).vertex != Some(h) ==>
              AttachedTo(r, p) == AttachedTo(s, p).(fragment := None)
    ensures AttachedTo(s, p).vertex != Some(h) && AttachedTo(s, p).fragment != Some(h) ==> r == s
    ensures forall q :: q != p ==> AttachedTo(r, q) == AttachedTo(s, q)
  {
    var a := AttachedTo(s, p);
    if a.vertex == Some(h) then s.(attached := s.attached[p := a.(vertex := None)])
    else if a.fragment == Some(h) then s.(attached := s.attached[p := a.(fragment := None)])
    else s
  }

  /** A program links when both stages are attached, both compiled, and the
      oracle accepts the pair of sources. */
  predicate LinkSucceeds(s: GLState, p: Handle, links: (string, string) -> bool)
  {
    var a := AttachedTo(s, p);
    && a.vertex.Some? && a.fragment.Some?
    && Compiled(s, a.vertex.value) && Compiled(s, a.fragment.value)
    && a.vertex.value in s.sources && a.fragment.value in s.sources
    && links(s.sources[a.vertex.value], s.sources[a.fragment.value])
  }

  function LinkProgram(s: GLState, p: Handle, links: (string, string) -> bool): (r: GLState)
    ensures SameObjects(s, r)
    ensures p in r.linked && (r.linked[p] <==> LinkSucceeds(s, p, links))
    ensures forall q :: q != p ==> (Linked(r, q) <==> Linked(s, q))
    ensures r.attached == s.attached
  {
    s.(linked := s.linked[p := LinkSucceeds(s, p, links)])
  }

  predicate Linked(s: GLState, p: Handle)
  {
    p in s.linked && s.linked[p]
  }

  /** `getUniformLocation`: `null` unless the program's last link succeeded. */
  function UniformLocation(s: GLState, p: Handle, name: string): (r: Option<Location>)
    ensures r.Some? <==> Linked(s, p)
    ensures r.Some? ==> r.value == Location(p, name)
  {
    if Linked(s, p) then Some(Location(p, name)) else None
  }

  function BindBuffer(s: GLState, target: Target, h: Option<Handle>): (r: GLState)
    ensures SameObjects(s, r)
  {
    if target == ArrayBuffer then s.(arrayBuffer := h) else s.(elementBuffer := h)
  }

  function BoundBuffer(s: GLState, target: Target): Option<Handle>
  {
    if target == ArrayBuffer then s.arrayBuffer else s.elementBuffer
  }

  /** `bufferData`: replaces the contents of the buffer bound to `target`. */
  function BufferData(s: GLState, target: Target, upload: Upload): (r: GLState)
    ensures SameObjects(s, r)
    ensures BoundBuffer(s, target).Some? ==> r.data == s.data[BoundBuffer(s, target).value := upload]
    ensures BoundBuffer(s, target).None? ==> r == s
  {
    var bound := BoundBuffer(s, target);
    if bound.Some? then s.(data := s.data[bound.value := upload]) else s
  }

  /** `vertexAttribPointer(location, size, FLOAT, ...)`: the attribute reads
      from the buffer bound to ARRAY_BUFFER now. */
  function VertexAttribPointer(s: GLState, a: Attribute, size: nat): (r: GLState)
    ensures SameObjects(s, r)
    ensures r.pointers == s.pointers[a := Pointer(s.arrayBuffer, size)]
  {
    s.(pointers := s.pointers[a := Pointer(s.arrayBuffer, size)])
  }

  function EnableVertexAttribArray(s: GLState, a: Attribute): (r: GLState)
    ensures SameObjects(s, r)
    ensures r.enabled == s.enabled + {a}
  {
    s.(enabled := s.enabled + {a})
  }

  function ActiveTexture(s: GLState, unit: nat): (r: GLState)
    ensures SameObjects(s, r)
  {
    s.(activeUnit := unit)
  }

  /** `bindTexture(TEXTURE_2D, h)` on the active unit. */
  function BindTexture(s: GLState, h: Option<Handle>): (r: GLState)
    ensures SameObjects(s, r)
    ensures r.units == s.units[s.activeUnit := h]
  {
    s.(units := s.units[s.activeUnit := h])
  }

  /** The texture bound to `unit` (none when never bound). */
  function TextureAt(s: GLState, unit: nat): Option<Handle>
  {
    if unit in s.units then s.units[unit] else None
  }

  function BoundTexture(s: GLState): Option<Handle>
  {
    TextureAt(s, s.activeUnit)
  }

  /** `generateMipmap` on the bound texture. */
  function GenerateMipmap(s: GLState): (r: GLState)
    ensures SameObjects(s, r)
  {
    var t := BoundTexture(s);
    if t.Some? then s.(mipmapped := s.mipmapped + {t.value}) else s
  }

  /** Clamp-to-edge wrapping with linear filtering on the bound texture. */
  function ClampToEdge(s: GLState): (r: GLState)
    ensures SameObjects(s, r)
  {
    var t := BoundTexture(s);
    if t.Some? then s.(clamped := s.clamped + {t.value}) else s
  }

  function Uniform(s: GLState, call: UniformCall): (r: GLState)
    ensures SameObjects(s, r)
    ensures r.uniformCalls == s.uniformCalls + [call]
  {
    s.(uniformCalls := s.uniformCalls + [call])
  }

}

/** The context object the demos call into: each call is the matching
    transition of `WebGLState` on its one field. */
module WebGL {
  import opened Wrappers
  import opened WebGLState
  import opened JsValue

  /** A context with state `st`, the verdicts of its shader compiler and
      linker, the compiler's info log and MAX_TEXTURE_IMAGE_UNITS. */
  class GL {
    var st: GLState
    const compiles: (Stage, string) -> bool
    const links: (string, string) -> bool
    const shaderLog: (Stage, string) -> string
    const maxTextureUnits: nat

    ghost predicate Valid()
      reads this
    {
      WebGLState.Valid(st)
    }

    constructor(compiles: (Stage, string) -> bool, links: (string, string) -> bool,
                shaderLog: (Stage, string) -> string, maxTextureUnits: nat)
      ensures st == Initial && Valid()
      ensures this.compiles == compiles && this.links == links && this.shaderLog == shaderLog
      ensures this.maxTextureUnits == maxTextureUnits
    {
      st := Initial;
      this.compiles := compiles;
      this.links := links;
      this.shaderLog := shaderLog;
      this.maxTextureUnits := maxTextureUnits;
    }

    method CreateObject(k: Kind) returns (h: Handle)
      requires Valid()
      modifies this
      ensures Valid() && (st, h) == Create(old(st), k)
    {
      var r := Create(st, k);
      st := r.0;
      h := r.1;
    }

    method DeleteObject(h: Handle)
      requires Valid()
      modifies this
      ensures Valid() && st == Delete(old(st), h)
    {
      st := Delete(st, h);
    }

    method ShaderSource(h: Handle, source: string)
      requires Valid()
      modifies this
      ensures Valid() && st == WebGLState.ShaderSource(old(st), h, source)
    {
      st := WebGLState.ShaderSource(st, h, source);
    }

    method CompileShader(h: Handle)
      requires Valid()
      modifies this
      ensures Valid() && st == WebGLState.CompileShader(old(st), h, compiles)
    {
      st := WebGLState.CompileShader(st, h, compiles);
    }

    method GetCompileStatus(h: Handle) returns (ok: bool)
      ensures ok == Compiled(st, h)
    {
      ok := Compiled(st, h);
    }

    /** `getShaderInfoLog`: the compiler's log for the shader's stage and source. */
    method GetShaderInfoLog(h: Handle) returns (log: string)
      ensures IsShader(st, h) && h in st.sources ==> log == shaderLog(st.kinds[h].stage, st.sources[h])
      ensures !(IsShader(st, h) && h in st.sources) ==> log == ""
    {
      log := if IsShader(st, h) && h in st.sources then shaderLog(st.kinds[h].stage, st.sources[h]) else "";
    }

    method AttachShader(p: Handle, h: Handle)
      requires Valid()
      modifies this
      ensures Valid() && st == WebGLState.AttachShader(old(st), p, h)
    {
      st := WebGLState.AttachShader(st, p, h);
    }

    method DetachShader(p: Handle, h: Handle)
      requires Valid()
      modifies this
      ensures Valid() && st == WebGLState.DetachShader(old(st), p, h)
    {
      st := WebGLState.DetachShader(st, p, h);
    }

    method LinkProgram(p: Handle)
      requires Valid()
      modifies this
      ensures Valid() && st == WebGLState.LinkProgram(old(st), p, links)
    {
      st := WebGLState.LinkProgram(st, p, links);
    }

    method GetLinkStatus(p: Handle) returns (ok: bool)
      ensures ok == Linked(st, p)
    {
      ok := Linked(st, p);
    }

    method UseProgram(p: Option<Handle>)
      requires Valid()
      modifies this
      ensures Valid() && st == old(st).(program := p)
    {
      st := st.(program := p);
    }

    method GetUniformLocation(p: Handle, name: string) returns (loc: Option<Location>)
      ensures loc == UniformLocation(st, p, name)
    {
      loc := UniformLocation(st, p, name);
    }

    method BindBuffer(target: Target, h: Option<Handle>)
      requires Valid()
      modifies this
      ensures Valid() && st == WebGLState.BindBuffer(old(st), target, h)
    {
      st := WebGLState.BindBuffer(st, target, h);
    }

    method BufferData(target: Target, upload: Upload)
      requires Valid()
      modifies this
      ensures Valid() && st == WebGLState.BufferData(old(st), target, upload)
    {
      st := WebGLState.BufferData(st, target, upload);
    }

    method VertexAttribPointer(a: Attribute, size: nat)
      requires Valid()
      modifies this
      ensures Valid() && st == WebGLState.VertexAttribPointer(old(st), a, size)
    {
      st := WebGLState.VertexAttribPointer(st, a, size);
    }

    method EnableVertexAttribArray(a: Attribute)
      requires Valid()
      modifies this
      ensures Valid() && st == WebGLState.EnableVertexAttribArray(old(st), a)
    {
      st := WebGLState.EnableVertexAttribArray(st, a);
    }

    method ActiveTexture(unit: nat)
      requires Valid()
      modifies this
      ensures Valid() && st == WebGLState.ActiveTexture(old(st), unit)
    {
      st := WebGLState.ActiveTexture(st, unit);
    }

    method BindTexture(h: Option<Handle>)
      requires Valid()
      modifies this
      ensures Valid() && st == WebGLState.BindTexture(old(st), h)
    {
      st := WebGLState.BindTexture(st, h);
    }

    method GenerateMipmap()
      requires Valid()
      modifies this
      ensures Valid() && st == WebGLState.GenerateMipmap(old(st))
    {
      st := WebGLState.GenerateMipmap(st);
    }

    method ClampToEdge()
      requires Valid()
      modifies this
      ensures Valid() && st == WebGLState.ClampToEdge(old(st))
    {
      st := WebGLState.ClampToEdge(st);
    }

    method BindRenderbuffer(h: Option<Handle>)
      requires Valid()
      modifies this
      ensures Valid() && st == old(st).(renderbuffer := h)
    {
      st := st.(renderbuffer := h);
    }

    method BindFramebuffer(h: Option<Handle>)
      requires Valid()
      modifies this
      ensures Valid() && st == old(st).(framebuffer := h)
    {
      st := st.(framebuffer := h);
    }

    method Uniform(call: UniformCall)
      requires Valid()
      modifies this
      ensures Valid() && st == WebGLState.Uniform(old(st), call)
    {
      st := WebGLState.Uniform(st, call);
    }

    /** `getExtension('WEBGL_lose_context').loseContext()`. */
    method LoseContext()
      requires Valid()
      modifies this
      ensures Valid() && st == old(st).(lost := true)
    {
      st := st.(lost := true);
    }
  }

  /** A framebuffer with a colour texture and a depth renderbuffer. */
  datatype FBO = FBO(buffer: Handle, depthBuffer: Handle, targetTexture: Handle, width: Scalar, height: Scalar)

  /** `initFrameBufferObject`: a fresh target texture, framebuffer and depth
      renderbuffer; the texture and framebuffer bindings are cleared again,
      the renderbuffer stays bound. */
  method InitFrameBufferObject(gl: GL, width: Scalar, height: Scalar) returns (fbo: FBO)
    requires gl.Valid()
    modifies gl
    ensures gl.Valid()
    ensures fbo.width == width && fbo.height == height
    ensures fbo.targetTexture !in old(gl.st.kinds) && fbo.buffer !in old(gl.st.kinds) && fbo.depthBuffer !in old(gl.st.kinds)
    ensures fbo.targetTexture != fbo.buffer && fbo.buffer != fbo.depthBuffer && fbo.targetTexture != fbo.depthBuffer
    ensures Live(gl.st, fbo.targetTexture) && Live(gl.st, fbo.buffer) && Live(gl.st, fbo.depthBuffer)
    ensures gl.st.kinds == old(gl.st.kinds)[fbo.targetTexture := TextureKind][fbo.buffer := FramebufferKind][fbo.depthBuffer := RenderbufferKind]
    ensures gl.st.deleted == old(gl.st.deleted)
    ensures gl.st.framebuffer.None? && BoundTexture(gl.st).None? && gl.st.renderbuffer == Some(fbo.depthBuffer)
    ensures gl.st.program == old(gl.st.program) && gl.st.linked == old(gl.st.linked)
    ensures old(gl.st.next) <= gl.st.next
  {
    var texture := gl.CreateObject(TextureKind);
    gl.BindTexture(None);
    gl.BindTexture(Some(texture));
    gl.ClampToEdge();
    var frameBuffer := gl.CreateObject(FramebufferKind);
    gl.BindFramebuffer(Some(frameBuffer));
    var depthBuffer := gl.CreateObject(RenderbufferKind);
    gl.BindRenderbuffer(Some(depthBuffer));
    gl.BindFramebuffer(None);
    gl.BindTexture(None);
    fbo := FBO(frameBuffer, depthBuffer, texture, width, height);
  }
}
