/** Renderer set-up: compiling and linking shader programs, the table of
    uniform locations, the per-frame upload of uniform settings (with the
    clock and the mouse overriding `uTime` and `uMouse`), and the choice of
    mesh buffers for each kind of mesh. */
module Initialize {
  import opened Wrappers
  import opened JsValue
  import opened WebGLState
  import opened WebGL
  import opened Uniforms
  import opened Refs
  import opened Buffers
  import GlMath

  datatype Vector2 = Vector2(x: real, y: real)

  // ---------------------------------------------------------------------------
  // Uniform locations

  /** The locations `createUniformLocations` always adds after the settings. */
  const RESERVED: seq<string> := ["uProjectionMatrix", "uModelViewMatrix", "uNormalMatrix", "uDisplacement",
                                  "uOutlinePass", "uDiffuse0", "uDiffuse1", "uDiffuse2", "uDiffuse3", "uDiffuse4"]

  /** A record from uniform name to location; `None` is the `null` that
      `getUniformLocation` returns for a program that did not link. */
  type Locations = map<string, Option<Location>>

  /** Adds `name: gl.getUniformLocation(program, name)` for every name. */
  function AddLocations(m: Locations, names: seq<string>, s: GLState, program: Handle): (r: Locations)
    ensures r.Keys == m.Keys + set k | k in names
    ensures forall k :: k in r && k !in names ==> r[k] == m[k]
    ensures forall k :: k in names ==> r[k] == UniformLocation(s, program, k)
  {
    if names == [] then m
    else AddLocations(m, names[..|names| - 1], s, program)[names[|names| - 1] := UniformLocation(s, program, names[|names| - 1])]
  }

  /** `mapUniformSettingsToLocations`: a location per settings key, plus
      `frameBufferTexture0` when the ping-pong buffers are in use. */
  function MapUniformSettingsToLocations(keys: seq<string>, s: GLState, program: Handle, useFrameBuffer: bool)
    : (r: Locations)
  {
    var start := if useFrameBuffer then map["frameBufferTexture0" := UniformLocation(s, program, "frameBufferTexture0")]
                 else map[];
    AddLocations(start, keys, s, program)
  }

  /** `createUniformLocations`: the settings' locations overwritten by the
      reserved ones. Every entry holds the location of its own key. */
  function CreateUniformLocations(keys: seq<string>, s: GLState, program: Handle, usePingPong: bool)
    : (r: Locations)
    ensures r.Keys == (set k | k in keys) + (set k | k in RESERVED) + (if usePingPong then {"frameBufferTexture0"} else {})
    ensures forall k :: k in r ==> r[k] == UniformLocation(s, program, k)
  {
    AddLocations(MapUniformSettingsToLocations(keys, s, program, usePingPong), RESERVED, s, program)
  }

  /** `uniformLocations[uniform.name]`: the lookup uses the setting's `name`
      property (a missing name is the key "undefined"), not its key. */
  function LocationFor(info: SettingInfo, locations: Locations): Option<Location>
  {
    var key := if info.name.Some? then info.name.value else "undefined";
    if key in locations then locations[key] else None
  }

  /** A setting whose `name` equals its key finds the program's location for
      that key; one whose `name` is no key and not reserved finds nothing. */
  lemma NameVersusKey(keys: seq<string>, s: GLState, program: Handle, usePingPong: bool, key: string, info: SettingInfo)
    requires key in keys
    ensures var m := CreateUniformLocations(keys, s, program, usePingPong);
      && (info.name == Some(key) ==> LocationFor(info, m) == UniformLocation(s, program, key))
      && ((info.name.Some? && info.name.value !in keys && info.name.value !in RESERVED
           && (usePingPong ==> info.name.value != "frameBufferTexture0")) ==> LocationFor(info, m).None?)
  {
  }

  // ---------------------------------------------------------------------------
  // Per-frame uniform upload

  /** `Object.values(v)`: an object's property values, nothing for a number,
      the characters of a string; `undefined` throws. */
  function ObjectValues(v: Value): (r: Result<seq<Scalar>, JsError>)
    ensures r.Err? <==> v == Undefined
    ensures v.Obj? ==> r == Ok(Values(v.entries))
  {
    match v
    case Obj(entries) => Ok(Values(entries))
    case Prim(Num(_)) => Ok([])
    case Prim(Str(s)) => Ok(Characters(s))
    case Prim(Undef) => Err(TypeError("Cannot convert undefined or null to object"))
  }

  /** A string's characters, each as a one-character string. */
  function Characters(s: string): (r: seq<Scalar>)
    ensures |r| == |s| && forall k :: 0 <= k < |s| ==> r[k] == Str([s[k]])
  {
    if s == [] then [] else [Str([s[0]])] + Characters(s[1..])
  }

  /** `Object.values(mousePos)`: the array [x, y]. */
  function MouseValue(p: Vector2): Value
  {
    Obj([Entry("0", Num(p.x)), Entry("1", Num(p.y))])
  }

  /** A setting as `assignUniforms` finds it. */
  datatype Item = Item(info: SettingInfo, value: Value)

  /** One setting handled: its value afterwards, the uniform calls issued and
      the exception, if one was thrown. */
  datatype Handled = Handled(value: Value, calls: seq<UniformCall>, error: Option<JsError>)

  /** The `uniform*fv` call for a vector setting holding `v`. */
  function VectorCall(kind: UniformMethod, loc: Option<Location>, v: Value): Handled
  {
    var vals := ObjectValues(v);
    if vals.Err? then Handled(v, [], Some(vals.error)) else Handled(v, [UniformCall(kind, loc, Many(vals.value))], None)
  }

  /** The body of the `forEach` in `assignUniforms` for one setting. */
  function Handle(item: Item, time: real, mousePos: Option<Vector2>, locations: Locations): Handled
  {
    var loc := LocationFor(item.info, locations);
    match item.info.uniformType
    case Float1 =>
      var v := if item.info.name == Some("uTime") then Prim(Num(time)) else item.value;
      Handled(v, [UniformCall(Uniform1f, loc, One(v))], None)
    case Int1 => Handled(item.value, [UniformCall(Uniform1i, loc, One(item.value))], None)
    case Vec2 =>
      if item.info.name == Some("uMouse") then
        if mousePos.None? then Handled(item.value, [], Some(TypeError("Cannot convert undefined or null to object")))
        else VectorCall(Uniform2fv, loc, MouseValue(mousePos.value))
      else VectorCall(Uniform2fv, loc, item.value)
    case Vec3 => VectorCall(Uniform3fv, loc, item.value)
    case Vec4 => VectorCall(Uniform4fv, loc, item.value)
    case Untyped => Handled(item.value, [], None)
  }

  /** The values, calls and exception after `assignUniforms` has visited the
      settings in key order, stopping at the first exception. */
  datatype Outcome = Outcome(values: seq<Value>, calls: seq<UniformCall>, error: Option<JsError>)

  function AssignSpec(items: seq<Item>, time: real, mousePos: Option<Vector2>, locations: Locations): (o: Outcome)
    ensures |o.values| == |items|
  {
    if items == [] then Outcome([], [], None)
    else
      var prev := AssignSpec(items[..|items| - 1], time, mousePos, locations);
      var item := items[|items| - 1];
      if prev.error.Some? then Outcome(prev.values + [item.value], prev.calls, prev.error)
      else
        var h := Handle(item, time, mousePos, locations);
        Outcome(prev.values + [h.value], prev.calls + h.calls, h.error)
  }

  /** Setting i ends with the value its own step gives, or untouched when an
      earlier setting threw. */
  lemma {:induction false} AssignValueAt(items: seq<Item>, time: real, mousePos: Option<Vector2>, locations: Locations, i: nat)
    requires i < |items|
    ensures var o := AssignSpec(items, time, mousePos, locations);
      o.values[i] == if AssignSpec(items[..i], time, mousePos, locations).error.Some? then items[i].value
                     else Handle(items[i], time, mousePos, locations).value
  {
    var n := |items| - 1;
    assert items[..n][..i] == items[..i];
    if i < n {
      AssignValueAt(items[..n], time, mousePos, locations, i);
    }
  }

  /** Once a setting has thrown, the outcome keeps that exception. */
  lemma {:induction false} AssignErrorSticky(items: seq<Item>, time: real, mousePos: Option<Vector2>, locations: Locations, i: nat)
    requires i <= |items| && AssignSpec(items[..i], time, mousePos, locations).error.Some?
    ensures AssignSpec(items, time, mousePos, locations).error.Some?
  {
    if i < |items| {
      var n := |items| - 1;
      assert items[..n][..i] == items[..i];
      AssignErrorSticky(items[..n], time, mousePos, locations, i);
    } else {
      assert items[..i] == items;
    }
  }

  /** `assignUniforms` throws exactly when some setting's step throws: a
      `uMouse` vector without a mouse position, or a vector whose value is
      `undefined`. */
  lemma {:induction false} AssignFails(items: seq<Item>, time: real, mousePos: Option<Vector2>, locations: Locations)
    ensures AssignSpec(items, time, mousePos, locations).error.Some?
        <==> exists i :: 0 <= i < |items| && Handle(items[i], time, mousePos, locations).error.Some?
  {
    if items != [] {
      var n := |items| - 1;
      AssignFails(items[..n], time, mousePos, locations);
      if AssignSpec(items[..n], time, mousePos, locations).error.Some? {
        var i :| 0 <= i < n && Handle(items[..n][i], time, mousePos, locations).error.Some?;
        assert items[..n][i] == items[i];
      } else {
        forall i | 0 <= i < n
          ensures Handle(items[i], time, mousePos, locations).error.None?
        {
          assert items[..n][i] == items[i];
        }
      }
    }
  }

  /** After a run without exception, every FLOAT_1 setting named `uTime`
      holds the time and every VEC_2 setting named `uMouse` the mouse
      position as [x, y]; every other setting, INT_1 ones in particular,
      keeps its value whether or not an exception was thrown. */
  lemma AssignOverrides(items: seq<Item>, time: real, mousePos: Option<Vector2>, locations: Locations, i: nat)
    requires i < |items|
    ensures var o := AssignSpec(items, time, mousePos, locations);
      && ((o.error.None? && items[i].info.uniformType == Float1 && items[i].info.name == Some("uTime"))
            ==> o.values[i] == Prim(Num(time)))
      && ((o.error.None? && items[i].info.uniformType == Vec2 && items[i].info.name == Some("uMouse"))
            ==> mousePos.Some? && o.values[i] == MouseValue(mousePos.value))
      && ((!(items[i].info.uniformType == Float1 && items[i].info.name == Some("uTime"))
           && !(items[i].info.uniformType == Vec2 && items[i].info.name == Some("uMouse")))
            ==> o.values[i] == items[i].value)
  {
    AssignValueAt(items, time, mousePos, locations, i);
    var o := AssignSpec(items, time, mousePos, locations);
    if o.error.None? && AssignSpec(items[..i], time, mousePos, locations).error.Some? {
      AssignErrorSticky(items, time, mousePos, locations, i);
    }
    if o.error.None? && items[i].info.uniformType == Vec2 && items[i].info.name == Some("uMouse") {
      assert AssignSpec(items[..i + 1], time, mousePos, locations).error.None? by {
        if AssignSpec(items[..i + 1], time, mousePos, locations).error.Some? {
          AssignErrorSticky(items, time, mousePos, locations, i + 1);
        }
      }
      assert items[..i + 1][..i] == items[..i];
    }
  }

  /** The settings of `t` in key order, as the loop reads them. */
  ghost function Snapshot(t: Table): (items: seq<Item>)
    requires ValidTable(t)
    reads InOrder(t)
    ensures |items| == |t.keys|
    ensures forall j :: 0 <= j < |items| ==> items[j] == Item(InOrder(t)[j].info, InOrder(t)[j].value)
  {
    ItemsOf(InOrder(t))
  }

  ghost function ItemsOf(objs: seq<Setting>): (items: seq<Item>)
    reads objs
    ensures |items| == |objs|
    ensures forall j :: 0 <= j < |items| ==> items[j] == Item(objs[j].info, objs[j].value)
  {
    if objs == [] then [] else ItemsOf(objs[..|objs| - 1]) + [Item(objs[|objs| - 1].info, objs[|objs| - 1].value)]
  }

  /** A context after the uniform calls `calls` have been issued on it. */
  function WithCalls(s: GLState, calls: seq<UniformCall>): (r: GLState)
    ensures SameObjects(s, r) && r.uniformCalls == s.uniformCalls + calls
  {
    s.(uniformCalls := s.uniformCalls + calls)
  }

  lemma WithCallsTwice(s: GLState, a: seq<UniformCall>, b: seq<UniformCall>)
    ensures WithCalls(WithCalls(s, a), b) == WithCalls(s, a + b)
  {
    assert s.uniformCalls + a + b == s.uniformCalls + (a + b);
  }

  /** One setting of `assignUniforms`: override, then upload. */
  method AssignOne(s: Setting, gl: GL, time: real, mousePos: Option<Vector2>, locations: Locations, ghost item: Item)
    returns (error: Option<JsError>)
    requires gl.Valid() && item == Item(s.info, s.value)
    modifies s, gl
    ensures gl.Valid()
    ensures var h := Handle(item, time, mousePos, locations);
      s.value == h.value && error == h.error && gl.st == WithCalls(old(gl.st), h.calls)
  {
    var loc := LocationFor(s.info, locations);
    match s.info.uniformType
    case Float1 =>
      if s.info.name == Some("uTime") {
        s.value := Prim(Num(time));
      }
      gl.Uniform(UniformCall(Uniform1f, loc, One(s.value)));
      return None;
    case Int1 =>
      gl.Uniform(UniformCall(Uniform1i, loc, One(s.value)));
      return None;
    case Vec2 =>
      if s.info.name == Some("uMouse") {
        if mousePos.None? {
          return Some(TypeError("Cannot convert undefined or null to object"));
        }
        s.value := MouseValue(mousePos.value);
      }
      error := UploadVector(s.value, Uniform2fv, loc, gl);
    case Vec3 =>
      error := UploadVector(s.value, Uniform3fv, loc, gl);
    case Vec4 =>
      error := UploadVector(s.value, Uniform4fv, loc, gl);
    case Untyped =>
      return None;
  }

  /** `gl.uniform*fv(location, Object.values(value))`. */
  method UploadVector(v: Value, kind: UniformMethod, loc: Option<Location>, gl: GL) returns (error: Option<JsError>)
    requires gl.Valid()
    modifies gl
    ensures gl.Valid()
    ensures var h := VectorCall(kind, loc, v);
      error == h.error && gl.st == WithCalls(old(gl.st), h.calls)
  {
    var vals := ObjectValues(v);
    if vals.Err? {
      return Some(vals.error);
    }
    gl.Uniform(UniformCall(kind, loc, Many(vals.value)));
    return None;
  }

  /** `assignUniforms`: visits the settings in key order, overwrites `uTime`
      and `uMouse` in place and issues one uniform call per typed setting;
      an exception stops the visit. */
  method AssignUniforms(t: Table, locations: Locations, gl: GL, time: real, mousePos: Option<Vector2>)
    returns (r: Result<(), JsError>)
    requires ValidTable(t) && gl.Valid()
    modifies gl, InOrder(t)
    ensures gl.Valid()
    ensures var o := AssignSpec(old(Snapshot(t)), time, mousePos, locations);
      && (forall i :: 0 <= i < |t.keys| ==> t.settings[t.keys[i]].value == o.values[i])
      && gl.st == WithCalls(old(gl.st), o.calls)
      && (r.Err? <==> o.error.Some?) && (r.Err? ==> r.error == o.error.value)
  {
    r := AssignSettings(InOrder(t), locations, gl, time, mousePos, Snapshot(t));
  }

  /** No setting object is visited twice. */
  ghost predicate Distinct(objs: seq<Setting>)
  {
    forall j, k :: 0 <= j < k < |objs| ==> objs[j] != objs[k]
  }

  /** The `forEach` of `assignUniforms` over the settings in key order. */
  method AssignSettings(objs: seq<Setting>, locations: Locations, gl: GL, time: real, mousePos: Option<Vector2>,
                        ghost items: seq<Item>)
    returns (r: Result<(), JsError>)
    requires Distinct(objs) && gl.Valid() && items == ItemsOf(objs)
    modifies gl, objs
    ensures gl.Valid()
    ensures var o := AssignSpec(items, time, mousePos, locations);
      && (forall i :: 0 <= i < |objs| ==> objs[i].value == o.values[i])
      && gl.st == WithCalls(old(gl.st), o.calls)
      && (r.Err? <==> o.error.Some?) && (r.Err? ==> r.error == o.error.value)
  {
    ghost var acc := AssignSpec(items[..0], time, mousePos, locations);
    assert Visited(objs, items, time, mousePos, locations, 0, acc, old(gl.st), gl.st);
    var i := 0;
    while i < |objs|
      invariant gl.Valid() && Visited(objs, items, time, mousePos, locations, i, acc, old(gl.st), gl.st)
    {
      var error;
      error, acc := AssignNext(objs, i, locations, gl, time, mousePos, items, acc, old(gl.st));
      if error.Some? {
        return Err(error.value);
      }
      i := i + 1;
    }
    assert items[..i] == items;
    return Ok(());
  }

  /** The settings before i are handled without an exception, the others
      untouched, and the calls so far issued. */
  ghost predicate Visited(objs: seq<Setting>, items: seq<Item>, time: real, mousePos: Option<Vector2>, locations: Locations,
                          i: int, acc: Outcome, g0: GLState, s: GLState)
    reads objs
  {
    && 0 <= i <= |objs| == |items|
    && acc == AssignSpec(items[..i], time, mousePos, locations) && acc.error.None?
    && (forall j :: 0 <= j < i ==> objs[j].value == acc.values[j])
    && (forall j :: i <= j < |objs| ==> objs[j].value == items[j].value)
    && (forall j :: 0 <= j < |objs| ==> items[j].info == objs[j].info)
    && s == WithCalls(g0, acc.calls)
  }

  /** One turn of the `forEach`: setting i handled and the outcome extended
      by it; when it throws, the outcome of the whole visit. */
  method AssignNext(objs: seq<Setting>, i: nat, locations: Locations, gl: GL, time: real, mousePos: Option<Vector2>,
                    ghost items: seq<Item>, ghost acc: Outcome, ghost g0: GLState)
    returns (error: Option<JsError>, ghost next: Outcome)
    requires i < |objs| && gl.Valid() && Distinct(objs)
    requires Visited(objs, items, time, mousePos, locations, i, acc, g0, gl.st)
    modifies objs[i], gl
    ensures gl.Valid()
    ensures error.None? ==> Visited(objs, items, time, mousePos, locations, i + 1, next, g0, gl.st)
    ensures error.Some? ==> var o := AssignSpec(items, time, mousePos, locations);
      && (forall j :: 0 <= j < |objs| ==> objs[j].value == o.values[j])
      && gl.st == WithCalls(g0, o.calls) && o.error == error
  {
    ghost var h := Handle(items[i], time, mousePos, locations);
    error := AssignOne(objs[i], gl, time, mousePos, locations, items[i]);
    AssignStep(items, time, mousePos, locations, i);
    WithCallsTwice(g0, acc.calls, h.calls);
    next := Outcome(acc.values + [h.value], acc.calls + h.calls, h.error);
    if error.Some? {
      AssignAfterError(items, time, mousePos, locations, i);
    }
  }

  /** Setting i after a run of settings that threw nothing. */
  lemma AssignStep(items: seq<Item>, time: real, mousePos: Option<Vector2>, locations: Locations, i: nat)
    requires i < |items| && AssignSpec(items[..i], time, mousePos, locations).error.None?
    ensures var prev := AssignSpec(items[..i], time, mousePos, locations);
      var h := Handle(items[i], time, mousePos, locations);
      AssignSpec(items[..i + 1], time, mousePos, locations) == Outcome(prev.values + [h.value], prev.calls + h.calls, h.error)
  {
    assert items[..i + 1][..i] == items[..i];
  }

  /** When setting i throws, the later settings keep their values and add no calls. */
  lemma {:induction false} AssignAfterError(items: seq<Item>, time: real, mousePos: Option<Vector2>, locations: Locations, i: nat)
    requires i < |items| && AssignSpec(items[..i + 1], time, mousePos, locations).error.Some?
    ensures var o := AssignSpec(items, time, mousePos, locations);
      var p := AssignSpec(items[..i + 1], time, mousePos, locations);
      && o.calls == p.calls && o.error == p.error
      && (forall j :: 0 <= j <= i ==> o.values[j] == p.values[j])
      && (forall j :: i < j < |items| ==> o.values[j] == items[j].value)
  {
    if |items| > i + 1 {
      var n := |items| - 1;
      assert items[..n][..i + 1] == items[..i + 1];
      AssignAfterError(items[..n], time, mousePos, locations, i);
    } else {
      assert items[..i + 1] == items;
    }
  }

  // ---------------------------------------------------------------------------
  // Shader programs

  const COMPILE_ERROR := "An error occurred compiling the shaders: "

  /** The state `createShader`, `shaderSource` and `compileShader` leave:
      a new shader of the stage, holding the source and the compiler's verdict. */
  function ShaderCompiled(s: GLState, stage: Stage, source: string, compiles: (Stage, string) -> bool): (r: GLState)
    requires WebGLState.Valid(s)
    ensures WebGLState.Valid(r) && r.next == s.next + 1 && r.deleted == s.deleted && r.attached == s.attached
    ensures r.kinds == s.kinds[s.next := ShaderKind(stage)] && r.sources == s.sources[s.next := source]
    ensures Compiled(r, s.next) <==> compiles(stage, source)
  {
    s.(next := s.next + 1, kinds := s.kinds[s.next := ShaderKind(stage)],
       sources := s.sources[s.next := source], compiled := s.compiled[s.next := compiles(stage, source)])
  }

  /** The state `loadShader` leaves: the compiled shader, deleted again when
      its source did not compile. */
  function ShaderLoaded(s: GLState, stage: Stage, source: string, compiles: (Stage, string) -> bool): (r: GLState)
    requires WebGLState.Valid(s)
    ensures WebGLState.Valid(r)
  {
    var c := ShaderCompiled(s, stage, source, compiles);
    if compiles(stage, source) then c else Delete(c, s.next)
  }

  /** `loadShader`: a compiled shader, or the compiler's log as an `Error`
      after the failed shader has been deleted. */
  method LoadShader(gl: GL, stage: Stage, source: string) returns (r: Result<Handle, JsError>)
    requires gl.Valid()
    modifies gl
    ensures gl.Valid() && gl.st == ShaderLoaded(old(gl.st), stage, source, gl.compiles)
    ensures r.Ok? <==> gl.compiles(stage, source)
    ensures r.Ok? ==> r.value == old(gl.st.next)
    ensures r.Err? ==> r.error == Error(COMPILE_ERROR + gl.shaderLog(stage, source))
  {
    var shader := gl.CreateObject(ShaderKind(stage));
    gl.ShaderSource(shader, source);
    gl.CompileShader(shader);
    var ok := gl.GetCompileStatus(shader);
    if !ok {
      var log := gl.GetShaderInfoLog(shader);
      gl.DeleteObject(shader);
      return Err(Error(COMPILE_ERROR + log));
    }
    return Ok(shader);
  }

  datatype LoadedShaders = LoadedShaders(fragmentShader: Handle, vertexShader: Handle)

  datatype ShaderProgram = ShaderProgram(program: Handle, loadedShaders: LoadedShaders)

  /** `initShaderProgram`: the vertex shader, then the fragment shader, then a
      program with both attached and linked. A failed link only warns: the
      program is returned all the same, and it is linked exactly when the
      linker accepts the two sources. */
  method InitShaderProgram(gl: GL, vertSource: string, fragSource: string) returns (r: Result<ShaderProgram, JsError>)
    requires gl.Valid()
    modifies gl
    ensures gl.Valid() && gl.st.program == old(gl.st.program)
    ensures forall q: Handle :: q < old(gl.st.next) ==> (Linked(gl.st, q) <==> Linked(old(gl.st), q))
    ensures var vertexOk := gl.compiles(VertexStage, vertSource);
      var fragmentOk := gl.compiles(FragmentStage, fragSource);
      && (r.Ok? <==> vertexOk && fragmentOk)
      && (!vertexOk ==> r == Err(Error(COMPILE_ERROR + gl.shaderLog(VertexStage, vertSource))))
      && (vertexOk && !fragmentOk ==> r == Err(Error(COMPILE_ERROR + gl.shaderLog(FragmentStage, fragSource))))
    ensures r.Ok? ==> var n := old(gl.st.next);
      && r.value == ShaderProgram(n + 2, LoadedShaders(n + 1, n))
      && gl.st.next == n + 3 && gl.st.deleted == old(gl.st.deleted)
      && gl.st.kinds == old(gl.st.kinds)[n := ShaderKind(VertexStage)][n + 1 := ShaderKind(FragmentStage)][n + 2 := ProgramKind]
      && AttachedTo(gl.st, n + 2) == Attached(Some(n), Some(n + 1))
      && (Linked(gl.st, n + 2) <==> gl.links(vertSource, fragSource))
  {
    ghost var s0 := gl.st;
    var vertexShader := LoadShader(gl, VertexStage, vertSource);
    if vertexShader.Err? {
      return Err(vertexShader.error);
    }
    var fragmentShader := LoadShader(gl, FragmentStage, fragSource);
    if fragmentShader.Err? {
      return Err(fragmentShader.error);
    }
    var program := LinkShaders(gl, vertexShader.value, fragmentShader.value);
    r := Ok(ShaderProgram(program, LoadedShaders(fragmentShader.value, vertexShader.value)));
  }

  /** The program half of `initShaderProgram`: `createProgram`, both
      `attachShader` calls and `linkProgram`. */
  method LinkShaders(gl: GL, vertexShader: Handle, fragmentShader: Handle) returns (program: Handle)
    requires gl.Valid()
    requires vertexShader in gl.st.kinds && gl.st.kinds[vertexShader] == ShaderKind(VertexStage)
    requires fragmentShader in gl.st.kinds && gl.st.kinds[fragmentShader] == ShaderKind(FragmentStage)
    modifies gl
    ensures gl.Valid() && program == old(gl.st.next)
    ensures gl.st.next == program + 1 && gl.st.kinds == old(gl.st.kinds)[program := ProgramKind]
    ensures gl.st.deleted == old(gl.st.deleted) && gl.st.program == old(gl.st.program)
    ensures AttachedTo(gl.st, program) == Attached(Some(vertexShader), Some(fragmentShader))
    ensures Linked(gl.st, program) <==>
      && Compiled(old(gl.st), vertexShader) && Compiled(old(gl.st), fragmentShader)
      && vertexShader in old(gl.st.sources) && fragmentShader in old(gl.st.sources)
      && gl.links(old(gl.st.sources)[vertexShader], old(gl.st.sources)[fragmentShader])
    ensures forall q: Handle :: q != program ==> (Linked(gl.st, q) <==> Linked(old(gl.st), q))
  {
    ghost var s0 := gl.st;
    program := gl.CreateObject(ProgramKind);
    assert AttachedTo(gl.st, program) == Attached(None, None);
    gl.AttachShader(program, vertexShader);
    gl.AttachShader(program, fragmentShader);
    assert gl.st.sources == s0.sources && gl.st.compiled == s0.compiled && gl.st.linked == s0.linked;
    gl.LinkProgram(program);
  }

  /** `getUniformLocation(program, name)` for a program that did or did not link. */
  function LocationIf(program: Handle, linked: bool, name: string): Option<Location>
  {
    if linked then Some(Location(program, name)) else None
  }

  /** `initializeOutlineProgram`: the outline program and, in its ref, the
      locations of its three uniforms. */
  method InitializeOutlineProgram(gl: GL, outlineUniformLocations: Ref<Locations>, vertSource: string, fragSource: string)
    returns (r: Result<Handle, JsError>)
    requires gl.Valid()
    modifies gl, outlineUniformLocations
    ensures gl.Valid() && gl.st.program == old(gl.st.program)
    ensures forall q: Handle :: q < old(gl.st.next) ==> (Linked(gl.st, q) <==> Linked(old(gl.st), q))
    ensures r.Ok? <==> gl.compiles(VertexStage, vertSource) && gl.compiles(FragmentStage, fragSource)
    ensures r.Ok? ==> && r.value == old(gl.st.next) + 2 && r.value < gl.st.next
                      && outlineUniformLocations.current.Keys == {"uSource", "uOutline", "uResolution"}
                      && forall k :: k in outlineUniformLocations.current ==>
                           outlineUniformLocations.current[k] == LocationIf(r.value, gl.links(vertSource, fragSource), k)
    ensures r.Err? ==> outlineUniformLocations.current == old(outlineUniformLocations.current)
  {
    var shaderProgram := InitShaderProgram(gl, vertSource, fragSource);
    if shaderProgram.Err? {
      return Err(shaderProgram.error);
    }
    var program := shaderProgram.value.program;
    var source := gl.GetUniformLocation(program, "uSource");
    var outline := gl.GetUniformLocation(program, "uOutline");
    var resolution := gl.GetUniformLocation(program, "uResolution");
    outlineUniformLocations.current := map["uSource" := source, "uOutline" := outline, "uResolution" := resolution];
    return Ok(program);
  }

  // ---------------------------------------------------------------------------
  // Renderer and mesh

  datatype Renderer = Renderer(program: Handle, outlineProgram: Option<Handle>)

  /** `uniforms.uResolution.value`, which sizes the ping-pong framebuffers. */
  function ResolutionOf(t: Table): (r: Result<Value, JsError>)
    reads if "uResolution" in t.settings then {t.settings["uResolution"]} else {}
    ensures r.Err? <==> "uResolution" !in t.settings
  {
    if "uResolution" in t.settings then Ok(t.settings["uResolution"].value)
    else Err(TypeError("Cannot read properties of undefined (reading 'value')"))
  }

  /** `FBOA.current` and `FBOB.current`: two new framebuffers of the size
      `{ x, y }` held by `uResolution`. */
  method InitPingPong(gl: GL, resolution: Value, FBOA: Ref<Option<FBO>>, FBOB: Ref<Option<FBO>>)
    returns (r: Result<(), JsError>)
    requires gl.Valid() && FBOA != FBOB
    modifies gl, FBOA, FBOB
    ensures gl.Valid() && gl.st.program == old(gl.st.program)
    ensures gl.st.linked == old(gl.st.linked) && old(gl.st.next) <= gl.st.next
    ensures r.Err? <==> resolution == Undefined
    ensures r.Ok? ==> && FBOA.current.Some? && FBOB.current.Some?
                      && var a := FBOA.current.value; var b := FBOB.current.value;
                      && a.width == b.width == Get(resolution, "x") && a.height == b.height == Get(resolution, "y")
                      && {a.buffer, a.depthBuffer, a.targetTexture} !! {b.buffer, b.depthBuffer, b.targetTexture}
                      && Live(gl.st, a.buffer) && Live(gl.st, b.buffer)
                      && Live(gl.st, a.targetTexture) && Live(gl.st, b.targetTexture)
    ensures r.Err? ==> gl.st == old(gl.st) && FBOA.current == old(FBOA.current) && FBOB.current == old(FBOB.current)
  {
    if resolution == Undefined {
      return Err(TypeError("Cannot read properties of undefined (reading 'x')"));
    }
    var a := InitFrameBufferObject(gl, Get(resolution, "x"), Get(resolution, "y"));
    FBOA.current := Some(a);
    var b := InitFrameBufferObject(gl, Get(resolution, "x"), Get(resolution, "y"));
    FBOB.current := Some(b);
    return Ok(());
  }

  /** The uniform locations `initializeRenderer` stores: one per setting key,
      reserved name and, with ping-pong buffers, `frameBufferTexture0`, each
      present exactly when the program linked. */
  ghost predicate LocatedFor(locations: Locations, keys: seq<string>, program: Handle, linked: bool, usePingPong: bool)
  {
    && locations.Keys == (set k | k in keys) + (set k | k in RESERVED) + (if usePingPong then {"frameBufferTexture0"} else {})
    && forall k :: k in locations ==> locations[k] == LocationIf(program, linked, k)
  }

  /** `initializeRenderer`. Without a canvas nothing happens. Otherwise the
      shader program is built and made current, its shaders are stored in
      `loadedShadersRef`, the uniform locations are looked up, the ping-pong
      framebuffers are made when both refs are given, and the outline
      program when its locations ref is given. */
  method InitializeRenderer(gl: GL, hasCanvas: bool, uniformLocations: Ref<Locations>,
                            vertexSource: string, fragmentSource: string, uniforms: Table,
                            FBOA: Ref?<Option<FBO>>, FBOB: Ref?<Option<FBO>>,
                            outlineUniformLocations: Ref?<Locations>, loadedShadersRef: Ref?<Option<LoadedShaders>>,
                            outlineVertexSource: string, outlineFragmentSource: string)
    returns (r: Result<Option<Renderer>, JsError>)
    requires gl.Valid() && uniformLocations != outlineUniformLocations && (FBOA != null ==> FBOA != FBOB)
    modifies gl, uniformLocations, FBOA, FBOB, outlineUniformLocations, loadedShadersRef
    ensures gl.Valid()
    ensures !hasCanvas ==> r == Ok(None) && gl.st == old(gl.st)
    ensures hasCanvas && !(gl.compiles(VertexStage, vertexSource) && gl.compiles(FragmentStage, fragmentSource)) ==> r.Err?
    ensures hasCanvas && loadedShadersRef == null ==> r.Err?
    ensures r.Ok? && r.value.Some? ==>
      && r.value.value.program == old(gl.st.next) + 2 && gl.st.program == Some(r.value.value.program)
      && r.value.value.program < gl.st.next
      && loadedShadersRef != null
      && loadedShadersRef.current == Some(LoadedShaders(r.value.value.program - 1, r.value.value.program - 2))
      && (Linked(gl.st, r.value.value.program) <==> gl.links(vertexSource, fragmentSource))
      && LocatedFor(uniformLocations.current, uniforms.keys, r.value.value.program,
                    gl.links(vertexSource, fragmentSource), FBOA != null && FBOB != null)
      && (FBOA != null && FBOB != null ==> FBOA.current.Some? && FBOB.current.Some?)
      && (outlineUniformLocations != null <==> r.value.value.outlineProgram.Some?)
  {
    if !hasCanvas {
      return Ok(None);
    }
    var shaderProgram := InitShaderProgram(gl, vertexSource, fragmentSource);
    if shaderProgram.Err? {
      return Err(shaderProgram.error);
    }
    var program := shaderProgram.value.program;
    if loadedShadersRef == null {
      return Err(TypeError("Cannot set properties of undefined (setting 'current')"));
    }
    loadedShadersRef.current := Some(shaderProgram.value.loadedShaders);
    gl.UseProgram(Some(program));
    var outlineProgram := FinishRenderer(gl, program, gl.links(vertexSource, fragmentSource), uniformLocations, uniforms,
                                         FBOA, FBOB, outlineUniformLocations, outlineVertexSource, outlineFragmentSource);
    if outlineProgram.Err? {
      return Err(outlineProgram.error);
    }
    return Ok(Some(Renderer(program, outlineProgram.value)));
  }

  /** The rest of `initializeRenderer` once its program is current: the
      uniform locations, the ping-pong framebuffers and the outline program. */
  method FinishRenderer(gl: GL, program: Handle, ghost linked: bool, uniformLocations: Ref<Locations>, uniforms: Table,
                        FBOA: Ref?<Option<FBO>>, FBOB: Ref?<Option<FBO>>, outlineUniformLocations: Ref?<Locations>,
                        outlineVertexSource: string, outlineFragmentSource: string)
    returns (r: Result<Option<Handle>, JsError>)
    requires gl.Valid() && program < gl.st.next && (Linked(gl.st, program) <==> linked)
    requires uniformLocations != outlineUniformLocations && (FBOA != null ==> FBOA != FBOB)
    modifies gl, uniformLocations, FBOA, FBOB, outlineUniformLocations
    ensures gl.Valid() && gl.st.program == old(gl.st.program) && (Linked(gl.st, program) <==> linked)
    ensures r.Ok? ==> old(gl.st.next) <= gl.st.next
    ensures r.Ok? ==>
      && LocatedFor(uniformLocations.current, uniforms.keys, program, linked, FBOA != null && FBOB != null)
      && (FBOA != null && FBOB != null ==> FBOA.current.Some? && FBOB.current.Some?)
      && (outlineUniformLocations != null <==> r.value.Some?)
  {
    var located := LocateUniforms(gl, program, uniformLocations, uniforms, FBOA, FBOB);
    if located.Err? {
      return Err(located.error);
    }
    if outlineUniformLocations == null {
      return Ok(None);
    }
    var outline := InitializeOutlineProgram(gl, outlineUniformLocations, outlineVertexSource, outlineFragmentSource);
    if outline.Err? {
      return Err(outline.error);
    }
    return Ok(Some(outline.value));
  }

  /** The middle of `initializeRenderer`: the uniform locations of the
      current program and, when both refs are given, the ping-pong
      framebuffers sized by `uResolution`. */
  method LocateUniforms(gl: GL, program: Handle, uniformLocations: Ref<Locations>, uniforms: Table,
                        FBOA: Ref?<Option<FBO>>, FBOB: Ref?<Option<FBO>>)
    returns (r: Result<(), JsError>)
    requires gl.Valid() && (FBOA != null ==> FBOA != FBOB)
    modifies gl, uniformLocations, FBOA, FBOB
    ensures gl.Valid() && gl.st.program == old(gl.st.program) && gl.st.linked == old(gl.st.linked)
    ensures old(gl.st.next) <= gl.st.next
    ensures LocatedFor(uniformLocations.current, uniforms.keys, program, Linked(old(gl.st), program), FBOA != null && FBOB != null)
    ensures r.Err? <==> FBOA != null && FBOB != null && (ResolutionOf(uniforms).Err? || ResolutionOf(uniforms).value == Undefined)
    ensures r.Ok? && FBOA != null && FBOB != null ==> FBOA.current.Some? && FBOB.current.Some?
  {
    var usePingPongBuffers := FBOA != null && FBOB != null;
    uniformLocations.current := CreateUniformLocations(uniforms.keys, gl.st, program, usePingPongBuffers);
    if usePingPongBuffers {
      var resolution := ResolutionOf(uniforms);
      if resolution.Err? {
        return Err(resolution.error);
      }
      r := InitPingPong(gl, resolution.value, FBOA, FBOB);
    } else {
      r := Ok(());
    }
  }

  /** `MESH_TYPE`; `Unspecified` is a demo that names none. */
  datatype MeshType = BaseTriangles | FaceArrayMesh | ObjMesh | Unspecified

  /** `initializeMesh`: the screen quad for base-triangle demos and by
      default; the face array's buffers, with barycentric coordinates, when
      one is given; for an OBJ mesh, the quad for the outline program first
      and then the mesh's buffers for the main program, which ends current. */
  method InitializeMesh(gl: GL, program: Handle, outlineProgram: Option<Handle>, meshType: MeshType,
                        faceArray: Option<seq<seq<GlMath.Vector3>>>, mesh: Option<MeshArrays>,
                        buffersRef: Ref?<Option<MeshBuffers>>, baseVertexBufferRef: Ref?<Option<Buffer>>,
                        sqrt: real -> real)
    returns (r: Result<(), JsError>)
    requires gl.Valid()
    modifies gl, buffersRef, baseVertexBufferRef
    ensures gl.Valid() && Extends(old(gl.st), gl.st)
    ensures (meshType == BaseTriangles || meshType == Unspecified) ==>
      r.Ok? && gl.st.next == old(gl.st.next) + 1 && Feeds(gl.st, Some(Buffer(old(gl.st.next), BASE_TRIANGLE_MESH, 3, 4.0)), program, "aBaseVertexPosition", 3)
    ensures meshType == FaceArrayMesh && faceArray.None? ==> r.Ok? && gl.st == old(gl.st)
    ensures meshType == FaceArrayMesh && faceArray.Some? ==>
      && (r.Ok? <==> GlMath.ComputeFaceNormals(faceArray.value, sqrt).Some? && buffersRef != null)
      && (r.Ok? ==> buffersRef.current.Some? && buffersRef.current.value.barycentricBuffer.Some?
                    && Uploaded(gl.st, buffersRef.current.value.vertexBuffer, Float32(Coordinates(Flat(faceArray.value)))))
    ensures meshType == ObjMesh ==> ObjMeshDone(gl.st, r, program, outlineProgram, mesh, buffersRef, baseVertexBufferRef)
  {
    match meshType
    case BaseTriangles =>
      var _ := InitBaseMeshBuffers(gl, program);
      return Ok(());
    case FaceArrayMesh =>
      if faceArray.None? {
        return Ok(());
      }
      var buffers := InitMeshBuffersFromFaceArray(gl, program, faceArray.value, true, sqrt);
      if buffers.Err? {
        return Err(buffers.error);
      }
      if buffersRef == null {
        return Err(TypeError("Cannot set properties of undefined (setting 'current')"));
      }
      buffersRef.current := Some(buffers.value);
      return Ok(());
    case ObjMesh =>
      r := InitializeObjMesh(gl, program, outlineProgram, mesh, buffersRef, baseVertexBufferRef);
    case Unspecified =>
      var _ := InitBaseMeshBuffers(gl, program);
      return Ok(());
  }

  /** What the OBJ branch of `initializeMesh` leaves behind in `s`. */
  ghost predicate ObjMeshDone(s: GLState, r: Result<(), JsError>, program: Handle, outlineProgram: Option<Handle>,
                              mesh: Option<MeshArrays>, buffersRef: Ref?<Option<MeshBuffers>>,
                              baseVertexBufferRef: Ref?<Option<Buffer>>)
    reads buffersRef
  {
    && (r.Ok? <==> mesh.Some? && buffersRef != null && (outlineProgram.Some? ==> baseVertexBufferRef != null))
    && ((outlineProgram.Some? ==> baseVertexBufferRef != null) ==> s.program == Some(program))
    && (r.Ok? ==> && buffersRef.current.Some? && buffersRef.current.value.barycentricBuffer.Some?
                  && Uploaded(s, buffersRef.current.value.vertexBuffer, Float32(mesh.value.positions))
                  && Feeds(s, buffersRef.current.value.vertexBuffer, program, "aVertexPosition", 3))
  }

  /** The OBJ branch of `initializeMesh`. */
  method InitializeObjMesh(gl: GL, program: Handle, outlineProgram: Option<Handle>, mesh: Option<MeshArrays>,
                           buffersRef: Ref?<Option<MeshBuffers>>, baseVertexBufferRef: Ref?<Option<Buffer>>)
    returns (r: Result<(), JsError>)
    requires gl.Valid()
    modifies gl, buffersRef, baseVertexBufferRef
    ensures gl.Valid() && Extends(old(gl.st), gl.st)
    ensures ObjMeshDone(gl.st, r, program, outlineProgram, mesh, buffersRef, baseVertexBufferRef)
    ensures outlineProgram.Some? && baseVertexBufferRef != null ==>
      && baseVertexBufferRef.current.Some?
      && Uploaded(gl.st, baseVertexBufferRef.current, Float32(BASE_TRIANGLE_MESH))
  {
    ghost var s0 := gl.st;
    if outlineProgram.Some? {
      var base := InitOutlineQuad(gl, outlineProgram.value);
      if baseVertexBufferRef == null {
        return Err(TypeError("Cannot set properties of undefined (setting 'current')"));
      }
      baseVertexBufferRef.current := Some(base);
    }
    ghost var s1 := gl.st;
    var buffers := InitObjMeshBuffers(gl, program, mesh, if outlineProgram.Some? then baseVertexBufferRef.current else None);
    ExtendsTrans(s0, s1, gl.st);
    if buffers.Err? {
      return Err(buffers.error);
    }
    if buffersRef == null {
      return Err(TypeError("Cannot set properties of undefined (setting 'current')"));
    }
    buffersRef.current := Some(buffers.value);
    return Ok(());
  }

  /** `useProgram(program)` and `initBuffers(gl, program, loadedMesh, true)`
      as the OBJ branch does them: the mesh's buffers, with barycentric
      coordinates, leaving every earlier upload (such as `base`) in place.
      A missing mesh fails when `initBuffers` destructures it. */
  method InitObjMeshBuffers(gl: GL, program: Handle, mesh: Option<MeshArrays>, base: Option<Buffer>)
    returns (b: Result<MeshBuffers, JsError>)
    requires gl.Valid()
    modifies gl
    ensures gl.Valid() && Extends(old(gl.st), gl.st) && gl.st.program == Some(program)
    ensures b.Ok? <==> mesh.Some?
    ensures b.Ok? ==> && b.value.barycentricBuffer.Some?
                      && Uploaded(gl.st, b.value.vertexBuffer, Float32(mesh.value.positions))
                      && Feeds(gl.st, b.value.vertexBuffer, program, "aVertexPosition", 3)
    ensures Uploaded(old(gl.st), base, Float32(BASE_TRIANGLE_MESH)) ==> Uploaded(gl.st, base, Float32(BASE_TRIANGLE_MESH))
  {
    ghost var s0 := gl.st;
    gl.UseProgram(Some(program));
    ghost var s1 := gl.st;
    if mesh.None? {
      return Err(TypeError("Cannot destructure property 'positions' of 'loadedMesh' as it is undefined."));
    }
    var buffers := InitBuffers(gl, program, mesh.value, true);
    ExtendsTrans(s0, s1, gl.st);
    if Uploaded(s0, base, Float32(BASE_TRIANGLE_MESH)) {
      KeepUpload(s0, gl.st, base, Float32(BASE_TRIANGLE_MESH));
    }
    return Ok(buffers);
  }

  /** The first step of the OBJ branch with an outline program: that program
      made current and the screen quad uploaded for it. */
  method InitOutlineQuad(gl: GL, outlineProgram: Handle) returns (base: Buffer)
    requires gl.Valid()
    modifies gl
    ensures gl.Valid() && Extends(old(gl.st), gl.st)
    ensures Uploaded(gl.st, Some(base), Float32(BASE_TRIANGLE_MESH))
  {
    gl.UseProgram(Some(outlineProgram));
    base := InitBaseMeshBuffers(gl, outlineProgram);
  }
}
