/** The MTL half of the mesh worker (`lib/gl/loadOBJWorker.ts`): the material
    table built line by line from an MTL file, and `loadMeshData`, which joins
    it to the OBJ geometry. */
module MtlLoader {
  import opened Wrappers
  import opened JsNumber
  import opened JsString
  import opened ObjLoader

  /** The texture file names a material line can set; `None` is `undefined`. */
  datatype MaterialMaps = MaterialMaps(diffuseMap: Option<string>, specularMap: Option<string>,
                                       normalMap: Option<string>, bumpMap: Option<string>,
                                       alphaMap: Option<string>)

  /** One `newmtl` block; a property never set reads `undefined` (`None`). */
  datatype Material = Material(name: Option<string>,
                               ambient: Option<seq<Number>>, diffuse: Option<seq<Number>>,
                               specular: Option<seq<Number>>, emissive: Option<seq<Number>>,
                               reflectivity: Option<Number>, opacity: Option<Number>,
                               textures: MaterialMaps)

  const NoMaps := MaterialMaps(None, None, None, None, None)

  /** A freshly declared material: only its name and empty texture records. */
  function NewMaterial(name: Option<string>): Material
  {
    Material(name, None, None, None, None, None, None, NoMaps)
  }

  /** The keys the `switch` of `loadMTLData` acts on. */
  predicate IsMaterialKey(key: string)
  {
    key in {"ka", "kd", "ks", "ke", "ns", "map_kd", "map_ks", "norm", "map_bump", "bump", "map_d", "d", "tr"}
  }

  /** `elements[0]`, or `undefined`. */
  function First(elements: seq<string>): Option<string>
  {
    if elements == [] then None else Some(elements[0])
  }

  /** `parseFloat(x)`: `parseFloat(undefined)` is NaN. */
  function ParseOpt(x: Option<string>, parseFloat: string -> Number): Number
  {
    if x.None? then NaN else parseFloat(x.value)
  }

  /** The property key of a line: its text up to the first space, lower-cased. */
  function KeyOf(line: string): string
  {
    ToLower(Split(line, ' ')[0])
  }

  /** Blank lines and `#` comments are skipped. */
  predicate IsSkipped(line: string)
  {
    |line| == 0 || line[0] == '#'
  }

  predicate IsDeclaration(line: string)
  {
    !IsSkipped(line) && KeywordLine(line, "newmtl")
  }

  /** A line that writes to the current material. */
  predicate IsProperty(line: string)
  {
    !IsSkipped(line) && !KeywordLine(line, "newmtl") && IsMaterialKey(KeyOf(line))
  }

  /** The message of the `TypeError` a property line throws when no material
      has been declared yet (`materials[undefined]` is `undefined`). */
  function OrphanMessage(key: string): string
  {
    if key in {"map_kd", "map_ks", "norm", "map_bump", "bump", "map_d"} then
      "Cannot read properties of undefined (reading 'textures')"
    else
      var field := if key == "ka" then "ambient" else if key == "kd" then "diffuse"
        else if key == "ks" then "specular" else if key == "ke" then "emissive"
        else if key == "ns" then "reflectivity" else "opacity";
      "Cannot set properties of undefined (setting '" + field + "')"
  }

  /** The effect of a property line with key `key` on the current material. */
  function ApplyKey(m: Material, key: string, elements: seq<string>, diffuseTextures: Option<map<string, string>>,
                    parseFloat: string -> Number): Material
  {
    if key == "ka" then m.(ambient := Some(ParseAll(elements, parseFloat)))
    else if key == "kd" then m.(diffuse := Some(ParseAll(elements, parseFloat)))
    else if key == "ks" then m.(specular := Some(ParseAll(elements, parseFloat)))
    else if key == "ke" then m.(emissive := Some(ParseAll(elements, parseFloat)))
    else if key == "ns" then m.(reflectivity := Some(ParseOpt(First(elements), parseFloat)))
    else if key == "map_kd" then m.(textures := m.textures.(diffuseMap := DiffuseLookup(diffuseTextures, m.name)))
    else if key == "map_ks" then m.(textures := m.textures.(specularMap := First(elements)))
    else if key == "norm" then m.(textures := m.textures.(normalMap := First(elements)))
    else if key == "map_bump" || key == "bump" then m.(textures := m.textures.(bumpMap := First(elements)))
    else if key == "map_d" then m.(textures := m.textures.(alphaMap := First(elements)))
    else if key == "d" then m.(opacity := Some(ParseOpt(First(elements), parseFloat)))
    else if key == "tr" then m.(opacity := Some(Sub(Fin(1.0), ParseOpt(First(elements), parseFloat))))
    else m
  }

  /** `textures.diffuse && textures.diffuse[name]`: the diffuse image registered
      under the material's name; an `undefined` name is looked up as the key
      "undefined", as JavaScript coerces it. */
  function DiffuseLookup(diffuseTextures: Option<map<string, string>>, name: Option<string>): Option<string>
  {
    var key := if name.Some? then name.value else "undefined";
    if diffuseTextures.Some? && key in diffuseTextures.value then Some(diffuseTextures.value[key]) else None
  }

  /** One iteration of the `loadMTLData` loop on the materials declared so far. */
  function MtlLine(materials: seq<Material>, rawLine: string, diffuseTextures: Option<map<string, string>>,
                   parseFloat: string -> Number): Result<seq<Material>, JsError>
  {
    var line := Trim(rawLine);
    var elements := Elements(line);
    if IsSkipped(line) then Ok(materials)
    else if KeywordLine(line, "newmtl") then Ok(materials + [NewMaterial(First(elements))])
    else if !IsMaterialKey(KeyOf(line)) then Ok(materials)
    else if materials == [] then Err(TypeError(OrphanMessage(KeyOf(line))))
    else
      var last := |materials| - 1;
      Ok(materials[last := ApplyKey(materials[last], KeyOf(line), elements, diffuseTextures, parseFloat)])
  }

  /** The table after the lines `lines`; the first throwing line ends the parse. */
  function MtlLines(lines: seq<string>, diffuseTextures: Option<map<string, string>>,
                    parseFloat: string -> Number): Result<seq<Material>, JsError>
  {
    if lines == [] then Ok([])
    else
      var prev := MtlLines(lines[..|lines| - 1], diffuseTextures, parseFloat);
      if prev.Err? then prev else MtlLine(prev.value, lines[|lines| - 1], diffuseTextures, parseFloat)
  }

  /** Once a line throws, the lines after it are never read. */
  lemma {:induction false} MtlErrorStops(lines: seq<string>, i: nat, diffuseTextures: Option<map<string, string>>,
                                         parseFloat: string -> Number)
    requires i <= |lines| && MtlLines(lines[..i], diffuseTextures, parseFloat).Err?
    ensures MtlLines(lines, diffuseTextures, parseFloat) == MtlLines(lines[..i], diffuseTextures, parseFloat)
    decreases |lines|
  {
    if i < |lines| {
      var init := lines[..|lines| - 1];
      assert init[..i] == lines[..i];
      MtlErrorStops(init, i, diffuseTextures, parseFloat);
    } else {
      assert lines[..i] == lines;
    }
  }

  /** The table after one more line is that line applied to the table so far. */
  lemma MtlLinesStep(lines: seq<string>, i: nat, diffuseTextures: Option<map<string, string>>,
                     parseFloat: string -> Number)
    requires i < |lines|
    ensures var prev := MtlLines(lines[..i], diffuseTextures, parseFloat);
            MtlLines(lines[..i + 1], diffuseTextures, parseFloat)
              == if prev.Err? then prev else MtlLine(prev.value, lines[i], diffuseTextures, parseFloat)
  {
    assert lines[..i + 1][..i] == lines[..i];
  }

  /** `loadMTLData`: the materials in declaration order; the k-th `newmtl` is
      stored under key k. */
  method LoadMtlData(source: string, diffuseTextures: Option<map<string, string>>, parseFloat: string -> Number)
    returns (r: Result<seq<Material>, JsError>)
    ensures r == MtlLines(Split(source, '\n'), diffuseTextures, parseFloat)
  {
    var lines := Split(source, '\n');
    var materials: seq<Material> := [];
    var i := 0;
    while i < |lines|
      invariant 0 <= i <= |lines|
      invariant MtlLines(lines[..i], diffuseTextures, parseFloat) == Ok(materials)
    {
      MtlLinesStep(lines, i, diffuseTextures, parseFloat);
      var line := Trim(lines[i]);
      if IsSkipped(line) {
        i := i + 1;
        continue;
      }
      var elements := Elements(line);
      if KeywordLine(line, "newmtl") {
        materials := materials + [NewMaterial(First(elements))];
      } else {
        var key := KeyOf(line);
        if IsMaterialKey(key) {
          if materials == [] {
            assert MtlLines(lines[..i + 1], diffuseTextures, parseFloat) == Err(TypeError(OrphanMessage(key)));
            MtlErrorStops(lines, i + 1, diffuseTextures, parseFloat);
            return Err(TypeError(OrphanMessage(key)));
          }
          var index := |materials| - 1;
          materials := materials[index := ApplyKey(materials[index], key, elements, diffuseTextures, parseFloat)];
        }
      }
      i := i + 1;
    }
    assert lines[..i] == lines;
    r := Ok(materials);
  }

  // ---------------------------------------------------------------------------
  // What the table holds

  /** The names of the `newmtl` lines among `lines`, in order. */
  function Declared(lines: seq<string>): seq<Option<string>>
  {
    if lines == [] then []
    else
      var line := Trim(lines[|lines| - 1]);
      Declared(lines[..|lines| - 1]) + (if IsDeclaration(line) then [First(Elements(line))] else [])
  }

  /** Some line among `lines` writes a property while no material is declared. */
  ghost predicate HasOrphanProperty(lines: seq<string>)
  {
    exists i :: 0 <= i < |lines| && IsProperty(Trim(lines[i])) && Declared(lines[..i]) == []
  }

  /** The names of a table's materials, by key. */
  function Names(materials: seq<Material>): (names: seq<Option<string>>)
    ensures |names| == |materials| && forall k :: 0 <= k < |materials| ==> names[k] == materials[k].name
  {
    seq(|materials|, k requires 0 <= k < |materials| => materials[k].name)
  }

  /** One line throws exactly when it is a property line and no material is
      declared; otherwise it appends a material exactly when it is a `newmtl`. */
  lemma MtlLineNames(materials: seq<Material>, rawLine: string, diffuseTextures: Option<map<string, string>>,
                     parseFloat: string -> Number)
    ensures var r := MtlLine(materials, rawLine, diffuseTextures, parseFloat);
      && (r.Err? <==> IsProperty(Trim(rawLine)) && materials == [])
      && (r.Ok? ==> Names(r.value) == Names(materials)
                      + if IsDeclaration(Trim(rawLine)) then [First(Elements(Trim(rawLine)))] else [])
  {
    var line := Trim(rawLine);
    var r := MtlLine(materials, rawLine, diffuseTextures, parseFloat);
    if r.Ok? && !IsSkipped(line) && KeywordLine(line, "newmtl") {
      assert Names(r.value) == Names(materials) + [First(Elements(line))];
    }
  }

  /** After a successful parse, material k is the k-th `newmtl`, under its name. */
  lemma {:induction false} MtlLinesDeclared(lines: seq<string>, diffuseTextures: Option<map<string, string>>,
                                            parseFloat: string -> Number)
    ensures MtlLines(lines, diffuseTextures, parseFloat).Ok? ==>
              Names(MtlLines(lines, diffuseTextures, parseFloat).value) == Declared(lines)
  {
    if lines != [] {
      var init := lines[..|lines| - 1];
      MtlLinesDeclared(init, diffuseTextures, parseFloat);
      var prev := MtlLines(init, diffuseTextures, parseFloat);
      if prev.Ok? {
        MtlLineNames(prev.value, lines[|lines| - 1], diffuseTextures, parseFloat);
      }
    }
  }

  /** The parse throws exactly when a property line precedes the first `newmtl`. */
  lemma {:induction false} MtlLinesFail(lines: seq<string>, diffuseTextures: Option<map<string, string>>,
                                        parseFloat: string -> Number)
    ensures MtlLines(lines, diffuseTextures, parseFloat).Err? <==> HasOrphanProperty(lines)
  {
    if lines != [] {
      var n := |lines| - 1;
      var init := lines[..n];
      MtlLinesFail(init, diffuseTextures, parseFloat);
      assert forall i :: 0 <= i <= n ==> lines[..i] == init[..i];
      if HasOrphanProperty(init) {
        var i :| 0 <= i < |init| && IsProperty(Trim(init[i])) && Declared(init[..i]) == [];
        assert lines[i] == init[i];
      } else {
        var prev := MtlLines(init, diffuseTextures, parseFloat);
        MtlLinesDeclared(init, diffuseTextures, parseFloat);
        MtlLineNames(prev.value, lines[n], diffuseTextures, parseFloat);
        assert lines[..n] == init;
      }
    }
  }

  /** Blank lines, comments and lines with any other key leave the table as it was. */
  lemma IgnoredLine(materials: seq<Material>, rawLine: string, diffuseTextures: Option<map<string, string>>,
                    parseFloat: string -> Number)
    requires var line := Trim(rawLine);
      IsSkipped(line) || (!KeywordLine(line, "newmtl") && !IsMaterialKey(KeyOf(line)))
    ensures MtlLine(materials, rawLine, diffuseTextures, parseFloat) == Ok(materials)
  {
  }

  /** A property line changes only the latest material. */
  lemma PropertyTouchesLatest(materials: seq<Material>, rawLine: string, diffuseTextures: Option<map<string, string>>,
                              parseFloat: string -> Number)
    requires IsProperty(Trim(rawLine)) && materials != []
    ensures var r := MtlLine(materials, rawLine, diffuseTextures, parseFloat);
      r.Ok? && |r.value| == |materials|
      && (forall k :: 0 <= k < |materials| - 1 ==> r.value[k] == materials[k])
      && r.value[|materials| - 1].name == materials[|materials| - 1].name
  {
  }

  /** `d` sets the opacity to the value and `tr` to one minus the value; for
      a finite value the two are complementary. */
  lemma OpacityKeys(m: Material, elements: seq<string>, diffuseTextures: Option<map<string, string>>,
                    parseFloat: string -> Number)
    ensures ApplyKey(m, "d", elements, diffuseTextures, parseFloat).opacity == Some(ParseOpt(First(elements), parseFloat))
    ensures var v := ParseOpt(First(elements), parseFloat);
      v.Fin? ==> ApplyKey(m, "tr", elements, diffuseTextures, parseFloat).opacity == Some(Fin(1.0 - v.r))
    ensures ParseOpt(First(elements), parseFloat).NaN? ==> ApplyKey(m, "tr", elements, diffuseTextures, parseFloat).opacity == Some(NaN)
  {
  }

  /** `map_kd` ignores the line's own argument: the diffuse map is the image
      registered under the material's name, if any. */
  lemma DiffuseMapByName(m: Material, elements: seq<string>, elements': seq<string>,
                         diffuseTextures: Option<map<string, string>>, parseFloat: string -> Number)
    requires m.name.Some? && diffuseTextures.Some? && m.name.value in diffuseTextures.value
    ensures ApplyKey(m, "map_kd", elements, diffuseTextures, parseFloat)
         == ApplyKey(m, "map_kd", elements', diffuseTextures, parseFloat)
    ensures ApplyKey(m, "map_kd", elements, diffuseTextures, parseFloat).textures.diffuseMap
         == Some(diffuseTextures.value[m.name.value])
  {
  }

  // ---------------------------------------------------------------------------
  // loadMeshData

  /** The worker's reply: the geometry with the material table attached
      (`None` when the MTL text is empty, which JavaScript treats as false). */
  datatype Mesh = Mesh(geometry: Geometry, materials: Option<seq<Material>>)

  /** `loadMeshData`: the OBJ parse runs first and the MTL parse second, either
      may throw; an OBJ refused for its size leaves `undefined`, which
      `Object.assign` rejects. */
  method LoadMeshData(objSource: string, mtlSource: string, diffuseTextures: Option<map<string, string>>,
                      parseFloat: string -> Number, sqrt: real -> real)
    returns (r: Result<Mesh, JsError>)
    ensures GetVertexCount(objSource).Err? ==> r == Err(GetVertexCount(objSource).error)
    ensures (GetVertexCount(objSource).Ok? && mtlSource != [] && MtlLines(Split(mtlSource, '\n'), diffuseTextures, parseFloat).Err?)
              ==> r == Err(MtlLines(Split(mtlSource, '\n'), diffuseTextures, parseFloat).error)
    ensures (GetVertexCount(objSource).Ok? && GetVertexCount(objSource).value > MAX_VERTEX_COUNT
              && (mtlSource == [] || MtlLines(Split(mtlSource, '\n'), diffuseTextures, parseFloat).Ok?))
              ==> r == Err(TypeError("Cannot convert undefined or null to object"))
    ensures r.Ok? <==> GetVertexCount(objSource).Ok? && GetVertexCount(objSource).value <= MAX_VERTEX_COUNT
                       && (mtlSource == [] || MtlLines(Split(mtlSource, '\n'), diffuseTextures, parseFloat).Ok?)
    ensures r.Ok? ==> Unpacks(r.value.geometry, Split(objSource, '\n'), parseFloat)
                      && (mtlSource == [] <==> r.value.materials.None?)
                      && (mtlSource != [] ==> r.value.materials == Some(MtlLines(Split(mtlSource, '\n'), diffuseTextures, parseFloat).value))
  {
    var geometry := LoadObjData(objSource, parseFloat, sqrt);
    if geometry.Err? {
      return Err(geometry.error);
    }
    var materials: Option<seq<Material>> := None;
    if mtlSource != [] {
      var m := LoadMtlData(mtlSource, diffuseTextures, parseFloat);
      if m.Err? {
        return Err(m.error);
      }
      materials := Some(m.value);
    }
    if geometry.value.None? {
      return Err(TypeError("Cannot convert undefined or null to object"));
    }
    r := Ok(Mesh(geometry.value.value, materials));
  }
}
