/** The Wavefront OBJ half of the mesh-loading worker (`loadOBJData` and its
    helpers): a line parser that de-duplicates face-vertex tokens into an index
    buffer, splits quads, tags each vertex with its material slot, computes flat
    normals in place and a bounding box. Numbers are JavaScript numbers
    (`JsNumber`), so malformed input yields NaN exactly where the worker would
    read `undefined`. */
module ObjLoader {
  import opened Wrappers
  import opened JsNumber
  import opened JsString

  /** Loading is refused above this many (estimated) vertices. */
  const MAX_VERTEX_COUNT: nat := 70000

  datatype Vec3 = Vec3(x: Number, y: Number, z: Number)

  /** A face corner as `populateNormals` records it: coordinates plus the length
      of the unpacked position array at the moment the corner was visited. */
  datatype Corner = Corner(v: Vec3, i: nat)

  datatype PartialFace = PartialFace(a: Option<Corner>, b: Option<Corner>, c: Option<Corner>)

  datatype BoundingBox = BoundingBox(
    size: Vec3,
    minX: Number, maxX: Number,
    minY: Number, maxY: Number,
    minZ: Number, maxZ: Number)

  datatype Geometry = Geometry(
    boundingBox: BoundingBox,
    indices: seq<nat>,
    normals: seq<Number>,
    positions: seq<Number>,
    textureAddresses: seq<nat>,
    textures: seq<Number>)

  // ---------------------------------------------------------------------------
  // The worker's private vector helpers

  function SubtractVectors(a: Vec3, b: Vec3): Vec3
  {
    Vec3(Sub(a.x, b.x), Sub(a.y, b.y), Sub(a.z, b.z))
  }

  function CrossVectors(a: Vec3, b: Vec3): Vec3
  {
    Vec3(Sub(Mul(a.y, b.z), Mul(a.z, b.y)),
         Sub(Mul(a.z, b.x), Mul(a.x, b.z)),
         Sub(Mul(a.x, b.y), Mul(a.y, b.x)))
  }

  function MultiplyScalar(v: Vec3, s: Number): Vec3
  {
    Vec3(Mul(v.x, s), Mul(v.y, s), Mul(v.z, s))
  }

  function VectorMagnitude(v: Vec3, sqrt: real -> real): Number
  {
    Sqrt(Add(Add(Mul(v.x, v.x), Mul(v.y, v.y)), Mul(v.z, v.z)), sqrt)
  }

  /** A zero-length vector is returned unchanged. */
  function NormalizeVector(v: Vec3, sqrt: real -> real): Vec3
  {
    var magnitude := VectorMagnitude(v, sqrt);
    if StrictEq(magnitude, Fin(0.0)) then v else MultiplyScalar(v, Div(Fin(1.0), magnitude))
  }

  /** The normalised cross product of (c - b) and (a - b). */
  function ComputeFaceNormal(a: Vec3, b: Vec3, c: Vec3, sqrt: real -> real): Vec3
  {
    NormalizeVector(CrossVectors(SubtractVectors(c, b), SubtractVectors(a, b)), sqrt)
  }

  // ---------------------------------------------------------------------------
  // Vertex-count guard

  /** Occurrences of "f " anywhere in the text (the global match `/(f )/g`). */
  function CountFaceMarkers(s: string): nat
  {
    if |s| < 2 then 0
    else if s[0] == 'f' && s[1] == ' ' then 1 + CountFaceMarkers(s[2..])
    else CountFaceMarkers(s[1..])
  }

  /** `getVertexCount`: half the number of "f " occurrences, rounded down. With
      none, `match` yields null and reading its length throws. */
  function GetVertexCount(source: string): (r: Result<nat, JsError>)
    ensures r.Err? <==> CountFaceMarkers(source) == 0
    ensures r.Ok? ==> 2 * r.value <= CountFaceMarkers(source) < 2 * r.value + 2
  {
    var n := CountFaceMarkers(source);
    if n == 0 then Result<nat, JsError>.Err(TypeError("Cannot read properties of null (reading 'length')"))
    else Ok(n / 2)
  }

  // ---------------------------------------------------------------------------
  // Lines and their kinds

  datatype LineKind = PositionLine | NormalLine | TextureLine | UseMtlLine | FaceLine | OtherLine

  /** The regular-expression tests of the parser, in the order it applies them,
      on a trimmed line. */
  function Classify(line: string): LineKind
  {
    if KeywordLine(line, "v") then PositionLine
    else if KeywordLine(line, "vn") then NormalLine
    else if KeywordLine(line, "vt") then TextureLine
    else if KeywordLine(line, "usemtl") then UseMtlLine
    else if KeywordLine(line, "f") then FaceLine
    else OtherLine
  }

  /** The fields of a trimmed line after its keyword (`split(/\s+/)` then `shift`). */
  function Elements(line: string): seq<string>
  {
    SplitWhitespace(line)[1..]
  }

  /** `elements.map(parseFloat)`. */
  function ParseAll(elements: seq<string>, parseFloat: string -> Number): (r: seq<Number>)
    ensures |r| == |elements|
  {
    seq(|elements|, k requires 0 <= k < |elements| => parseFloat(elements[k]))
  }

  /** `parseFloat(parts[k])`, where a missing part is `undefined` and parses to NaN. */
  function PartAt(parts: seq<string>, k: nat, parseFloat: string -> Number): Number
  {
    if k < |parts| then parseFloat(parts[k]) else NaN
  }

  /** The position a face-vertex token `p/t/n` refers to: the 1-based `p`
      scaled to an offset into the raw position list; a bad offset reads NaN. */
  function VertexPosition(positions: seq<Number>, vertex: seq<string>, parseFloat: string -> Number): Vec3
  {
    var start := Mul(Sub(PartAt(vertex, 0, parseFloat), Fin(1.0)), Fin(3.0));
    Vec3(Get(positions, start), Get(positions, Add(start, Fin(1.0))), Get(positions, Add(start, Fin(2.0))))
  }

  /** The texture coordinate a token refers to, with v flipped to 1 - v. */
  function TextureCoordinate(rawTextures: seq<Number>, vertex: seq<string>, parseFloat: string -> Number): (r: seq<Number>)
    ensures |r| == 2
  {
    var start := Mul(Sub(PartAt(vertex, 1, parseFloat), Fin(1.0)), Fin(2.0));
    [Get(rawTextures, start), Sub(Fin(1.0), Get(rawTextures, Add(start, Fin(1.0))))]
  }

  /** The tokens of one face line in the order their indices are pushed:
      a triangle as is; `a b c d ...` as `a b c c d a ...` (the quad split,
      with any fifth and later token appended unchanged). */
  function FaceEmission(e: seq<string>): seq<string>
  {
    if |e| <= 3 then e else e[..3] + [e[2], e[3], e[0]] + e[4..]
  }

  /** The tokens whose indices the whole source pushes, line by line. */
  function FaceStream(lines: seq<string>): seq<string>
  {
    if lines == [] then []
    else
      var line := Trim(lines[|lines| - 1]);
      FaceStream(lines[..|lines| - 1])
        + (if Classify(line) == FaceLine then FaceEmission(Elements(line)) else [])
  }

  /** The number of `usemtl` lines. */
  function UseMtlCount(lines: seq<string>): nat
  {
    if lines == [] then 0
    else UseMtlCount(lines[..|lines| - 1]) + (if Classify(Trim(lines[|lines| - 1])) == UseMtlLine then 1 else 0)
  }

  /** The raw `v` values of the lines, in file order. */
  function RawPositions(lines: seq<string>, parseFloat: string -> Number): seq<Number>
  {
    if lines == [] then []
    else
      var line := Trim(lines[|lines| - 1]);
      RawPositions(lines[..|lines| - 1], parseFloat)
        + (if Classify(line) == PositionLine then ParseAll(Elements(line), parseFloat) else [])
  }

  /** The raw `vt` values of the lines, in file order. */
  function RawTextures(lines: seq<string>, parseFloat: string -> Number): seq<Number>
  {
    if lines == [] then []
    else
      var line := Trim(lines[|lines| - 1]);
      RawTextures(lines[..|lines| - 1], parseFloat)
        + (if Classify(line) == TextureLine then ParseAll(Elements(line), parseFloat) else [])
  }

  /** For a token the lines push, the index of the face line that pushes it
      first. */
  function FirstLine(lines: seq<string>, t: string): (n: nat)
    ensures n <= |lines|
  {
    if lines == [] then 0
    else if t in FaceStream(lines[..|lines| - 1]) then FirstLine(lines[..|lines| - 1], t)
    else |lines| - 1
  }

  /** `FirstLine` names a face line that pushes the token, and no earlier line
      pushes it. */
  lemma {:induction false} FirstLineIsFirst(lines: seq<string>, t: string)
    requires t in FaceStream(lines)
    ensures FirstLine(lines, t) < |lines|
    ensures var line := Trim(lines[FirstLine(lines, t)]);
            Classify(line) == FaceLine && t in FaceEmission(Elements(line))
    ensures t !in FaceStream(lines[..FirstLine(lines, t)])
  {
    var prev := lines[..|lines| - 1];
    if t in FaceStream(prev) {
      FirstLineIsFirst(prev, t);
      var n := FirstLine(prev, t);
      assert lines[n] == prev[n] && lines[..n] == prev[..n];
    }
  }

  /** A further line leaves the first line of a token already pushed, and is
      the first line of any other token. */
  lemma FirstLineSnoc(lines: seq<string>, line: string, t: string)
    ensures (lines + [line])[..|lines|] == lines
    ensures t in FaceStream(lines) ==> FirstLine(lines + [line], t) == FirstLine(lines, t)
    ensures t !in FaceStream(lines) ==> FirstLine(lines + [line], t) == |lines|
  {
    assert (lines + [line])[..|lines|] == lines;
  }

  /** The first occurrence of each token, in first-seen order. */
  function Dedup(s: seq<string>): seq<string>
  {
    DedupUpTo(s, |s|)
  }

  /** The first occurrence of each token among the first `n`, in first-seen order. */
  function DedupUpTo(s: seq<string>, n: nat): seq<string>
    requires n <= |s|
  {
    if n == 0 then []
    else
      var d := DedupUpTo(s, n - 1);
      if s[n - 1] in d then d else d + [s[n - 1]]
  }

  lemma {:induction false} DedupUpToMember(s: seq<string>, n: nat, t: string)
    requires n <= |s|
    ensures t in DedupUpTo(s, n) <==> t in s[..n]
  {
    if n > 0 {
      DedupUpToMember(s, n - 1, t);
      assert s[..n] == s[..n - 1] + [s[n - 1]];
    }
  }

  lemma DedupMember(s: seq<string>, t: string)
    ensures t in Dedup(s) <==> t in s
  {
    DedupUpToMember(s, |s|, t);
    assert s[..|s|] == s;
  }

  /** Only the first `n` tokens matter. */
  lemma {:induction false} DedupUpToPrefix(s: seq<string>, s': seq<string>, n: nat)
    requires n <= |s| && n <= |s'| && s[..n] == s'[..n]
    ensures DedupUpTo(s, n) == DedupUpTo(s', n)
  {
    if n > 0 {
      assert s[..n - 1] == s[..n][..n - 1];
      assert s'[..n - 1] == s'[..n][..n - 1];
      assert s[n - 1] == s[..n][n - 1];
      assert s'[n - 1] == s'[..n][n - 1];
      DedupUpToPrefix(s, s', n - 1);
    }
  }

  /** No token appears twice in the de-duplicated order. */
  lemma {:induction false} DedupUpToDistinct(s: seq<string>, n: nat)
    requires n <= |s|
    ensures forall p, q :: 0 <= p < q < |DedupUpTo(s, n)| ==> DedupUpTo(s, n)[p] != DedupUpTo(s, n)[q]
  {
    if n > 0 {
      DedupUpToDistinct(s, n - 1);
    }
  }

  /** Where the three copies of a face normal land in `computedNormals`. */
  function WriteNormal(s: seq<Number>, i: nat, n: Vec3): seq<Number>
  {
    SetAt(SetAt(SetAt(s, i, n.x), i + 1, n.y), i + 2, n.z)
  }

  function WriteFaceNormal(s: seq<Number>, ia: nat, ib: nat, ic: nat, n: Vec3): seq<Number>
  {
    WriteNormal(WriteNormal(WriteNormal(s, ia, n), ib, n), ic, n)
  }

  function NormalAt(s: seq<Number>, i: nat): Vec3
    requires i + 2 < |s|
  {
    Vec3(s[i], s[i + 1], s[i + 2])
  }

  lemma WriteNormalEffect(s: seq<Number>, i: nat, n: Vec3)
    ensures var r := WriteNormal(s, i, n);
      && |r| == (if i + 2 < |s| then |s| else i + 3)
      && NormalAt(r, i) == n
      && (forall k :: 0 <= k < |s| && !(i <= k < i + 3) ==> r[k] == s[k])
  {
  }

  lemma WriteFaceNormalLength(s: seq<Number>, ia: nat, ib: nat, ic: nat, n: Vec3)
    ensures |WriteFaceNormal(s, ia, ib, ic, n)| <= |s| + ia + ib + ic + 9
    ensures ia <= ic && ib <= ic ==> |WriteFaceNormal(s, ia, ib, ic, n)| <= if |s| <= ic + 3 then ic + 3 else |s|
  {
  }

  /** Flat shading: when the three corners of a triangle occupy disjoint slots,
      all three slots hold the same face normal afterwards. */
  lemma FaceNormalShared(s: seq<Number>, ia: nat, ib: nat, ic: nat, n: Vec3)
    requires ia + 3 <= ib || ib + 3 <= ia
    requires ia + 3 <= ic || ic + 3 <= ia
    requires ib + 3 <= ic || ic + 3 <= ib
    ensures var r := WriteFaceNormal(s, ia, ib, ic, n);
      ia + 2 < |r| && ib + 2 < |r| && ic + 2 < |r|
      && NormalAt(r, ia) == n && NormalAt(r, ib) == n && NormalAt(r, ic) == n
  {
    var s1 := WriteNormal(s, ia, n);
    WriteNormalEffect(s, ia, n);
    var s2 := WriteNormal(s1, ib, n);
    WriteNormalEffect(s1, ib, n);
    WriteNormalEffect(s2, ic, n);
  }

  // ---------------------------------------------------------------------------
  // The unpacked geometry under construction

  /** `hash` numbers the tokens of `seen` by position, and nothing else. */
  ghost predicate Numbering(seen: seq<string>, hash: map<string, nat>)
  {
    && (forall k :: 0 <= k < |seen| ==> seen[k] in hash && hash[seen[k]] == k)
    && (forall t :: t in hash ==> hash[t] < |seen| && seen[hash[t]] == t)
  }

  /** Each index is the number `hash` gives the token behind it. */
  ghost predicate IndexedBy(emitted: seq<string>, indices: seq<nat>, hash: map<string, nat>)
  {
    && |indices| == |emitted|
    && (forall k {:trigger indices[k]} :: 0 <= k < |emitted| ==> emitted[k] in hash && indices[k] == hash[emitted[k]])
  }

  lemma IndexedAt(emitted: seq<string>, indices: seq<nat>, hash: map<string, nat>, k: nat)
    requires IndexedBy(emitted, indices, hash) && k < |emitted|
    ensures emitted[k] in hash && indices[k] == hash[emitted[k]]
  {
    assert indices[k] == indices[k];
  }

  lemma NumberingAdd(seen: seq<string>, hash: map<string, nat>, t: string)
    requires Numbering(seen, hash) && t !in hash
    ensures Numbering(seen + [t], hash[t := |seen|])
  {
    assert t !in seen;
  }

  lemma IndexedByPush(emitted: seq<string>, indices: seq<nat>, hash: map<string, nat>, t: string)
    requires IndexedBy(emitted, indices, hash) && t in hash
    ensures IndexedBy(emitted + [t], indices + [hash[t]], hash)
  {
    forall k | 0 <= k < |emitted| + 1
      ensures (emitted + [t])[k] in hash && (indices + [hash[t]])[k] == hash[(emitted + [t])[k]]
    {
      if k < |emitted| {
        IndexedAt(emitted, indices, hash, k);
      }
    }
  }

  lemma IndexedByGrow(emitted: seq<string>, indices: seq<nat>, hash: map<string, nat>, t: string, v: nat)
    requires IndexedBy(emitted, indices, hash) && t !in hash
    ensures IndexedBy(emitted, indices, hash[t := v])
  {
  }

  /** Pushing a token extends the first-seen order exactly when it is new. */
  lemma DedupPush(s: seq<string>, t: string)
    ensures Dedup(s + [t]) == if t in s then Dedup(s) else Dedup(s) + [t]
  {
    assert (s + [t])[..|s|] == s[..|s|];
    DedupUpToPrefix(s + [t], s, |s|);
    DedupMember(s, t);
  }

  /** First-seen order, on numbers: number `i` first occurs at position
      `firstAt[i]` of `indices`, and only smaller numbers occur before it. */
  ghost predicate FirstSeenOrder(indices: seq<nat>, firstAt: seq<nat>)
  {
    && (forall i :: 0 <= i < |firstAt| ==> firstAt[i] < |indices| && indices[firstAt[i]] == i)
    && (forall i, m :: 0 <= i < |firstAt| && 0 <= m < firstAt[i] ==> indices[m] < i)
  }

  /** First occurrences are strictly increasing, so there are no more numbers
      than indices. */
  lemma {:induction false} FirstAtBound(indices: seq<nat>, firstAt: seq<nat>, i: nat)
    requires FirstSeenOrder(indices, firstAt) && i < |firstAt|
    ensures i <= firstAt[i] < |indices|
  {
    if i > 0 {
      FirstAtBound(indices, firstAt, i - 1);
      assert indices[firstAt[i - 1]] == i - 1;
    }
  }

  lemma FirstAtCount(indices: seq<nat>, firstAt: seq<nat>)
    requires FirstSeenOrder(indices, firstAt)
    ensures |firstAt| <= |indices|
  {
    if |firstAt| > 0 {
      FirstAtBound(indices, firstAt, |firstAt| - 1);
    }
  }

  /** The de-duplication table: `hash` numbers the distinct tokens `seen`,
      each index is its token's number, and numbers appear in order. */
  ghost predicate Table(seen: seq<string>, hash: map<string, nat>, emitted: seq<string>,
                        indices: seq<nat>, firstAt: seq<nat>)
  {
    && Numbering(seen, hash)
    && IndexedBy(emitted, indices, hash)
    && |firstAt| == |seen|
    && FirstSeenOrder(indices, firstAt)
  }

  /** A token already numbered re-pushes its number. */
  lemma TableKnown(seen: seq<string>, hash: map<string, nat>, emitted: seq<string>, indices: seq<nat>,
                   firstAt: seq<nat>, t: string)
    requires Table(seen, hash, emitted, indices, firstAt) && t in hash
    ensures Table(seen, hash, emitted + [t], indices + [hash[t]], firstAt)
  {
    IndexedByPush(emitted, indices, hash, t);
  }

  /** A new token takes the next number. */
  lemma TableFresh(seen: seq<string>, hash: map<string, nat>, emitted: seq<string>, indices: seq<nat>,
                   firstAt: seq<nat>, t: string)
    requires Table(seen, hash, emitted, indices, firstAt) && t !in hash
    ensures Table(seen + [t], hash[t := |seen|], emitted + [t], indices + [|seen|], firstAt + [|indices|])
  {
    NumberingAdd(seen, hash, t);
    IndexedByGrow(emitted, indices, hash, t, |seen|);
    IndexedByPush(emitted, indices, hash[t := |seen|], t);
    forall m | 0 <= m < |indices|
      ensures indices[m] < |seen|
    {
      IndexedAt(emitted, indices, hash, m);
    }
  }

  /** Dropping the last index when it is its number's first occurrence: that
      number is the last one given out, and the rest is again a table. */
  lemma TablePrefixFresh(seen: seq<string>, hash: map<string, nat>, emitted: seq<string>,
                         indices: seq<nat>, firstAt: seq<nat>)
    requires Table(seen, hash, emitted, indices, firstAt) && emitted != []
    requires firstAt[indices[|emitted| - 1]] == |emitted| - 1
    ensures var n := |emitted| - 1; var k := |seen| - 1;
      && k >= 0 && seen == seen[..k] + [emitted[n]] && emitted[n] !in emitted[..n]
      && Table(seen[..k], map u | u in hash && u != emitted[n] :: hash[u], emitted[..n], indices[..n], firstAt[..k])
  {
    var n := |emitted| - 1;
    var t := emitted[n];
    IndexedAt(emitted, indices, hash, n);
    var v := indices[n];
    assert seen[v] == t;
    forall i | 0 <= i < |firstAt|
      ensures firstAt[i] <= n && i <= v
    {
      assert indices[firstAt[i]] == i;
    }
    var k := |seen| - 1;
    assert firstAt[k] <= n && k <= v;
    var hash' := map u | u in hash && u != t :: hash[u];
    assert Numbering(seen[..k], hash') by {
      forall u | u in hash'
        ensures hash'[u] < k && seen[..k][hash'[u]] == u
      {
        assert seen[hash[u]] == u;
      }
    }
    assert IndexedBy(emitted[..n], indices[..n], hash') by {
      forall m | 0 <= m < n
        ensures emitted[..n][m] in hash' && indices[..n][m] == hash'[emitted[..n][m]]
      {
        IndexedAt(emitted, indices, hash, m);
      }
    }
    assert FirstSeenOrder(indices[..n], firstAt[..k]) by {
      forall i | 0 <= i < k
        ensures firstAt[i] < n
      {
        assert indices[firstAt[i]] == i;
      }
    }
    forall m | 0 <= m < n
      ensures emitted[m] != t
    {
      IndexedAt(emitted, indices, hash, m);
    }
    assert seen == seen[..k] + [t];
  }

  /** Dropping the last index when its number occurred before: the rest is a
      table over the same tokens, and the dropped token is among them. */
  lemma TablePrefixRepeat(seen: seq<string>, hash: map<string, nat>, emitted: seq<string>,
                          indices: seq<nat>, firstAt: seq<nat>)
    requires Table(seen, hash, emitted, indices, firstAt) && emitted != []
    requires firstAt[indices[|emitted| - 1]] != |emitted| - 1
    ensures var n := |emitted| - 1;
      emitted[n] in emitted[..n] && Table(seen, hash, emitted[..n], indices[..n], firstAt)
  {
    var n := |emitted| - 1;
    var t := emitted[n];
    IndexedAt(emitted, indices, hash, n);
    var v := indices[n];
    assert IndexedBy(emitted[..n], indices[..n], hash) by {
      forall k | 0 <= k < n
        ensures emitted[..n][k] in hash && indices[..n][k] == hash[emitted[..n][k]]
      {
        IndexedAt(emitted, indices, hash, k);
      }
    }
    assert FirstSeenOrder(indices[..n], firstAt) by {
      forall i | 0 <= i < |firstAt|
        ensures firstAt[i] < n
      {
        assert indices[firstAt[i]] == i;
      }
    }
    IndexedAt(emitted, indices, hash, firstAt[v]);
    assert seen[hash[emitted[firstAt[v]]]] == emitted[firstAt[v]];
    assert emitted[..n][firstAt[v]] == t;
  }

  /** The numbering the table keeps is the first-seen order of the tokens. */
  lemma {:induction false} TableIsDedup(seen: seq<string>, hash: map<string, nat>, emitted: seq<string>,
                                        indices: seq<nat>, firstAt: seq<nat>)
    requires Table(seen, hash, emitted, indices, firstAt)
    ensures seen == Dedup(emitted)
    decreases |emitted|
  {
    if emitted == [] {
      FirstAtCount(indices, firstAt);
    } else {
      var n := |emitted| - 1;
      assert emitted[..n] + [emitted[n]] == emitted;
      DedupPush(emitted[..n], emitted[n]);
      IndexedAt(emitted, indices, hash, n);
      if firstAt[indices[n]] == n {
        TablePrefixFresh(seen, hash, emitted, indices, firstAt);
        var k := |seen| - 1;
        TableIsDedup(seen[..k], map u | u in hash && u != emitted[n] :: hash[u], emitted[..n], indices[..n], firstAt[..k]);
      } else {
        TablePrefixRepeat(seen, hash, emitted, indices, firstAt);
        TableIsDedup(seen, hash, emitted[..n], indices[..n], firstAt);
      }
    }
  }

  /** `s` is `prefix` followed by copies of `v`. */
  ghost predicate ExtendsWith(s: seq<nat>, prefix: seq<nat>, v: nat)
  {
    && |s| >= |prefix| && s[..|prefix|] == prefix
    && forall k :: |prefix| <= k < |s| ==> s[k] == v
  }

  lemma ExtendsWithTrans(a: seq<nat>, b: seq<nat>, c: seq<nat>, v: nat)
    requires ExtendsWith(b, a, v) && ExtendsWith(c, b, v)
    ensures ExtendsWith(c, a, v)
  {
    assert c[..|a|] == c[..|b|][..|a|];
  }

  /** The worker's `unpacked` record without `faces` and `computedNormals`
      (see `FaceNormals`). The ghost fields name what the table stands for:
      `seen` the distinct tokens in first-seen order, `emitted` the token
      behind each entry of `indices`, `firstAt` where each number first occurs. */
  /** What a vertex holds across the unpacked buffers: three position
      values, two texture values and a material slot. */
  datatype VertexData = VertexData(position: Vec3, textureU: Number, textureV: Number, slot: nat)

  /** The vertex a face-vertex token makes when first seen, read against the
      raw `v` and `vt` values and the material counter at that point. */
  function VertexFor(token: string, positions: seq<Number>, rawTextures: seq<Number>, textureAddress: int,
                     parseFloat: string -> Number): VertexData
  {
    var vertex := Split(token, '/');
    var uv := TextureCoordinate(rawTextures, vertex, parseFloat);
    VertexData(VertexPosition(positions, vertex, parseFloat), uv[0], uv[1], Slot(textureAddress))
  }

  /** The vertex a token makes when it is read with the lines before the
      first face line that pushes it. */
  function FirstVertex(lines: seq<string>, t: string, parseFloat: string -> Number): VertexData
  {
    var before := lines[..FirstLine(lines, t)];
    VertexFor(t, RawPositions(before, parseFloat), RawTextures(before, parseFloat), UseMtlCount(before) - 1, parseFloat)
  }

  /** Vertex `k` of the unpacked buffers holds `d`. */
  ghost predicate Holds(positions: seq<Number>, textures: seq<Number>, addresses: seq<nat>, k: nat, d: VertexData)
  {
    && 3 * k + 2 < |positions|
    && positions[3 * k] == d.position.x && positions[3 * k + 1] == d.position.y && positions[3 * k + 2] == d.position.z
    && 2 * k + 1 < |textures| && textures[2 * k] == d.textureU && textures[2 * k + 1] == d.textureV
    && k < |addresses| && addresses[k] == d.slot
  }

  datatype Unpacked = Unpacked(
    hashIndices: map<string, nat>,
    indices: seq<nat>,
    index: nat,
    normals: seq<Number>,
    positions: seq<Number>,
    textureAddresses: seq<nat>,
    textures: seq<Number>,
    ghost seen: seq<string>,
    ghost emitted: seq<string>,
    ghost firstAt: seq<nat>)
  {
    ghost predicate Valid()
    {
      && |seen| == index
      && |positions| == 3 * index && |textures| == 2 * index && |textureAddresses| == index
      && Table(seen, hashIndices, emitted, indices, firstAt)
      && normals == []
    }
  }

  /** `unpacked.faces` and `unpacked.computedNormals`: the part of the record
      only `populateNormals` writes. */
  datatype FaceNormals = FaceNormals(faces: seq<PartialFace>, computedNormals: seq<Number>)

  /** `populateNormals` writes at most one triple past the unpacked positions. */
  ghost predicate NormalsFit(f: FaceNormals, u: Unpacked)
  {
    |f.computedNormals| <= |u.positions| + 3
  }

  /** The record as the worker first builds it. */
  const EmptyUnpacked := Unpacked(map[], [], 0, [], [], [], [], [], [], [])
  const EmptyFaceNormals := FaceNormals([], [])

  /** `u'` only appends to `u`: every vertex of `u` keeps its token, position,
      texture and slot. */
  ghost predicate Grows(u: Unpacked, u': Unpacked)
  {
    && |u.seen| <= |u'.seen| && u'.seen[..|u.seen|] == u.seen
    && |u.positions| <= |u'.positions| && u'.positions[..|u.positions|] == u.positions
    && |u.textures| <= |u'.textures| && u'.textures[..|u.textures|] == u.textures
    && |u.textureAddresses| <= |u'.textureAddresses|
    && u'.textureAddresses[..|u.textureAddresses|] == u.textureAddresses
  }

  lemma GrowsRefl(u: Unpacked)
    ensures Grows(u, u)
  {
    assert u.seen[..|u.seen|] == u.seen && u.positions[..|u.positions|] == u.positions;
    assert u.textures[..|u.textures|] == u.textures;
    assert u.textureAddresses[..|u.textureAddresses|] == u.textureAddresses;
  }

  /** What a vertex holds survives growth. */
  lemma GrowsHolds(u: Unpacked, u': Unpacked, k: nat, d: VertexData)
    requires Grows(u, u') && Holds(u.positions, u.textures, u.textureAddresses, k, d)
    ensures Holds(u'.positions, u'.textures, u'.textureAddresses, k, d)
  {
    assert u'.positions[3 * k] == u'.positions[..|u.positions|][3 * k];
    assert u'.positions[3 * k + 1] == u'.positions[..|u.positions|][3 * k + 1];
    assert u'.positions[3 * k + 2] == u'.positions[..|u.positions|][3 * k + 2];
    assert u'.textures[2 * k] == u'.textures[..|u.textures|][2 * k];
    assert u'.textures[2 * k + 1] == u'.textures[..|u.textures|][2 * k + 1];
    assert u'.textureAddresses[k] == u'.textureAddresses[..|u.textureAddresses|][k];
  }

  /** The vertices from `from` on are the ones their tokens make with the
      raw values `positions` and `rawTextures` and the counter `textureAddress`. */
  ghost predicate FreshFrom(u: Unpacked, from: nat, positions: seq<Number>, rawTextures: seq<Number>,
                            textureAddress: int, parseFloat: string -> Number)
  {
    forall k {:trigger VertexFor(u.seen[k], positions, rawTextures, textureAddress, parseFloat)} :: from <= k < |u.seen| ==>
      Holds(u.positions, u.textures, u.textureAddresses, k,
            VertexFor(u.seen[k], positions, rawTextures, textureAddress, parseFloat))
  }

  /** Growth in two steps, each making its vertices with the same raw values. */
  lemma FreshFromGrow(u0: Unpacked, u: Unpacked, u': Unpacked, positions: seq<Number>, rawTextures: seq<Number>,
                      textureAddress: int, parseFloat: string -> Number)
    requires Grows(u0, u) && FreshFrom(u, |u0.seen|, positions, rawTextures, textureAddress, parseFloat)
    requires Grows(u, u') && FreshFrom(u', |u.seen|, positions, rawTextures, textureAddress, parseFloat)
    ensures Grows(u0, u') && FreshFrom(u', |u0.seen|, positions, rawTextures, textureAddress, parseFloat)
  {
    assert u'.seen[..|u0.seen|] == u'.seen[..|u.seen|][..|u0.seen|];
    assert u'.positions[..|u0.positions|] == u'.positions[..|u.positions|][..|u0.positions|];
    assert u'.textures[..|u0.textures|] == u'.textures[..|u.textures|][..|u0.textures|];
    assert u'.textureAddresses[..|u0.textureAddresses|]
        == u'.textureAddresses[..|u.textureAddresses|][..|u0.textureAddresses|];
    forall k | |u0.seen| <= k < |u.seen|
      ensures Holds(u'.positions, u'.textures, u'.textureAddresses, k,
                    VertexFor(u'.seen[k], positions, rawTextures, textureAddress, parseFloat))
    {
      assert u'.seen[k] == u'.seen[..|u.seen|][k];
      GrowsHolds(u, u', k, VertexFor(u.seen[k], positions, rawTextures, textureAddress, parseFloat));
    }
  }

  /** `populateNormals`: records corner `vIndex` of the current face at the
      present length of `positions`; at the third corner writes the face normal
      into the slots recorded for a, b and c. */
  method PopulateNormals(f: FaceNormals, u: Unpacked, vIndex: nat, x: Number, y: Number, z: Number,
                         sqrt: real -> real)
    returns (f': FaceNormals)
    requires |f.faces| > 0
    requires vIndex == 2 ==> f.faces[|f.faces| - 1].a.Some? && f.faces[|f.faces| - 1].b.Some?
    ensures var last := f.faces[|f.faces| - 1];
            var corner := Some(Corner(Vec3(x, y, z), |u.positions|));
            f' == FaceNormals(
                    f.faces[|f.faces| - 1 :=
                      if vIndex == 0 then last.(a := corner)
                      else if vIndex == 1 then last.(b := corner)
                      else if vIndex == 2 then last.(c := corner)
                      else last],
                    if vIndex == 2 then
                      WriteFaceNormal(f.computedNormals, last.a.value.i, last.b.value.i, |u.positions|,
                                      ComputeFaceNormal(last.a.value.v, last.b.value.v, Vec3(x, y, z), sqrt))
                    else f.computedNormals)
  {
    var last := f.faces[|f.faces| - 1];
    var corner := Some(Corner(Vec3(x, y, z), |u.positions|));
    f' := f;
    if vIndex == 0 {
      f' := f'.(faces := f.faces[|f.faces| - 1 := last.(a := corner)]);
    } else if vIndex == 1 {
      f' := f'.(faces := f.faces[|f.faces| - 1 := last.(b := corner)]);
    } else if vIndex == 2 {
      f' := f'.(faces := f.faces[|f.faces| - 1 := last.(c := corner)]);
      var normal := ComputeFaceNormal(last.a.value.v, last.b.value.v, Vec3(x, y, z), sqrt);
      f' := f'.(computedNormals := WriteFaceNormal(f.computedNormals, last.a.value.i, last.b.value.i, |u.positions|, normal));
    }
  }

  /** The de-duplicating step for one face-vertex token: a token seen before
      pushes its stored index; a new token appends its position, its texture
      coordinate with v flipped to 1 - v, and its material slot, and takes the
      next fresh index. */
  method VisitVertex(u: Unpacked, token: string, x: Number, y: Number, z: Number, vertex: seq<string>,
                     rawTextures: seq<Number>, textureAddress: int, needsNormals: bool,
                     parseFloat: string -> Number)
    returns (u': Unpacked)
    requires u.Valid()
    requires needsNormals == (u.normals == [])
    requires textureAddress >= -1
    ensures u'.Valid() && Grows(u, u')
    ensures u'.seen == u.seen || NewVertex(u, u', token, Vec3(x, y, z), vertex, rawTextures, textureAddress, parseFloat)
    ensures token in u.hashIndices ==>
      u' == u.(indices := u.indices + [u.hashIndices[token]], emitted := u.emitted + [token])
    ensures token !in u.hashIndices ==>
      u' == u.(hashIndices := u.hashIndices[token := u.index],
               indices := u.indices + [u.index],
               index := u.index + 1,
               positions := u.positions + [x, y, z],
               textures := u.textures + TextureCoordinate(rawTextures, vertex, parseFloat),
               textureAddresses := u.textureAddresses + [if textureAddress < 0 then 0 else textureAddress],
               seen := u.seen + [token],
               emitted := u.emitted + [token],
               firstAt := u.firstAt + [|u.indices|])
  {
    GrowsRefl(u);
    if token in u.hashIndices {
      TableKnown(u.seen, u.hashIndices, u.emitted, u.indices, u.firstAt, token);
      u' := u.(indices := u.indices + [u.hashIndices[token]], emitted := u.emitted + [token]);
    } else {
      TableFresh(u.seen, u.hashIndices, u.emitted, u.indices, u.firstAt, token);
      if !needsNormals {
        // copying `vn` data: unreachable, `normals` never grows
        assert false;
      }
      u' := u.(positions := u.positions + [x, y, z],
               textures := u.textures + TextureCoordinate(rawTextures, vertex, parseFloat),
               textureAddresses := u.textureAddresses + [if textureAddress < 0 then 0 else textureAddress],
               hashIndices := u.hashIndices[token := u.index],
               indices := u.indices + [u.index],
               seen := u.seen + [token],
               emitted := u.emitted + [token],
               firstAt := u.firstAt + [|u.indices|],
               index := u.index + 1);
    }
  }

  /** The quad split's extra push of the first corner's index. */
  method PushExisting(u: Unpacked, token: string) returns (u': Unpacked)
    requires u.Valid() && token in u.hashIndices
    ensures u'.Valid()
    ensures u' == u.(indices := u.indices + [u.hashIndices[token]], emitted := u.emitted + [token])
  {
    TableKnown(u.seen, u.hashIndices, u.emitted, u.indices, u.firstAt, token);
    u' := u.(indices := u.indices + [u.hashIndices[token]], emitted := u.emitted + [token]);
  }

  /** The tokens a face line has pushed at the head of the corner loop, for
      loop counter `j` and the `quad` flag. */
  function Emitted(e: seq<string>, j: nat, quad: bool): seq<string>
    requires j <= |e| && (quad ==> 3 <= j && 4 <= |e|)
  {
    if !quad then e[..j]
    else e[..3] + [e[2]] + (if j >= 4 then [e[3], e[0]] + e[4..j] else [])
  }

  /** What one pass of the corner loop adds to `Emitted`, including the
      quad split's revisit of corner 2 and extra push of corner 0. */
  lemma EmittedStep(e: seq<string>, j: nat, quad: bool)
    requires j < |e| && (!quad ==> j < 3) && (quad ==> 2 <= j && 4 <= |e|)
    ensures !quad ==> Emitted(e, j + 1, false) == Emitted(e, j, false) + [e[j]]
    ensures quad && j == 2 ==> Emitted(e, 3, true) == Emitted(e, 3, false) + [e[2]]
    ensures quad && j == 3 ==> Emitted(e, 4, true) == Emitted(e, 3, true) + [e[3], e[0]]
    ensures quad && j >= 4 ==> Emitted(e, j + 1, true) == Emitted(e, j, true) + [e[j]]
  {
    if quad && j >= 4 {
      assert e[4..j + 1] == e[4..j] + [e[j]];
    }
    if !quad {
      assert e[..j + 1] == e[..j] + [e[j]];
    }
  }

  /** On leaving the loop everything `FaceEmission` lists has been pushed. */
  lemma EmittedDone(e: seq<string>, j: nat, quad: bool)
    requires j == |e| && ((!quad && j <= 3) || (quad && j >= 4))
    ensures Emitted(e, j, quad) == FaceEmission(e)
  {
    assert e[..|e|] == e;
  }

  /** The first `m` corners (at most two) of the current face are recorded,
      at offsets no greater than the present number of unpacked positions. */
  ghost predicate CornersRecorded(f: FaceNormals, u: Unpacked, m: nat)
  {
    && |f.faces| > 0
    && (m >= 1 ==> f.faces[|f.faces| - 1].a.Some? && f.faces[|f.faces| - 1].a.value.i <= |u.positions|)
    && (m >= 2 ==> f.faces[|f.faces| - 1].b.Some? && f.faces[|f.faces| - 1].b.value.i <= |u.positions|)
  }

  /** Corner `j` as far as `populateNormals` is concerned. */
  method ShadeCorner(f: FaceNormals, u: Unpacked, j: nat, p: Vec3, sqrt: real -> real)
    returns (f': FaceNormals)
    requires NormalsFit(f, u) && CornersRecorded(f, u, if j < 2 then j else 2)
    ensures NormalsFit(f', u) && CornersRecorded(f', u, if j < 1 then j + 1 else 2)
  {
    var before := f.faces[|f.faces| - 1];
    f' := PopulateNormals(f, u, j, p.x, p.y, p.z, sqrt);
    if j == 2 {
      WriteFaceNormalLength(f.computedNormals, before.a.value.i, before.b.value.i, |u.positions|,
        ComputeFaceNormal(before.a.value.v, before.b.value.v, p, sqrt));
    }
  }

  /** More unpacked positions keep the recorded corners and the bound. */
  lemma MorePositions(f: FaceNormals, u: Unpacked, u': Unpacked, m: nat)
    requires |u.positions| <= |u'.positions|
    requires NormalsFit(f, u) && CornersRecorded(f, u, m)
    ensures NormalsFit(f, u') && CornersRecorded(f, u', m)
  {
  }

  /** `u'` appends to `u` one vertex for `token`, at position `p` and with
      the texture coordinate and slot that `vertex` and the counter give. */
  ghost predicate NewVertex(u: Unpacked, u': Unpacked, token: string, p: Vec3, vertex: seq<string>,
                            rawTextures: seq<Number>, textureAddress: int, parseFloat: string -> Number)
  {
    var uv := TextureCoordinate(rawTextures, vertex, parseFloat);
    && u'.seen == u.seen + [token]
    && Holds(u'.positions, u'.textures, u'.textureAddresses, |u.seen|, VertexData(p, uv[0], uv[1], Slot(textureAddress)))
  }

  /** A corner either reuses a vertex or appends the one its token makes. */
  lemma FreshOne(u: Unpacked, u': Unpacked, token: string, p: Vec3, vertex: seq<string>, positions: seq<Number>,
                 rawTextures: seq<Number>, textureAddress: int, parseFloat: string -> Number)
    requires vertex == Split(token, '/') && p == VertexPosition(positions, vertex, parseFloat)
    requires u'.seen == u.seen || NewVertex(u, u', token, p, vertex, rawTextures, textureAddress, parseFloat)
    ensures FreshFrom(u', |u.seen|, positions, rawTextures, textureAddress, parseFloat)
  {
    if u'.seen != u.seen {
      assert u'.seen[|u.seen|] == token;
      assert VertexFor(token, positions, rawTextures, textureAddress, parseFloat)
          == VertexData(p, TextureCoordinate(rawTextures, vertex, parseFloat)[0],
                        TextureCoordinate(rawTextures, vertex, parseFloat)[1], Slot(textureAddress));
    }
  }

  /** The body of the corner loop for corner `j`: locate the vertex, feed
      `populateNormals`, de-duplicate the token, and on the quad split's
      fourth corner also push the first corner again. */
  method VisitCorner(u: Unpacked, f: FaceNormals, elements: seq<string>, j: nat, quad: bool,
                     positions: seq<Number>, rawTextures: seq<Number>, textureAddress: int,
                     parseFloat: string -> Number, sqrt: real -> real)
    returns (u': Unpacked, f': FaceNormals)
    requires j < |elements| && (j == 3 && quad ==> elements[0] in u.hashIndices)
    requires u.Valid() && NormalsFit(f, u) && CornersRecorded(f, u, if j < 2 then j else 2)
    requires textureAddress >= -1
    ensures u'.Valid() && NormalsFit(f', u') && CornersRecorded(f', u', if j < 1 then j + 1 else 2)
    ensures u'.emitted == u.emitted + if j == 3 && quad then [elements[j], elements[0]] else [elements[j]]
    ensures elements[j] in u'.hashIndices && u.hashIndices.Keys <= u'.hashIndices.Keys
    ensures ExtendsWith(u'.textureAddresses, u.textureAddresses, if textureAddress < 0 then 0 else textureAddress)
    ensures Grows(u, u') && FreshFrom(u', |u.seen|, positions, rawTextures, textureAddress, parseFloat)
  {
    var token := elements[j];
    var vertex := Split(token, '/');
    var p := VertexPosition(positions, vertex, parseFloat);
    var needsNormals := |u.normals| == 0;
    f' := f;
    if needsNormals {
      f' := ShadeCorner(f, u, j, p, sqrt);
    }
    u' := VisitVertex(u, token, p.x, p.y, p.z, vertex, rawTextures, textureAddress, needsNormals, parseFloat);
    FreshOne(u, u', token, p, vertex, positions, rawTextures, textureAddress, parseFloat);
    if j == 3 && quad {
      u' := PushExisting(u', elements[0]);
    }
    MorePositions(f', u, u', if j < 1 then j + 1 else 2);
  }

  /** The state of the corner loop of one face line at the head of pass
      (`j`, `quad`): the table is sound, the tokens pushed so far are
      `Emitted`, and every material slot appended is `slot`. */
  ghost predicate CornerLoop(u: Unpacked, f: FaceNormals, e: seq<string>, start: seq<string>,
                             addresses: seq<nat>, slot: nat, j: nat, quad: bool)
  {
    && j <= |e|
    && ((!quad && j <= 3) || (quad && j >= 3 && |e| >= 4))
    && u.Valid() && NormalsFit(f, u)
    && CornersRecorded(f, u, if quad || j >= 2 then 2 else j)
    && u.emitted == start + Emitted(e, j, quad)
    && ((j >= 1 || quad) ==> e[0] in u.hashIndices)
    && ExtendsWith(u.textureAddresses, addresses, slot)
  }

  /** One pass of the corner loop. */
  method CornerPass(u: Unpacked, f: FaceNormals, elements: seq<string>, j: nat, quad: bool,
                    ghost start: seq<string>, ghost addresses: seq<nat>, ghost u0: Unpacked,
                    positions: seq<Number>, rawTextures: seq<Number>, textureAddress: int,
                    parseFloat: string -> Number, sqrt: real -> real)
    returns (u': Unpacked, f': FaceNormals, j': nat, quad': bool)
    requires textureAddress >= -1 && j < |elements|
    requires CornerLoop(u, f, elements, start, addresses, if textureAddress < 0 then 0 else textureAddress, j, quad)
    requires Grows(u0, u) && FreshFrom(u, |u0.seen|, positions, rawTextures, textureAddress, parseFloat)
    ensures CornerLoop(u', f', elements, start, addresses, if textureAddress < 0 then 0 else textureAddress, j', quad')
    ensures Grows(u0, u') && FreshFrom(u', |u0.seen|, positions, rawTextures, textureAddress, parseFloat)
    ensures |elements| - j' + (if quad' then 0 else 1) < |elements| - j + (if quad then 0 else 1)
  {
    j', quad' := j, quad;
    if j' == 3 && !quad' {
      j' := 2;
      quad' := true;
    }
    u', f' := VisitCorner(u, f, elements, j', quad', positions, rawTextures, textureAddress, parseFloat, sqrt);
    ExtendsWithTrans(addresses, u.textureAddresses, u'.textureAddresses, if textureAddress < 0 then 0 else textureAddress);
    FreshFromGrow(u0, u, u', positions, rawTextures, textureAddress, parseFloat);
    EmittedStep(elements, j', quad');
    j' := j' + 1;
  }

  /** One `f` line: the corner loop with its quad split (corner 3 first
      revisits corner 2, then pushes corner 0 after itself). */
  method ProcessFaceLine(u: Unpacked, f: FaceNormals, elements: seq<string>, positions: seq<Number>,
                         rawTextures: seq<Number>, textureAddress: int,
                         parseFloat: string -> Number, sqrt: real -> real)
    returns (u': Unpacked, f': FaceNormals)
    requires u.Valid() && NormalsFit(f, u)
    requires textureAddress >= -1
    ensures u'.Valid() && NormalsFit(f', u')
    ensures u'.emitted == u.emitted + FaceEmission(elements)
    ensures ExtendsWith(u'.textureAddresses, u.textureAddresses, if textureAddress < 0 then 0 else textureAddress)
    ensures Grows(u, u') && FreshFrom(u', |u.seen|, positions, rawTextures, textureAddress, parseFloat)
  {
    var quad := false;
    u', f' := u, f;
    if |u.normals| == 0 {
      f' := f'.(faces := f.faces + [PartialFace(None, None, None)]);
    } else {
      assert false;
    }
    ghost var slot: nat := if textureAddress < 0 then 0 else textureAddress;
    assert u.textureAddresses[..|u.textureAddresses|] == u.textureAddresses;
    GrowsRefl(u);
    var j: nat := 0;
    while j < |elements|
      invariant CornerLoop(u', f', elements, u.emitted, u.textureAddresses, slot, j, quad)
      invariant Grows(u, u') && FreshFrom(u', |u.seen|, positions, rawTextures, textureAddress, parseFloat)
      decreases |elements| - j + (if quad then 0 else 1)
    {
      u', f', j, quad := CornerPass(u', f', elements, j, quad, u.emitted, u.textureAddresses, u,
                                    positions, rawTextures, textureAddress, parseFloat, sqrt);
    }
    EmittedDone(elements, j, quad);
  }

  // ---------------------------------------------------------------------------
  // Bounding box

  /** Coordinate `axis` of every vertex as the bounding-box loop reads it:
      positions `axis`, `axis + 3`, ...; a read past the end is NaN. */
  function Coords(positions: seq<Number>, axis: nat): (r: seq<Number>)
    requires axis < 3
    ensures |r| == (|positions| + 2) / 3
  {
    seq((|positions| + 2) / 3, k requires 0 <= k < (|positions| + 2) / 3 =>
      if 3 * k + axis < |positions| then positions[3 * k + axis] else NaN)
  }

  /** `if (x < min) min = x` over `s`, starting from +Infinity. */
  function MinOf(s: seq<Number>): Number
  {
    if s == [] then PosInf
    else
      var m := MinOf(s[..|s| - 1]);
      if Less(s[|s| - 1], m) then s[|s| - 1] else m
  }

  /** `if (x > max) max = x` over `s`, starting from -Infinity. */
  function MaxOf(s: seq<Number>): Number
  {
    if s == [] then NegInf
    else
      var m := MaxOf(s[..|s| - 1]);
      if Less(m, s[|s| - 1]) then s[|s| - 1] else m
  }

  /** The running minimum is +Infinity or an element that is not NaN, and no
      element lies below it (NaN elements are skipped). */
  lemma {:induction false} MinOfIsLeast(s: seq<Number>)
    ensures MinOf(s) == PosInf || (MinOf(s) in s && !MinOf(s).NaN?)
    ensures forall k :: 0 <= k < |s| ==> !Less(s[k], MinOf(s))
  {
    if s != [] {
      var p := s[..|s| - 1];
      MinOfIsLeast(p);
      assert forall k :: 0 <= k < |p| ==> s[k] == p[k];
    }
  }

  /** The running maximum is -Infinity or an element that is not NaN, and no
      element lies above it. */
  lemma {:induction false} MaxOfIsGreatest(s: seq<Number>)
    ensures MaxOf(s) == NegInf || (MaxOf(s) in s && !MaxOf(s).NaN?)
    ensures forall k :: 0 <= k < |s| ==> !Less(MaxOf(s), s[k])
  {
    if s != [] {
      var p := s[..|s| - 1];
      MaxOfIsGreatest(p);
      assert forall k :: 0 <= k < |p| ==> s[k] == p[k];
    }
  }

  /** `computeWidth` as written: `Math.abs(min) + max`. */
  function ComputeWidth(min: Number, max: Number): Number
  {
    Add(Abs(min), max)
  }

  /** The extent `max - min` that `computeWidth` is meant to give. */
  function ExtentWidth(min: Number, max: Number): (w: Number)
    ensures min.Fin? && max.Fin? && min.r <= max.r ==> w.Fin? && w.r >= 0.0 && min.r + w.r == max.r
  {
    Sub(max, min)
  }

  /** `computeWidth` agrees with the extent exactly when the minimum is not
      positive: a box lying wholly on the positive side is over-measured by
      twice its minimum. */
  lemma ComputeWidthVersusExtent(min: real, max: real)
    ensures min <= 0.0 ==> ComputeWidth(Fin(min), Fin(max)) == ExtentWidth(Fin(min), Fin(max))
    ensures min > 0.0 ==> ComputeWidth(Fin(min), Fin(max)) == Fin(max - min + 2.0 * min)
    ensures min > 0.0 ==> ComputeWidth(Fin(min), Fin(max)) != ExtentWidth(Fin(min), Fin(max))
  {
  }

  /** A concrete box on x in [1, 3]: `computeWidth` reports 4, the extent is 2. */
  lemma ComputeWidthCounterexample()
    ensures ComputeWidth(Fin(1.0), Fin(3.0)) == Fin(4.0)
    ensures ExtentWidth(Fin(1.0), Fin(3.0)) == Fin(2.0)
  {
  }

  /** What `computeBoundingBox` returns, per axis, with each side's size the
      extent `max - min` that `computeWidth` is meant to give. */
  function BoundingBoxOf(positions: seq<Number>): BoundingBox
  {
    var minX, maxX := MinOf(Coords(positions, 0)), MaxOf(Coords(positions, 0));
    var minY, maxY := MinOf(Coords(positions, 1)), MaxOf(Coords(positions, 1));
    var minZ, maxZ := MinOf(Coords(positions, 2)), MaxOf(Coords(positions, 2));
    BoundingBox(Vec3(ExtentWidth(minX, maxX), ExtentWidth(minY, maxY), ExtentWidth(minZ, maxZ)),
                minX, maxX, minY, maxY, minZ, maxZ)
  }

  lemma MinOfStep(s: seq<Number>, n: nat)
    requires n < |s|
    ensures MinOf(s[..n + 1]) == if Less(s[n], MinOf(s[..n])) then s[n] else MinOf(s[..n])
  {
    assert s[..n + 1][..n] == s[..n];
  }

  lemma MaxOfStep(s: seq<Number>, n: nat)
    requires n < |s|
    ensures MaxOf(s[..n + 1]) == if Less(MaxOf(s[..n]), s[n]) then s[n] else MaxOf(s[..n])
  {
    assert s[..n + 1][..n] == s[..n];
  }

  /** The `n`th vertex's coordinates as the loop reads them. */
  lemma CoordsAt(positions: seq<Number>, n: nat)
    requires 3 * n < |positions|
    ensures n < |Coords(positions, 0)|
    ensures Coords(positions, 0)[n] == positions[3 * n]
    ensures Coords(positions, 1)[n] == if 3 * n + 1 < |positions| then positions[3 * n + 1] else NaN
    ensures Coords(positions, 2)[n] == if 3 * n + 2 < |positions| then positions[3 * n + 2] else NaN
  {
  }

  /** `computeBoundingBox`: one pass over the vertices, three at a time; the
      sizes use the corrected width. */
  method ComputeBoundingBox(positions: seq<Number>) returns (box: BoundingBox)
    ensures box == BoundingBoxOf(positions)
  {
    var minX, minY, minZ := PosInf, PosInf, PosInf;
    var maxX, maxY, maxZ := NegInf, NegInf, NegInf;
    ghost var xs, ys, zs := Coords(positions, 0), Coords(positions, 1), Coords(positions, 2);
    var i := 0;
    ghost var n := 0;
    while i < |positions|
      invariant i == 3 * n && n <= |xs|
      invariant n < |xs| <==> i < |positions|
      invariant minX == MinOf(xs[..n]) && maxX == MaxOf(xs[..n])
      invariant minY == MinOf(ys[..n]) && maxY == MaxOf(ys[..n])
      invariant minZ == MinOf(zs[..n]) && maxZ == MaxOf(zs[..n])
    {
      var x := positions[i];
      var y := if i + 1 < |positions| then positions[i + 1] else NaN;
      var z := if i + 2 < |positions| then positions[i + 2] else NaN;
      CoordsAt(positions, n);
      MinOfStep(xs, n); MinOfStep(ys, n); MinOfStep(zs, n);
      MaxOfStep(xs, n); MaxOfStep(ys, n); MaxOfStep(zs, n);
      if Less(x, minX) { minX := x; }
      if Less(y, minY) { minY := y; }
      if Less(z, minZ) { minZ := z; }
      if Less(maxX, x) { maxX := x; }
      if Less(maxY, y) { maxY := y; }
      if Less(maxZ, z) { maxZ := z; }
      i, n := i + 3, n + 1;
    }
    assert xs[..n] == xs && ys[..n] == ys && zs[..n] == zs;
    var size := Vec3(ExtentWidth(minX, maxX), ExtentWidth(minY, maxY), ExtentWidth(minZ, maxZ));
    box := BoundingBox(size, minX, maxX, minY, maxY, minZ, maxZ);
  }

  // ---------------------------------------------------------------------------
  // The whole parse

  /** The material slot of a face: the running `usemtl` count minus one, never
      below zero. */
  function Slot(textureAddress: int): nat
  {
    if textureAddress < 0 then 0 else textureAddress
  }

  /** Material slots never decrease along the vertex order and stay below `bound`. */
  ghost predicate SlotsOrdered(s: seq<nat>, bound: nat)
  {
    && (forall a, b :: 0 <= a < b < |s| ==> s[a] <= s[b])
    && (forall k :: 0 <= k < |s| ==> s[k] <= bound)
  }

  lemma SlotsExtend(s: seq<nat>, s': seq<nat>, bound: nat)
    requires SlotsOrdered(s, bound) && ExtendsWith(s', s, bound)
    ensures SlotsOrdered(s', bound)
  {
    forall a, b | 0 <= a < b < |s'|
      ensures s'[a] <= s'[b]
    {
      if b < |s| {
        assert s'[a] == s'[..|s|][a] && s'[b] == s'[..|s|][b];
      } else if a < |s| {
        assert s'[a] == s'[..|s|][a];
      }
    }
    forall k | 0 <= k < |s'|
      ensures s'[k] <= bound
    {
      if k < |s| {
        assert s'[k] == s'[..|s|][k];
      }
    }
  }

  /** What `loadOBJData` promises about the geometry of the lines `lines`:
      one vertex per distinct face-vertex token in first-seen order, holding
      the position, the texture coordinate (v flipped) and the material slot
      that token refers to in the lines before the face line that first
      pushes it; one index per pushed token naming that token's vertex;
      material slots in file order; and the bounding box of the unpacked
      positions. */
  ghost predicate Unpacks(g: Geometry, lines: seq<string>, parseFloat: string -> Number)
  {
    var stream := FaceStream(lines);
    var uniq := Dedup(stream);
    && |g.positions| == 3 * |uniq| && |g.textures| == 2 * |uniq| && |g.textureAddresses| == |uniq|
    && |g.indices| == |stream|
    && (forall k :: 0 <= k < |stream| ==> g.indices[k] < |uniq| && uniq[g.indices[k]] == stream[k])
    && (forall k {:trigger FirstVertex(lines, uniq[k], parseFloat)} :: 0 <= k < |uniq| ==>
          Holds(g.positions, g.textures, g.textureAddresses, k, FirstVertex(lines, uniq[k], parseFloat)))
    && SlotsOrdered(g.textureAddresses, Slot(UseMtlCount(lines) - 1))
    && |g.normals| <= |g.positions| + 3
    && g.boundingBox == BoundingBoxOf(g.positions)
  }

  /** The loop variables of `loadOBJData`: the raw `v`, `vn` and `vt` values
      read so far, the material counter and the record being unpacked. */
  datatype Parse = Parse(positions: seq<Number>, normals: seq<string>, textures: seq<Number>,
                         textureAddress: int, u: Unpacked, f: FaceNormals)

  const StartParse := Parse([], [], [], -1, EmptyUnpacked, EmptyFaceNormals)

  /** After the lines `done`, the raw lists hold the `v` and `vt` values of
      `done`, the record holds the face tokens of `done` and each vertex
      as its token first made it, the material counter is one less than the
      `usemtl` lines seen, and material slots are in file order. */
  ghost predicate ParsedUpTo(p: Parse, done: seq<string>, parseFloat: string -> Number)
  {
    && p.u.Valid() && NormalsFit(p.f, p.u)
    && p.positions == RawPositions(done, parseFloat) && p.textures == RawTextures(done, parseFloat)
    && p.u.emitted == FaceStream(done)
    && VerticesRead(p.u, done, parseFloat)
    && p.textureAddress == UseMtlCount(done) - 1
    && SlotsOrdered(p.u.textureAddresses, Slot(p.textureAddress))
  }

  /** Every vertex of `u` holds what its token makes with the lines before it
      was first pushed. */
  ghost predicate VerticesRead(u: Unpacked, lines: seq<string>, parseFloat: string -> Number)
  {
    forall k {:trigger FirstVertex(lines, u.seen[k], parseFloat)} :: 0 <= k < |u.seen| ==>
      Holds(u.positions, u.textures, u.textureAddresses, k, FirstVertex(lines, u.seen[k], parseFloat))
  }

  /** A further line does not change the vertex of a token already pushed. */
  lemma FirstVertexKept(done: seq<string>, rawLine: string, t: string, parseFloat: string -> Number)
    requires t in FaceStream(done)
    ensures FirstVertex(done + [rawLine], t, parseFloat) == FirstVertex(done, t, parseFloat)
  {
    FirstLineSnoc(done, rawLine, t);
    var n := FirstLine(done, t);
    assert (done + [rawLine])[..n] == done[..n];
  }

  /** A token the lines `done` do not push is read with all of `done`. */
  lemma FirstVertexNew(done: seq<string>, rawLine: string, t: string, parseFloat: string -> Number)
    requires t !in FaceStream(done)
    ensures FirstVertex(done + [rawLine], t, parseFloat)
         == VertexFor(t, RawPositions(done, parseFloat), RawTextures(done, parseFloat), UseMtlCount(done) - 1, parseFloat)
  {
    FirstLineSnoc(done, rawLine, t);
  }

  /** One more line: the vertices already there keep what they hold, and the
      ones the line adds are read with the lines before it. */
  lemma VerticesReadSnoc(u: Unpacked, u': Unpacked, done: seq<string>, rawLine: string,
                         parseFloat: string -> Number)
    requires u.Valid() && u.emitted == FaceStream(done) && VerticesRead(u, done, parseFloat)
    requires u'.Valid() && u'.emitted == FaceStream(done + [rawLine])
    requires Grows(u, u')
    requires FreshFrom(u', |u.seen|, RawPositions(done, parseFloat), RawTextures(done, parseFloat),
                       UseMtlCount(done) - 1, parseFloat)
    ensures VerticesRead(u', done + [rawLine], parseFloat)
  {
    TableIsDedup(u.seen, u.hashIndices, u.emitted, u.indices, u.firstAt);
    TableIsDedup(u'.seen, u'.hashIndices, u'.emitted, u'.indices, u'.firstAt);
    DedupUpToDistinct(u'.emitted, |u'.emitted|);
    forall k | 0 <= k < |u'.seen|
      ensures Holds(u'.positions, u'.textures, u'.textureAddresses, k,
                    FirstVertex(done + [rawLine], u'.seen[k], parseFloat))
    {
      var t := u'.seen[k];
      DedupMember(u.emitted, t);
      if k < |u.seen| {
        assert t == u'.seen[..|u.seen|][k] == u.seen[k];
        GrowsHolds(u, u', k, FirstVertex(done, t, parseFloat));
        FirstVertexKept(done, rawLine, t, parseFloat);
      } else {
        assert t !in u.seen by {
          forall m | 0 <= m < |u.seen|
            ensures u.seen[m] != t
          {
            assert u.seen[m] == u'.seen[..|u.seen|][m] == u'.seen[m];
          }
        }
        FirstVertexNew(done, rawLine, t, parseFloat);
      }
    }
  }

  /** One pass of the line loop: the trimmed line is split on whitespace and
      dispatched on its keyword. */
  method ParseLine(p: Parse, done: seq<string>, rawLine: string, parseFloat: string -> Number, sqrt: real -> real)
    returns (p': Parse)
    requires ParsedUpTo(p, done, parseFloat)
    ensures ParsedUpTo(p', done + [rawLine], parseFloat)
  {
    var line := Trim(rawLine);
    var elements := Elements(line);
    var kind := Classify(line);
    ghost var done' := done + [rawLine];
    assert done'[..|done'| - 1] == done && done'[|done'| - 1] == rawLine;
    p' := p;
    if kind == PositionLine {
      p' := p.(positions := p.positions + ParseAll(elements, parseFloat));
    } else if kind == NormalLine {
      p' := p.(normals := p.normals + elements);
    } else if kind == TextureLine {
      p' := p.(textures := p.textures + ParseAll(elements, parseFloat));
    } else if kind == UseMtlLine {
      p' := p.(textureAddress := p.textureAddress + 1);
      SlotsWiden(p.u.textureAddresses, Slot(p.textureAddress), Slot(p'.textureAddress));
    } else if kind == FaceLine {
      var u, f := ProcessFaceLine(p.u, p.f, elements, p.positions, p.textures, p.textureAddress, parseFloat, sqrt);
      SlotsExtend(p.u.textureAddresses, u.textureAddresses, Slot(p.textureAddress));
      VerticesReadSnoc(p.u, u, done, rawLine, parseFloat);
      p' := p.(u := u, f := f);
    }
    if kind != FaceLine {
      GrowsRefl(p.u);
      VerticesReadSnoc(p.u, p.u, done, rawLine, parseFloat);
    }
  }

  lemma SlotsWiden(s: seq<nat>, bound: nat, bound': nat)
    requires SlotsOrdered(s, bound) && bound <= bound'
    ensures SlotsOrdered(s, bound')
  {
  }

  /** The record left by the line loop, with the final normals and box,
      is the geometry `Unpacks` describes. */
  lemma ParsedUnpacks(p: Parse, lines: seq<string>, g: Geometry, parseFloat: string -> Number)
    requires ParsedUpTo(p, lines, parseFloat)
    requires g.indices == p.u.indices && g.positions == p.u.positions
    requires g.textures == p.u.textures && g.textureAddresses == p.u.textureAddresses
    requires |g.normals| <= |g.positions| + 3
    requires g.boundingBox == BoundingBoxOf(g.positions)
    ensures Unpacks(g, lines, parseFloat)
  {
    var u := p.u;
    TableIsDedup(u.seen, u.hashIndices, u.emitted, u.indices, u.firstAt);
    forall k | 0 <= k < |u.emitted|
      ensures u.indices[k] < |u.seen| && u.seen[u.indices[k]] == u.emitted[k]
    {
      IndexedAt(u.emitted, u.indices, u.hashIndices, k);
    }
  }

  /** `loadOBJData`: refuses sources without any "f " (the count throws) and
      sources estimated above 70000 vertices; otherwise parses line by line. */
  method LoadObjData(source: string, parseFloat: string -> Number, sqrt: real -> real)
    returns (r: Result<Option<Geometry>, JsError>)
    ensures GetVertexCount(source).Err? ==> r == Err(GetVertexCount(source).error)
    ensures GetVertexCount(source).Ok? && GetVertexCount(source).value > MAX_VERTEX_COUNT ==> r == Ok(None)
    ensures GetVertexCount(source).Ok? && GetVertexCount(source).value <= MAX_VERTEX_COUNT ==>
              r.Ok? && r.value.Some? && Unpacks(r.value.value, Split(source, '\n'), parseFloat)
  {
    var vertexCount := GetVertexCount(source);
    if vertexCount.Err? {
      return Err(vertexCount.error);
    }
    if vertexCount.value > MAX_VERTEX_COUNT {
      return Ok(None);
    }
    var lines := Split(source, '\n');
    var p := StartParse;
    var i := 0;
    while i < |lines|
      invariant 0 <= i <= |lines|
      invariant ParsedUpTo(p, lines[..i], parseFloat)
    {
      assert lines[..i + 1] == lines[..i] + [lines[i]];
      p := ParseLine(p, lines[..i], lines[i], parseFloat, sqrt);
      i := i + 1;
    }
    assert lines[..i] == lines;
    var u := p.u;
    var normals := u.normals;
    if |u.normals| == 0 {
      normals := p.f.computedNormals;
    }
    var box := ComputeBoundingBox(u.positions);
    r := Ok(Some(Geometry(box, u.indices, normals, u.positions, u.textureAddresses, u.textures)));
    ParsedUnpacks(p, lines, r.value.value, parseFloat);
  }
}
