/** The vector helpers and the per-face buffer layouts of `lib/gl/math.ts`,
    over real numbers; `Math.sqrt` is a parameter. */
module GlMath {
  import opened Wrappers

  datatype Vector3 = Vector3(x: real, y: real, z: real)

  const Zero := Vector3(0.0, 0.0, 0.0)

  /** `degrees * (Math.PI / 180)`, with the value of `Math.PI` as `pi`. */
  function DegreesToRadians(degrees: real, pi: real): (r: real)
    ensures degrees == 0.0 ==> r == 0.0
    ensures degrees == 180.0 ==> r == pi
    ensures degrees == -180.0 ==> r == -pi
  {
    degrees * (pi / 180.0)
  }

  /** `Math.min(Math.max(value, min), max)`. */
  function Clamp(value: real, min: real, max: real): (r: real)
    ensures min <= max ==> min <= r <= max
    ensures min <= value <= max ==> r == value
    ensures value < min ==> r == (if min <= max then min else max)
    ensures max < value ==> r == max
    ensures min > max ==> r == max
  {
    var lo := if value < min then min else value;
    if lo < max then lo else max
  }

  /** `v0 * (1 - t) + v1 * t`. */
  function Interpolate(v0: real, v1: real, t: real): (r: real)
    ensures t == 0.0 ==> r == v0
    ensures t == 1.0 ==> r == v1
    ensures v0 == v1 ==> r == v0
  {
    v0 * (1.0 - t) + v1 * t
  }

  /** For an amount in [0, 1] the result lies between the two ends. */
  lemma InterpolateBetween(v0: real, v1: real, t: real)
    requires 0.0 <= t <= 1.0 && v0 <= v1
    ensures v0 <= Interpolate(v0, v1, t) <= v1
  {
    var d := v1 - v0;
    assert Interpolate(v0, v1, t) == v0 + t * d;
    assert 0.0 <= t * d <= d by {
      assert t * d <= 1.0 * d;
    }
  }

  function InterpolateVectors(source: Vector3, target: Vector3, amount: real): (r: Vector3)
    ensures amount == 0.0 ==> r == source
    ensures amount == 1.0 ==> r == target
  {
    Vector3(Interpolate(source.x, target.x, amount), Interpolate(source.y, target.y, amount),
            Interpolate(source.z, target.z, amount))
  }

  function AddVectors(a: Vector3, b: Vector3): Vector3
  {
    Vector3(a.x + b.x, a.y + b.y, a.z + b.z)
  }

  function SubtractVectors(a: Vector3, b: Vector3): Vector3
  {
    Vector3(a.x - b.x, a.y - b.y, a.z - b.z)
  }

  /** Subtraction undoes addition, component by component. */
  lemma SubtractUndoesAdd(a: Vector3, b: Vector3)
    ensures SubtractVectors(AddVectors(a, b), b) == a
    ensures AddVectors(SubtractVectors(a, b), b) == a
  {
  }

  function MultiplyScalar(v: Vector3, scalar: real): Vector3
  {
    Vector3(v.x * scalar, v.y * scalar, v.z * scalar)
  }

  function CrossVectors(a: Vector3, b: Vector3): Vector3
  {
    Vector3(a.y * b.z - a.z * b.y, a.z * b.x - a.x * b.z, a.x * b.y - a.y * b.x)
  }

  function Dot(a: Vector3, b: Vector3): real
  {
    a.x * b.x + a.y * b.y + a.z * b.z
  }

  /** The cross product is anti-commutative, vanishes on a vector with itself,
      and is orthogonal to both factors. */
  lemma CrossProperties(a: Vector3, b: Vector3)
    ensures CrossVectors(a, b) == MultiplyScalar(CrossVectors(b, a), -1.0)
    ensures CrossVectors(a, a) == Zero
    ensures Dot(CrossVectors(a, b), a) == 0.0 && Dot(CrossVectors(a, b), b) == 0.0
  {
  }

  /** `Math.sqrt(x * x + y * y + z * z)`. */
  function VectorMagnitude(v: Vector3, sqrt: real -> real): real
  {
    sqrt(Dot(v, v))
  }

  /** `normalizeVector`: a vector of magnitude zero is returned as it is. */
  function NormalizeVector(v: Vector3, sqrt: real -> real): (r: Vector3)
    ensures VectorMagnitude(v, sqrt) == 0.0 ==> r == v
    ensures v == Zero ==> r == Zero
  {
    var magnitude := VectorMagnitude(v, sqrt);
    if magnitude == 0.0 then v else MultiplyScalar(v, 1.0 / magnitude)
  }

  /** When `sqrt` gives the positive root of the squared length, the result has
      unit length. */
  lemma NormalizeIsUnit(v: Vector3, sqrt: real -> real)
    requires var m := sqrt(Dot(v, v)); m > 0.0 && m * m == Dot(v, v)
    ensures Dot(NormalizeVector(v, sqrt), NormalizeVector(v, sqrt)) == 1.0
  {
    var m := sqrt(Dot(v, v));
    var s := 1.0 / m;
    var n := MultiplyScalar(v, s);
    assert Dot(n, n) == s * s * Dot(v, v);
    assert s * s * (m * m) == (s * m) * (s * m);
    assert s * m == 1.0;
  }

  /** `computeFaceNormal`: the normalised cross product of c - b and a - b for
      the first three vertices of a face; a face with fewer than three vertices
      reads a coordinate of `undefined` and throws (`None`). Patching -0 to 0
      is invisible over the reals. */
  function ComputeFaceNormal(face: seq<Vector3>, sqrt: real -> real): (r: Option<Vector3>)
    ensures r.Some? <==> |face| >= 3
  {
    if |face| < 3 then None
    else
      var cross := CrossVectors(SubtractVectors(face[2], face[1]), SubtractVectors(face[0], face[1]));
      Some(NormalizeVector(cross, sqrt))
  }

  /** The nine numbers `computeFaceNormals` appends for one face. */
  function Repeat3(n: Vector3): seq<real>
  {
    [n.x, n.y, n.z, n.x, n.y, n.z, n.x, n.y, n.z]
  }

  /** `computeFaceNormals`: flat shading, the face normal repeated for each of
      the face's three vertices. */
  function ComputeFaceNormals(mesh: seq<seq<Vector3>>, sqrt: real -> real): (r: Option<seq<real>>)
  {
    if mesh == [] then Some([])
    else
      var prev := ComputeFaceNormals(mesh[..|mesh| - 1], sqrt);
      var normal := ComputeFaceNormal(mesh[|mesh| - 1], sqrt);
      if prev.None? || normal.None? then None else Some(prev.value + Repeat3(normal.value))
  }

  /** Slicing inside the first part of a concatenation. */
  lemma SliceOfAppend<T>(p: seq<T>, b: seq<T>, lo: nat, hi: nat)
    requires lo <= hi <= |p|
    ensures (p + b)[lo..hi] == p[lo..hi]
  {
  }

  /** The layout succeeds exactly when every face has three vertices, and
      then gives nine numbers per face. */
  lemma {:induction false} FaceNormalsDefined(mesh: seq<seq<Vector3>>, sqrt: real -> real)
    ensures ComputeFaceNormals(mesh, sqrt).Some? <==> forall i :: 0 <= i < |mesh| ==> |mesh[i]| >= 3
    ensures ComputeFaceNormals(mesh, sqrt).Some? ==> |ComputeFaceNormals(mesh, sqrt).value| == 9 * |mesh|
  {
    if mesh != [] {
      var init := mesh[..|mesh| - 1];
      FaceNormalsDefined(init, sqrt);
      assert forall i :: 0 <= i < |init| ==> mesh[i] == init[i];
      if ComputeFaceNormals(init, sqrt).None? {
        var i :| 0 <= i < |init| && |init[i]| < 3;
        assert mesh[i] == init[i];
      }
    }
  }

  /** Face i's normal fills positions 9i to 9i + 9, once per vertex. */
  lemma {:induction false} FaceNormalAt(mesh: seq<seq<Vector3>>, sqrt: real -> real, i: nat)
    requires ComputeFaceNormals(mesh, sqrt).Some? && i < |mesh|
    ensures |mesh[i]| >= 3
    ensures 9 * i + 9 <= |ComputeFaceNormals(mesh, sqrt).value|
    ensures ComputeFaceNormals(mesh, sqrt).value[9 * i..9 * i + 9] == Repeat3(ComputeFaceNormal(mesh[i], sqrt).value)
  {
    FaceNormalsDefined(mesh, sqrt);
    var init := mesh[..|mesh| - 1];
    var prev := ComputeFaceNormals(init, sqrt).value;
    var last := Repeat3(ComputeFaceNormal(mesh[|mesh| - 1], sqrt).value);
    FaceNormalsDefined(init, sqrt);
    if i < |mesh| - 1 {
      assert ComputeFaceNormals(mesh, sqrt).value[9 * i..9 * i + 9] == Repeat3(ComputeFaceNormal(mesh[i], sqrt).value) by {
        FaceNormalAt(init, sqrt, i);
        assert init[i] == mesh[i];
        SliceOfAppend(prev, last, 9 * i, 9 * i + 9);
      }
    } else {
      assert ComputeFaceNormals(mesh, sqrt).value[9 * i..9 * i + 9] == Repeat3(ComputeFaceNormal(mesh[i], sqrt).value) by {
        assert (prev + last)[|prev|..] == last;
      }
    }
  }

  // ---------------------------------------------------------------------------
  // Barycentric coordinates

  /** The nine weights pushed for face `i`: even faces and odd faces use two
      different vertex orders, so neighbouring triangles do not share an edge
      colouring. */
  function BarycentricBlock(i: nat): (b: seq<real>)
    ensures |b| == 9
  {
    if i % 2 == 0 then [0.0, 0.0, 1.0, 0.0, 1.0, 0.0, 1.0, 0.0, 0.0]
    else [0.0, 1.0, 0.0, 0.0, 0.0, 1.0, 1.0, 0.0, 0.0]
  }

  /** The coordinates for the first `n` faces. */
  function Barycentric(n: nat): (r: seq<real>)
    ensures |r| == 9 * n
  {
    if n == 0 then [] else Barycentric(n - 1) + BarycentricBlock(n - 1)
  }

  /** `computeBarycentricCoords`: nine weights per face; nothing for a count
      of zero or less. */
  method ComputeBarycentricCoords(numFaces: int) returns (coords: seq<real>)
    ensures numFaces <= 0 ==> coords == []
    ensures numFaces > 0 ==> coords == Barycentric(numFaces)
  {
    coords := [];
    var i := 0;
    while i < numFaces
      invariant 0 <= i && (numFaces > 0 ==> i <= numFaces) && (numFaces <= 0 ==> i == 0)
      invariant coords == Barycentric(i)
    {
      if i % 2 == 0 {
        coords := coords + [0.0, 0.0, 1.0, 0.0, 1.0, 0.0, 1.0, 0.0, 0.0];
      } else {
        coords := coords + [0.0, 1.0, 0.0, 0.0, 0.0, 1.0, 1.0, 0.0, 0.0];
      }
      i := i + 1;
    }
  }

  /** Three weights of which exactly one is 1 and the others 0. */
  predicate OneHot(w: seq<real>)
  {
    |w| == 3 && (w == [1.0, 0.0, 0.0] || w == [0.0, 1.0, 0.0] || w == [0.0, 0.0, 1.0])
  }

  /** Face `i` occupies positions 9i to 9i + 9. */
  lemma {:induction false} BarycentricBlockAt(n: nat, i: nat)
    requires i < n
    ensures Barycentric(n)[9 * i..9 * i + 9] == BarycentricBlock(i)
  {
    if i < n - 1 {
      assert Barycentric(n)[9 * i..9 * i + 9] == BarycentricBlock(i) by {
        BarycentricBlockAt(n - 1, i);
        SliceOfAppend(Barycentric(n - 1), BarycentricBlock(n - 1), 9 * i, 9 * i + 9);
      }
    } else {
      assert Barycentric(n)[9 * i..9 * i + 9] == BarycentricBlock(i) by {
        var prev := Barycentric(n - 1);
        assert (prev + BarycentricBlock(n - 1))[|prev|..] == BarycentricBlock(n - 1);
      }
    }
  }

  /** The three vertices of every face get three different one-hot weights. */
  lemma BarycentricOneHot(n: nat, i: nat)
    requires i < n
    ensures var b := Barycentric(n)[9 * i..9 * i + 9];
      OneHot(b[0..3]) && OneHot(b[3..6]) && OneHot(b[6..9])
      && b[0..3] != b[3..6] && b[3..6] != b[6..9] && b[0..3] != b[6..9]
  {
    BarycentricBlockAt(n, i);
    BlockOneHot(i);
  }

  lemma BlockOneHot(i: nat)
    ensures var b := BarycentricBlock(i);
      OneHot(b[0..3]) && OneHot(b[3..6]) && OneHot(b[6..9])
      && b[0..3] != b[3..6] && b[3..6] != b[6..9] && b[0..3] != b[6..9]
  {
    var b := BarycentricBlock(i);
    if i % 2 == 0 {
      assert b[0..3] == [0.0, 0.0, 1.0] && b[3..6] == [0.0, 1.0, 0.0] && b[6..9] == [1.0, 0.0, 0.0];
    } else {
      assert b[0..3] == [0.0, 1.0, 0.0] && b[3..6] == [0.0, 0.0, 1.0] && b[6..9] == [1.0, 0.0, 0.0];
    }
  }
}
