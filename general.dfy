/** The display helpers of `src/utils/general.ts`: `parseUniform`, which turns
    a read-only uniform into the text shown beside its name, and
    `formatAttributes`, which previews every vertex buffer's data. */
module General {
  import opened Wrappers
  import opened JsValue
  import opened JsString
  import opened Uniforms

  /** What `parseUniform` hands to React: the value itself, or a string. */
  datatype Shown = Raw(value: Value) | Text(text: string)

  /** `value.key` in a template literal where `value` may itself be
      `undefined`: reading a property of `undefined` throws. */
  function ReadError(key: string): JsError
  {
    TypeError("Cannot read properties of undefined (reading '" + key + "')")
  }

  /** The axes a vector shows, each with the colour channel `||` falls back
      to (`VEC_2` has none). */
  function Axes(t: UniformType): seq<(string, Option<string>)>
  {
    if t == Vec2 then [("x", None), ("y", None)]
    else if t == Vec3 then [("x", Some("r")), ("y", Some("g")), ("z", Some("b"))]
    else [("x", Some("r")), ("y", Some("g")), ("z", Some("b")), ("w", Some("a"))]
  }

  /** `value.x` or `value.x || value.r`. */
  function Component(value: Value, axis: (string, Option<string>)): Scalar
  {
    if axis.1.None? then Get(value, axis.0) else Or(Get(value, axis.0), Get(value, axis.1.value))
  }

  /** `x: ${…}, y: ${…}, …` over the given axes. */
  function Fields(value: Value, axes: seq<(string, Option<string>)>, show: real -> string): string
  {
    if axes == [] then ""
    else
      var field := axes[0].0 + ": " + Show(Component(value, axes[0]), show);
      if |axes| == 1 then field else field + ", " + Fields(value, axes[1..], show)
  }

  /** `parseUniform(value, type)`; `show` is JavaScript's number-to-string. */
  function ParseUniform(value: Value, t: UniformType, show: real -> string): (r: Result<Shown, JsError>)
    ensures !IsVector(t) ==> r == Ok(Raw(value))
    ensures IsVector(t) ==> (r.Err? <==> value == Undefined)
    ensures r.Err? ==> r.error == ReadError("x")
  {
    if !IsVector(t) then Ok(Raw(value))
    else if value == Undefined then Err(ReadError("x"))
    else Ok(Text(Fields(value, Axes(t), show)))
  }

  /** The text starts with the first axis's field. */
  lemma FieldsStart(value: Value, axes: seq<(string, Option<string>)>, show: real -> string)
    requires axes != []
    ensures var field := axes[0].0 + ": " + Show(Component(value, axes[0]), show);
            |Fields(value, axes, show)| >= |field| && Fields(value, axes, show)[..|field|] == field
  {
  }

  /** A vector's text starts with its `x` component. */
  lemma VectorTextStartsWithX(value: Value, t: UniformType, show: real -> string)
    requires IsVector(t) && value != Undefined
    ensures ParseUniform(value, t, show).Ok?
    ensures var shown := Show(Component(value, Axes(t)[0]), show);
            var text := ParseUniform(value, t, show).value.text;
            |text| >= 3 + |shown| && text[..3 + |shown|] == "x: " + shown
  {
    var axes := Axes(t);
    assert axes[0].0 == "x";
    FieldsStart(value, axes, show);
    assert axes[0].0 + ": " == "x: ";
  }

  /** A `VEC_3`/`VEC_4` value whose `x` is falsy (zero, say) is shown through
      its `r` property instead (`Show(Undef)` is "undefined" when it has none). */
  lemma ZeroComponentShownAsColor(value: Value, t: UniformType, show: real -> string)
    requires t == Vec3 || t == Vec4
    requires value.Obj? && !Truthy(Get(value, "x"))
    ensures ParseUniform(value, t, show).Ok?
    ensures var shown := Show(Get(value, "r"), show);
            var text := ParseUniform(value, t, show).value.text;
            |text| >= 3 + |shown| && text[..3 + |shown|] == "x: " + shown
  {
    VectorTextStartsWithX(value, t, show);
    assert Axes(t)[0] == ("x", Some("r"));
  }

  /** A buffer slot of the `Buffers` record: nothing under the key, or a
      buffer whose `data` array may be missing. */
  datatype Slot = Missing | Present(data: Option<seq<real>>)

  datatype BufferEntry = BufferEntry(key: string, slot: Slot)

  /** One `{ name, value }` row of the attribute panel. */
  datatype Attribute = Attribute(name: string, value: string)

  /** `!buffer || !buffer.data` is false: an array is truthy even when empty. */
  predicate HasData(b: BufferEntry)
  {
    b.slot.Present? && b.slot.data.Some?
  }

  /** `Math.round(x * 100) / 100` over the reals: `Math.round` rounds half up. */
  function Round2(x: real): real
  {
    (x * 100.0 + 0.5).Floor as real / 100.0
  }

  /** Rounding lands on a whole number of hundredths within half a hundredth. */
  lemma Round2Close(x: real)
    ensures (Round2(x) * 100.0).Floor as real == Round2(x) * 100.0
    ensures -0.005 < Round2(x) - x <= 0.005
  {
    var f := (x * 100.0 + 0.5).Floor;
    assert Round2(x) * 100.0 == f as real;
    assert f as real <= x * 100.0 + 0.5 < f as real + 1.0;
  }

  /** `data.slice(0, 10).map(round)`. */
  function PreviewItems(data: seq<real>): (items: seq<real>)
    ensures |items| == if |data| < 10 then |data| else 10
    ensures forall k :: 0 <= k < |items| ==> items[k] == Round2(data[k])
  {
    var n := if |data| < 10 then |data| else 10;
    seq(n, k requires 0 <= k < n => Round2(data[k]))
  }

  /** `items.join(', ')`. */
  function Join(items: seq<real>, show: real -> string): string
  {
    if items == [] then ""
    else if |items| == 1 then show(items[0])
    else Join(items[..|items| - 1], show) + ", " + show(items[|items| - 1])
  }

  /** The row for one buffer with data. */
  function Preview(b: BufferEntry, show: real -> string): (a: Attribute)
    requires HasData(b)
    ensures a.name == b.key
    ensures var tail := "... (" + NatToString(|b.slot.data.value|) + " total)";
            |a.value| >= |tail| && a.value[|a.value| - |tail|..] == tail
  {
    var data := b.slot.data.value;
    Attribute(b.key, Join(PreviewItems(data), show) + "... (" + NatToString(|data|) + " total)")
  }

  /** The `reduce` of `formatAttributes`: buffers are visited in key order and
      a row is pushed onto the accumulator for each one with data. */
  function Reduce(buffers: seq<BufferEntry>, show: real -> string): seq<Attribute>
  {
    if buffers == [] then []
    else
      var acc := Reduce(buffers[..|buffers| - 1], show);
      var b := buffers[|buffers| - 1];
      if HasData(b) then acc + [Preview(b, show)] else acc
  }

  /** Reference definition: the buffers with data, in key order. */
  function Kept(buffers: seq<BufferEntry>): (r: seq<BufferEntry>)
    ensures |r| <= |buffers|
    ensures forall b :: b in r <==> b in buffers && HasData(b)
  {
    if buffers == [] then []
    else if HasData(buffers[0]) then [buffers[0]] + Kept(buffers[1..])
    else Kept(buffers[1..])
  }

  function Previews(buffers: seq<BufferEntry>, show: real -> string): (r: seq<Attribute>)
    requires forall b :: b in buffers ==> HasData(b)
    ensures |r| == |buffers|
    ensures forall k :: 0 <= k < |r| ==> r[k] == Preview(buffers[k], show)
  {
    seq(|buffers|, k requires 0 <= k < |buffers| => Preview(buffers[k], show))
  }

  lemma {:induction false} KeptAppend(buffers: seq<BufferEntry>, b: BufferEntry)
    ensures Kept(buffers + [b]) == Kept(buffers) + (if HasData(b) then [b] else [])
  {
    if buffers != [] {
      assert (buffers + [b])[1..] == buffers[1..] + [b];
      KeptAppend(buffers[1..], b);
    }
  }

  /** The accumulated rows are exactly the previews of the kept buffers, in
      key order. */
  lemma {:induction false} ReduceIsPreviewsOfKept(buffers: seq<BufferEntry>, show: real -> string)
    ensures Reduce(buffers, show) == Previews(Kept(buffers), show)
  {
    if buffers != [] {
      var init := buffers[..|buffers| - 1];
      var b := buffers[|buffers| - 1];
      assert init + [b] == buffers;
      ReduceIsPreviewsOfKept(init, show);
      KeptAppend(init, b);
    }
  }

  /** `formatAttributes(buffers)`: `[]` for a falsy record; otherwise one row
      per buffer with data, in key order, named by its key. */
  function FormatAttributes(buffers: Option<seq<BufferEntry>>, show: real -> string): (r: seq<Attribute>)
    ensures buffers.None? ==> r == []
    ensures buffers.Some? ==> r == Previews(Kept(buffers.value), show)
  {
    if buffers.None? then []
    else
      ReduceIsPreviewsOfKept(buffers.value, show);
      Reduce(buffers.value, show)
  }

  /** Every row belongs to a buffer with data, every buffer with data has its
      row, and a row's name is the key it came from. */
  lemma FormatAttributesRows(buffers: seq<BufferEntry>, show: real -> string)
    ensures forall a :: a in FormatAttributes(Some(buffers), show) ==>
              exists b :: b in buffers && HasData(b) && a == Preview(b, show)
    ensures forall b :: b in buffers && HasData(b) ==> Preview(b, show) in FormatAttributes(Some(buffers), show)
  {
    var kept := Kept(buffers);
    var r := FormatAttributes(Some(buffers), show);
    forall a | a in r
      ensures exists b :: b in buffers && HasData(b) && a == Preview(b, show)
    {
      var k :| 0 <= k < |r| && r[k] == a;
      assert kept[k] in kept;
    }
    forall b | b in buffers && HasData(b)
      ensures Preview(b, show) in r
    {
      var k :| 0 <= k < |kept| && kept[k] == b;
      assert r[k] == Preview(b, show);
    }
  }
}
