/** Binding textures to the `uDiffuse{i}` samplers, the step shared by
    `bindTextures` and `bindMaterials` of `lib/gl/textureLoader.ts` and by
    `bindTextures` of `src/utils/transition.ts`: make unit i active, bind the
    texture there and set the sampler `uDiffuse{i}` to i. */
module Samplers {
  import opened Wrappers
  import opened JsValue
  import opened WebGLState
  import opened WebGL
  import JsString

  /** `` `uDiffuse${i}` ``. */
  function DiffuseName(i: nat): (name: string)
    ensures |name| > 8 && name[..8] == "uDiffuse"
  {
    "uDiffuse" + JsString.NatToString(i)
  }

  /** Different units name different samplers. */
  lemma DiffuseNamesDistinct(i: nat, j: nat)
    requires i != j
    ensures DiffuseName(i) != DiffuseName(j)
  {
    if DiffuseName(i) == DiffuseName(j) {
      assert DiffuseName(i)[8..] == JsString.NatToString(i);
      assert DiffuseName(j)[8..] == JsString.NatToString(j);
      JsString.NatToStringRoundTrip(i);
      JsString.NatToStringRoundTrip(j);
    }
  }

  /** `uniformLocations[name]`: `undefined` (no location) when absent. */
  function LocationOf(locations: map<string, Option<Location>>, name: string): Option<Location>
  {
    if name in locations then locations[name] else None
  }

  /** `gl.uniform1i(uniformLocations[`uDiffuse${unit}`], unit)`. */
  function SamplerCall(unit: nat, locations: map<string, Option<Location>>): UniformCall
  {
    UniformCall(Uniform1i, LocationOf(locations, DiffuseName(unit)), One(Prim(Num(unit as real))))
  }

  /** One iteration of the binding loops, on the state. */
  function BoundUnit(s: GLState, unit: nat, texture: Option<Handle>, locations: map<string, Option<Location>>): (r: GLState)
    ensures SameObjects(s, r)
  {
    Uniform(WebGLState.BindTexture(WebGLState.ActiveTexture(s, unit), texture), SamplerCall(unit, locations))
  }

  /** What a loop does at position i: bind a texture there, or skip it. */
  datatype Slot = Skip | Bind(texture: Option<Handle>)

  /** The state after the loop has visited `slots`, position i at unit i. */
  function BindSlots(s: GLState, slots: seq<Slot>, locations: map<string, Option<Location>>): GLState
  {
    if slots == [] then s
    else
      var before := BindSlots(s, slots[..|slots| - 1], locations);
      var last := |slots| - 1;
      if slots[last].Bind? then BoundUnit(before, last, slots[last].texture, locations) else before
  }

  /** The sampler calls the loop makes: one per bound position, in order. */
  function SamplerCalls(slots: seq<Slot>, locations: map<string, Option<Location>>): seq<UniformCall>
  {
    if slots == [] then []
    else
      var last := |slots| - 1;
      SamplerCalls(slots[..last], locations) + (if slots[last].Bind? then [SamplerCall(last, locations)] else [])
  }

  /** Only the active unit, the texture units and the uniform log differ. */
  predicate OnlySamplers(s: GLState, r: GLState)
  {
    r == s.(activeUnit := r.activeUnit, units := r.units, uniformCalls := r.uniformCalls)
  }

  /** After the loop the sampler calls are appended to the log and nothing
      but the active unit and the texture units changes. */
  lemma {:induction false} BindSlotsFrame(s: GLState, slots: seq<Slot>, locations: map<string, Option<Location>>)
    ensures OnlySamplers(s, BindSlots(s, slots, locations))
    ensures BindSlots(s, slots, locations).uniformCalls == s.uniformCalls + SamplerCalls(slots, locations)
  {
    if slots != [] {
      var last := |slots| - 1;
      BindSlotsFrame(s, slots[..last], locations);
      var before := BindSlots(s, slots[..last], locations);
      if slots[last].Bind? {
        var r := BoundUnit(before, last, slots[last].texture, locations);
        assert OnlySamplers(before, r);
        OnlySamplersTrans(s, before, r);
      }
    }
  }

  lemma OnlySamplersTrans(a: GLState, b: GLState, c: GLState)
    requires OnlySamplers(a, b) && OnlySamplers(b, c)
    ensures OnlySamplers(a, c)
  {
  }

  /** After the loop, unit k holds the texture of slot k when that slot
      binds, and every other unit is untouched. */
  lemma {:induction false} BindSlotsUnits(s: GLState, slots: seq<Slot>, locations: map<string, Option<Location>>)
    ensures var r := BindSlots(s, slots, locations);
      && (forall k :: 0 <= k < |slots| ==> TextureAt(r, k) == (if slots[k].Bind? then slots[k].texture else TextureAt(s, k)))
      && (forall k :: k >= |slots| ==> TextureAt(r, k) == TextureAt(s, k))
  {
    if slots != [] {
      var last := |slots| - 1;
      var prefix := slots[..last];
      BindSlotsUnits(s, prefix, locations);
      forall k | 0 <= k < last
        ensures prefix[k] == slots[k]
      {
      }
    }
  }

  /** The calls name unit k's sampler for each bound position k, and no
      other. */
  lemma {:induction false} SamplerCallsFor(slots: seq<Slot>, locations: map<string, Option<Location>>, k: nat)
    requires k < |slots| && slots[k].Bind?
    ensures SamplerCall(k, locations) in SamplerCalls(slots, locations)
  {
    var last := |slots| - 1;
    if k < last {
      assert slots[..last][k] == slots[k];
      SamplerCallsFor(slots[..last], locations, k);
    }
  }

  /** Every call of the loop is a sampler call for one of its bound
      positions. */
  lemma {:induction false} SamplerCallsOnly(slots: seq<Slot>, locations: map<string, Option<Location>>, c: UniformCall)
    requires c in SamplerCalls(slots, locations)
    ensures exists k :: 0 <= k < |slots| && slots[k].Bind? && c == SamplerCall(k, locations)
  {
    var last := |slots| - 1;
    if c in SamplerCalls(slots[..last], locations) {
      SamplerCallsOnly(slots[..last], locations, c);
      var k :| 0 <= k < last && slots[..last][k].Bind? && c == SamplerCall(k, locations);
      assert slots[k] == slots[..last][k];
    }
  }

  /** `activeTexture(TEXTURE0 + unit)`, `bindTexture(TEXTURE_2D, texture)`,
      `uniform1i(uniformLocations[`uDiffuse${unit}`], unit)`. */
  method BindUnit(gl: GL, unit: nat, texture: Option<Handle>, locations: map<string, Option<Location>>)
    requires gl.Valid()
    modifies gl
    ensures gl.Valid() && gl.st == BoundUnit(old(gl.st), unit, texture, locations)
  {
    gl.ActiveTexture(unit);
    gl.BindTexture(texture);
    gl.Uniform(SamplerCall(unit, locations));
  }
}
