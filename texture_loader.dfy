/** `lib/gl/textureLoader.ts`: textures made from loaded images, bound to
    the `uDiffuse{i}` samplers, either from a record of named images or from
    the texture maps of the mesh's materials. Loading an image is
    asynchronous in the demos; here `load(url)` is the image a URL yields. */
module TextureLoader {
  import opened Wrappers
  import opened WebGLState
  import opened WebGL
  import opened Samplers
  import MtlLoader

  /** `MAX_SUPPORTED_MATERIAL_TEXTURES` of `lib/gl/settings.ts`: the number
      of `uDiffuse{i}` samplers the shaders declare. */
  const MAX_SUPPORTED_MATERIAL_TEXTURES: nat := 5

  // ---------------------------------------------------------------------------
  // isPowerOf2
  // ---------------------------------------------------------------------------

  /** `a & b` on non-negative integers, bit by bit from the lowest. */
  function BitAnd(a: nat, b: nat): nat
  {
    if a == 0 || b == 0 then 0 else 2 * BitAnd(a / 2, b / 2) + (if a % 2 == 1 && b % 2 == 1 then 1 else 0)
  }

  /** `(value & (value - 1)) === 0`. For 0 the right operand is -1, all ones
      as a 32-bit integer, and `0 & -1` is 0. */
  predicate IsPowerOf2(value: nat)
  {
    value == 0 || BitAnd(value, value - 1) == 0
  }

  /** An independent definition: 1, 2, 4, 8, ... */
  predicate IsPow2(v: nat)
  {
    v == 1 || (v >= 2 && v % 2 == 0 && IsPow2(v / 2))
  }

  function Pow2(k: nat): (r: nat)
    ensures r >= 1
  {
    if k == 0 then 1 else 2 * Pow2(k - 1)
  }

  lemma {:induction false} BitAndSelf(a: nat)
    ensures BitAnd(a, a) == a
  {
    if a != 0 {
      BitAndSelf(a / 2);
    }
  }

  /** The bit test accepts exactly 0 and the powers of two. */
  lemma {:induction false} PowerOf2Iff(v: nat)
    ensures IsPowerOf2(v) <==> v == 0 || IsPow2(v)
  {
    if v >= 1 {
      if v % 2 == 1 {
        // v = 2a + 1 and v - 1 = 2a share every bit of a.
        BitAndSelf(v / 2);
        assert BitAnd(v, v - 1) == 2 * BitAnd(v / 2, (v - 1) / 2);
        assert (v - 1) / 2 == v / 2;
        if v > 1 {
          assert !IsPow2(v);
        }
      } else {
        // v = 2a and v - 1 = 2(a - 1) + 1: the test moves down to a.
        assert BitAnd(v, v - 1) == 2 * BitAnd(v / 2, (v - 1) / 2);
        assert (v - 1) / 2 == v / 2 - 1;
        PowerOf2Iff(v / 2);
      }
    }
  }

  /** Every 2^k passes the test. */
  lemma {:induction false} PowersPass(k: nat)
    ensures IsPow2(Pow2(k)) && IsPowerOf2(Pow2(k))
  {
    if k > 0 {
      PowersPass(k - 1);
    }
    PowerOf2Iff(Pow2(k));
  }

  // ---------------------------------------------------------------------------
  // createTexture
  // ---------------------------------------------------------------------------

  /** A loaded `HTMLImageElement`: its size and its `src`. */
  datatype Image = Image(width: nat, height: nat, src: string)

  /** A `Texture`: the GL texture and `textureSize` `{ x: width, y: height }`. */
  datatype Texture = Texture(texture: Handle, width: nat, height: nat)

  /** `createTexture`: a new texture bound on unit 0, mipmapped when both
      sides of the image are powers of two (or zero), otherwise clamped to
      the edge with linear filtering; its size is the image's. */
  method CreateTexture(gl: GL, image: Image) returns (t: Texture)
    requires gl.Valid()
    modifies gl
    ensures gl.Valid() && t.texture == old(gl.st.next) && gl.st.next == old(gl.st.next) + 1
    ensures gl.st.kinds == old(gl.st.kinds)[t.texture := TextureKind] && gl.st.deleted == old(gl.st.deleted)
    ensures t.width == image.width && t.height == image.height
    ensures gl.st.activeUnit == 0 && TextureAt(gl.st, 0) == Some(t.texture)
    ensures forall u :: u != 0 ==> TextureAt(gl.st, u) == TextureAt(old(gl.st), u)
    ensures IsPowerOf2(image.width) && IsPowerOf2(image.height) ==>
      gl.st.mipmapped == old(gl.st.mipmapped) + {t.texture} && gl.st.clamped == old(gl.st.clamped)
    ensures !(IsPowerOf2(image.width) && IsPowerOf2(image.height)) ==>
      gl.st.clamped == old(gl.st.clamped) + {t.texture} && gl.st.mipmapped == old(gl.st.mipmapped)
    ensures gl.st.program == old(gl.st.program) && gl.st.uniformCalls == old(gl.st.uniformCalls)
  {
    var texture := gl.CreateObject(TextureKind);
    gl.ActiveTexture(0);
    gl.BindTexture(Some(texture));
    if IsPowerOf2(image.width) && IsPowerOf2(image.height) {
      gl.GenerateMipmap();
    } else {
      gl.ClampToEdge();
    }
    t := Texture(texture, image.width, image.height);
  }

  // ---------------------------------------------------------------------------
  // Loading images
  // ---------------------------------------------------------------------------

  /** `Promise.all` over the image loads rejected: some image fired
      `onerror`, and no texture was made. */
  datatype Rejection = ImageError

  /** The outcome of `initTexture(name, type, url)`: the loaded image, or
      `None` when it fails to load. */
  type Loader = string -> Option<Image>

  /** The image a URL loaded, when it did. */
  function ImageOf(url: string, load: Loader): Image
  {
    if load(url).Some? then load(url).value else Image(0, 0, "")
  }

  /** `image && image.src`: the URL loaded an image with a source. */
  predicate Usable(url: string, load: Loader)
  {
    load(url).Some? && load(url).value.src != ""
  }

  /** `s'` follows `s` by creating objects only: nothing live is lost and
      every new handle is live. */
  ghost predicate Grown(s: GLState, s': GLState)
  {
    && s.next <= s'.next && s'.deleted == s.deleted
    && (forall h :: Live(s, h) ==> Live(s', h))
    && (forall h :: s.next <= h < s'.next ==> Live(s', h))
  }

  lemma GrownTrans(a: GLState, b: GLState, c: GLState)
    requires Grown(a, b) && Grown(b, c)
    ensures Grown(a, c)
  {
    forall h | a.next <= h < c.next
      ensures Live(c, h)
    {
      if h < b.next {
        assert Live(b, h);
      }
    }
  }

  /** Binding samplers after creating objects keeps the growth. */
  lemma GrownSamplers(a: GLState, b: GLState, c: GLState)
    requires Grown(a, b) && OnlySamplers(b, c)
    ensures Grown(a, c)
  {
    assert c.kinds == b.kinds && c.deleted == b.deleted && c.next == b.next;
    forall h | Live(b, h)
      ensures Live(c, h)
    {
    }
  }

  /** `createTexture` grows the state by one texture. */
  lemma CreateGrows(s: GLState, s': GLState)
    requires s'.next == s.next + 1 && s'.deleted == s.deleted && s.next !in s.deleted
    requires s'.kinds == s.kinds[s.next := TextureKind]
    ensures Grown(s, s')
  {
  }

  /** One entry of a `Record<string, T>`, in key order. */
  datatype Named<T> = Named(name: string, value: T)

  // ---------------------------------------------------------------------------
  // loadImageTextures and bindTextures
  // ---------------------------------------------------------------------------

  /** The named images that loaded with a source, in key order. */
  function Kept(images: seq<Named<string>>, load: Loader): (kept: seq<Named<string>>)
    ensures |kept| <= |images|
  {
    if images == [] then []
    else
      var last := images[|images| - 1];
      Kept(images[..|images| - 1], load) + (if Usable(last.value, load) then [last] else [])
  }

  /** An image is kept exactly when it is in the record and usable. */
  lemma {:induction false} KeptMembers(images: seq<Named<string>>, load: Loader, e: Named<string>)
    ensures e in Kept(images, load) <==> e in images && Usable(e.value, load)
  {
    if images != [] {
      var last := images[|images| - 1];
      assert images == images[..|images| - 1] + [last];
      KeptMembers(images[..|images| - 1], load, e);
    }
  }

  /** The textures `createTexture` makes for `kept`, one after another from
      handle `base`. */
  function Made(kept: seq<Named<string>>, load: Loader, base: nat): (made: seq<Named<Texture>>)
    ensures |made| == |kept|
  {
    if kept == [] then []
    else
      var n := |kept| - 1;
      var image := ImageOf(kept[n].value, load);
      Made(kept[..n], load, base) + [Named(kept[n].name, Texture(base + n, image.width, image.height))]
  }

  /** The k-th texture carries the k-th kept image's name and size, on
      handle `base + k`. */
  lemma {:induction false} MadeEntries(kept: seq<Named<string>>, load: Loader, base: nat)
    ensures var made := Made(kept, load, base);
      forall k :: 0 <= k < |kept| ==>
        && made[k].name == kept[k].name
        && made[k].value.texture == base + k
        && made[k].value.width == ImageOf(kept[k].value, load).width
        && made[k].value.height == ImageOf(kept[k].value, load).height
  {
    if kept != [] {
      var n := |kept| - 1;
      MadeEntries(kept[..n], load, base);
    }
  }

  /** `loadImageTextures`: when every image loads, a texture for each one
      that has a source, under the image's name, in the record's order, on
      consecutive fresh handles; when one fails, the rejection and no GL
      call. */
  method LoadImageTextures(gl: GL, images: seq<Named<string>>, load: Loader)
    returns (r: Result<seq<Named<Texture>>, Rejection>)
    requires gl.Valid()
    modifies gl
    ensures gl.Valid()
    ensures r.Err? <==> exists e :: e in images && load(e.value).None?
    ensures r.Err? ==> gl.st == old(gl.st)
    ensures r.Ok? ==> r.value == Made(Kept(images, load), load, old(gl.st.next))
                      && gl.st.next == old(gl.st.next) + |r.value|
    ensures Grown(old(gl.st), gl.st)
    ensures gl.st.program == old(gl.st.program) && gl.st.uniformCalls == old(gl.st.uniformCalls)
  {
    if exists k | 0 <= k < |images| :: load(images[k].value).None? {
      var k :| 0 <= k < |images| && load(images[k].value).None?;
      assert images[k] in images;
      return Err(ImageError);
    }
    var textures := CreateTextures(gl, images, load);
    return Ok(textures);
  }

  /** The `forEach` of `loadImageTextures` once every image has loaded. */
  method CreateTextures(gl: GL, images: seq<Named<string>>, load: Loader) returns (textures: seq<Named<Texture>>)
    requires gl.Valid()
    modifies gl
    ensures gl.Valid()
    ensures textures == Made(Kept(images, load), load, old(gl.st.next)) && gl.st.next == old(gl.st.next) + |textures|
    ensures Grown(old(gl.st), gl.st)
    ensures gl.st.program == old(gl.st.program) && gl.st.uniformCalls == old(gl.st.uniformCalls)
  {
    textures := [];
    var i := 0;
    while i < |images|
      invariant 0 <= i <= |images| && gl.Valid()
      invariant textures == Made(Kept(images[..i], load), load, old(gl.st.next))
      invariant gl.st.next == old(gl.st.next) + |textures|
      invariant Grown(old(gl.st), gl.st)
      invariant gl.st.program == old(gl.st.program) && gl.st.uniformCalls == old(gl.st.uniformCalls)
    {
      KeptStep(images, i, load);
      ghost var s := gl.st;
      textures := KeepTexture(gl, textures, images[i], load, old(gl.st.next), Kept(images[..i], load));
      GrownTrans(old(gl.st), s, gl.st);
      i := i + 1;
    }
    assert images[..i] == images;
  }

  /** One image of the `forEach`: a texture when it has a source. */
  method KeepTexture(gl: GL, textures: seq<Named<Texture>>, e: Named<string>, load: Loader,
                     ghost base: nat, ghost kept: seq<Named<string>>)
    returns (textures': seq<Named<Texture>>)
    requires gl.Valid() && textures == Made(kept, load, base) && gl.st.next == base + |textures|
    modifies gl
    ensures gl.Valid()
    ensures textures' == Made(kept + (if Usable(e.value, load) then [e] else []), load, base)
    ensures gl.st.next == base + |textures'|
    ensures Grown(old(gl.st), gl.st)
    ensures gl.st.program == old(gl.st.program) && gl.st.uniformCalls == old(gl.st.uniformCalls)
  {
    if !Usable(e.value, load) {
      assert kept + [] == kept;
      return textures;
    }
    var image := ImageOf(e.value, load);
    ghost var s := gl.st;
    MadeStep(kept, e, load, base);
    var t := CreateTexture(gl, image);
    CreateGrows(s, gl.st);
    textures' := textures + [Named(e.name, t)];
  }

  lemma KeptStep(images: seq<Named<string>>, i: nat, load: Loader)
    requires i < |images|
    ensures Kept(images[..i + 1], load)
      == Kept(images[..i], load) + (if Usable(images[i].value, load) then [images[i]] else [])
  {
    assert images[..i + 1][..i] == images[..i];
  }

  lemma MadeStep(kept: seq<Named<string>>, e: Named<string>, load: Loader, base: nat)
    ensures var image := ImageOf(e.value, load);
      Made(kept + [e], load, base) == Made(kept, load, base) + [Named(e.name, Texture(base + |kept|, image.width, image.height))]
  {
    assert (kept + [e])[..|kept|] == kept;
  }

  /** Which texture goes to which unit: the i-th to unit i for every i below
      `limit`, the rest skipped. */
  function TextureSlots(textures: seq<Named<Texture>>, limit: nat): (slots: seq<Slot>)
    ensures |slots| == |textures|
    ensures forall i :: 0 <= i < |textures| ==>
      slots[i] == if i < limit then Bind(Some(textures[i].value.texture)) else Skip
  {
    seq(|textures|, i requires 0 <= i < |textures| => if i < limit then Bind(Some(textures[i].value.texture)) else Skip)
  }

  /** `bindTextures`, as written: the i-th texture to unit i and sampler
      `uDiffuse{i}` for every `i <= MAX_SUPPORTED_MATERIAL_TEXTURES`, which
      is six units for five samplers. */
  method BindTextures(gl: GL, uniformLocations: map<string, Option<Location>>, textures: seq<Named<Texture>>)
    requires gl.Valid()
    modifies gl
    ensures gl.Valid()
    ensures gl.st == BindSlots(old(gl.st), TextureSlots(textures, MAX_SUPPORTED_MATERIAL_TEXTURES + 1), uniformLocations)
  {
    var i := 0;
    while i < |textures|
      invariant 0 <= i <= |textures| && gl.Valid()
      invariant gl.st == BindSlots(old(gl.st), TextureSlots(textures, MAX_SUPPORTED_MATERIAL_TEXTURES + 1)[..i], uniformLocations)
    {
      ghost var slots := TextureSlots(textures, MAX_SUPPORTED_MATERIAL_TEXTURES + 1);
      assert slots[..i + 1][..i] == slots[..i];
      if i <= MAX_SUPPORTED_MATERIAL_TEXTURES {
        BindUnit(gl, i, Some(textures[i].value.texture), uniformLocations);
      }
      i := i + 1;
    }
    assert TextureSlots(textures, MAX_SUPPORTED_MATERIAL_TEXTURES + 1)[..i]
        == TextureSlots(textures, MAX_SUPPORTED_MATERIAL_TEXTURES + 1);
  }

  /** `bindTextures` limited to the declared samplers: `i < MAX_SUPPORTED_MATERIAL_TEXTURES`. */
  method BindSupportedTextures(gl: GL, uniformLocations: map<string, Option<Location>>, textures: seq<Named<Texture>>)
    requires gl.Valid()
    modifies gl
    ensures gl.Valid()
    ensures gl.st == BindSlots(old(gl.st), TextureSlots(textures, MAX_SUPPORTED_MATERIAL_TEXTURES), uniformLocations)
  {
    var i := 0;
    while i < |textures|
      invariant 0 <= i <= |textures| && gl.Valid()
      invariant gl.st == BindSlots(old(gl.st), TextureSlots(textures, MAX_SUPPORTED_MATERIAL_TEXTURES)[..i], uniformLocations)
    {
      ghost var slots := TextureSlots(textures, MAX_SUPPORTED_MATERIAL_TEXTURES);
      assert slots[..i + 1][..i] == slots[..i];
      if i < MAX_SUPPORTED_MATERIAL_TEXTURES {
        BindUnit(gl, i, Some(textures[i].value.texture), uniformLocations);
      }
      i := i + 1;
    }
    assert TextureSlots(textures, MAX_SUPPORTED_MATERIAL_TEXTURES)[..i]
        == TextureSlots(textures, MAX_SUPPORTED_MATERIAL_TEXTURES);
  }

  /** The samplers the shaders declare, `uDiffuse0` to `uDiffuse4`. */
  predicate Declared(name: string)
  {
    name in {"uDiffuse0", "uDiffuse1", "uDiffuse2", "uDiffuse3", "uDiffuse4"}
  }

  lemma DiffuseNames()
    ensures DiffuseName(0) == "uDiffuse0" && DiffuseName(1) == "uDiffuse1" && DiffuseName(2) == "uDiffuse2"
    ensures DiffuseName(3) == "uDiffuse3" && DiffuseName(4) == "uDiffuse4" && DiffuseName(5) == "uDiffuse5"
  {
  }

  /** As written, a sixth texture is bound to unit 5 and its sampler call
      names `uDiffuse5`, which no shader declares, so the call has no
      location when the table holds none for it. */
  lemma SixthTextureUnsampled(textures: seq<Named<Texture>>, uniformLocations: map<string, Option<Location>>)
    requires |textures| >= 6 && "uDiffuse5" !in uniformLocations
    ensures var slots := TextureSlots(textures, MAX_SUPPORTED_MATERIAL_TEXTURES + 1);
      && slots[5] == Bind(Some(textures[5].value.texture))
      && SamplerCall(5, uniformLocations) in SamplerCalls(slots, uniformLocations)
      && SamplerCall(5, uniformLocations).location == None
      && !Declared(DiffuseName(5))
  {
    DiffuseNames();
    SamplerCallsFor(TextureSlots(textures, MAX_SUPPORTED_MATERIAL_TEXTURES + 1), uniformLocations, 5);
  }

  /** With the limit at the number of samplers every sampler call names a
      declared sampler. */
  lemma SupportedTexturesSampled(textures: seq<Named<Texture>>, uniformLocations: map<string, Option<Location>>,
                                 c: UniformCall)
    requires c in SamplerCalls(TextureSlots(textures, MAX_SUPPORTED_MATERIAL_TEXTURES), uniformLocations)
    ensures exists k :: 0 <= k < MAX_SUPPORTED_MATERIAL_TEXTURES && c == SamplerCall(k, uniformLocations) && Declared(DiffuseName(k))
  {
    SamplerCallsOnly(TextureSlots(textures, MAX_SUPPORTED_MATERIAL_TEXTURES), uniformLocations, c);
    DiffuseNames();
  }

  // ---------------------------------------------------------------------------
  // loadMaterialTextures and bindMaterials
  // ---------------------------------------------------------------------------

  /** The keys of a material's `textures` record. */
  datatype TextureType = DiffuseMap | SpecularMap | NormalMap | BumpMap | AlphaMap

  const TEXTURE_TYPES: seq<TextureType> := [DiffuseMap, SpecularMap, NormalMap, BumpMap, AlphaMap]

  /** What the MTL file put under a texture key. */
  function UrlOf(maps: MtlLoader.MaterialMaps, t: TextureType): Option<string>
  {
    match t
    case DiffuseMap => maps.diffuseMap
    case SpecularMap => maps.specularMap
    case NormalMap => maps.normalMap
    case BumpMap => maps.bumpMap
    case AlphaMap => maps.alphaMap
  }

  /** A texture key holds its file name until its texture is made. */
  datatype TextureSlot = Url(url: Option<string>) | Loaded(texture: Texture)

  /** The key is requested: `!!textures[type]`, a non-empty name. */
  predicate Requested(maps: MtlLoader.MaterialMaps, t: TextureType)
  {
    UrlOf(maps, t).Some? && UrlOf(maps, t).value != ""
  }

  /** The key's texture gets made: requested, and its image has a source. */
  predicate Loads(maps: MtlLoader.MaterialMaps, t: TextureType, load: Loader)
  {
    Requested(maps, t) && Usable(UrlOf(maps, t).value, load)
  }

  /** Some requested image of some material fails to load. */
  predicate AnyFails(materials: seq<MtlLoader.Material>, load: Loader)
  {
    exists i, t | 0 <= i < |materials| && t in TEXTURE_TYPES ::
      Requested(materials[i].textures, t) && load(UrlOf(materials[i].textures, t).value).None?
  }

  /** A key after loading: a loaded key holds a texture of its image's size
      on a handle in `[lo, hi)`, any other key its file name. */
  predicate SlotLoaded(slot: TextureSlot, maps: MtlLoader.MaterialMaps, t: TextureType, load: Loader, lo: nat, hi: nat)
  {
    if Loads(maps, t, load)
    then var image := ImageOf(UrlOf(maps, t).value, load);
         && slot.Loaded?
         && slot.texture.width == image.width && slot.texture.height == image.height
         && lo <= slot.texture.texture < hi
    else slot == Url(UrlOf(maps, t))
  }

  /** One material's `textures` record after loading, every key in place. */
  predicate LoadedAs(slots: map<TextureType, TextureSlot>, maps: MtlLoader.MaterialMaps, load: Loader, lo: nat, hi: nat)
  {
    forall t :: t in slots && SlotLoaded(slots[t], maps, t, load, lo, hi)
  }

  /** One key: `createTexture` on its image when it loads. */
  method LoadSlot(gl: GL, maps: MtlLoader.MaterialMaps, t: TextureType, load: Loader) returns (slot: TextureSlot)
    requires gl.Valid()
    modifies gl
    ensures gl.Valid() && Grown(old(gl.st), gl.st)
    ensures gl.st.next == old(gl.st.next) + (if Loads(maps, t, load) then 1 else 0)
    ensures SlotLoaded(slot, maps, t, load, old(gl.st.next), gl.st.next)
    ensures gl.st.program == old(gl.st.program) && gl.st.uniformCalls == old(gl.st.uniformCalls)
  {
    if Loads(maps, t, load) {
      ghost var s := gl.st;
      var texture := CreateTexture(gl, ImageOf(UrlOf(maps, t).value, load));
      CreateGrows(s, gl.st);
      return Loaded(texture);
    }
    return Url(UrlOf(maps, t));
  }

  /** `loadMaterialTextures` for one material: each key of its `textures`. */
  method LoadMaterial(gl: GL, maps: MtlLoader.MaterialMaps, load: Loader)
    returns (slots: map<TextureType, TextureSlot>)
    requires gl.Valid()
    modifies gl
    ensures gl.Valid() && Grown(old(gl.st), gl.st)
    ensures LoadedAs(slots, maps, load, old(gl.st.next), gl.st.next)
    ensures gl.st.program == old(gl.st.program) && gl.st.uniformCalls == old(gl.st.uniformCalls)
  {
    slots := map[];
    var i := 0;
    while i < |TEXTURE_TYPES|
      invariant 0 <= i <= |TEXTURE_TYPES| && gl.Valid()
      invariant Grown(old(gl.st), gl.st)
      invariant forall t :: t in slots <==> t in TEXTURE_TYPES[..i]
      invariant forall t :: t in slots ==> SlotLoaded(slots[t], maps, t, load, old(gl.st.next), gl.st.next)
      invariant gl.st.program == old(gl.st.program) && gl.st.uniformCalls == old(gl.st.uniformCalls)
    {
      var t := TEXTURE_TYPES[i];
      assert TEXTURE_TYPES[..i + 1] == TEXTURE_TYPES[..i] + [t];
      ghost var s := gl.st;
      var slot := LoadSlot(gl, maps, t, load);
      GrownTrans(old(gl.st), s, gl.st);
      slots := slots[t := slot];
      i := i + 1;
    }
    assert TEXTURE_TYPES[..i] == TEXTURE_TYPES;
    forall t: TextureType
      ensures t in slots
    {
      assert t == TEXTURE_TYPES[0] || t == TEXTURE_TYPES[1] || t == TEXTURE_TYPES[2] || t == TEXTURE_TYPES[3] || t == TEXTURE_TYPES[4];
    }
  }

  /** `loadMaterialTextures`: when every requested image loads, each
      material's `textures` record with its loaded keys replaced by their
      textures, on fresh handles; when one fails, the rejection and no GL
      call. The source updates the caller's record in place; here the
      updated records are the result. */
  method LoadMaterialTextures(gl: GL, materials: seq<MtlLoader.Material>, load: Loader)
    returns (r: Result<seq<map<TextureType, TextureSlot>>, Rejection>)
    requires gl.Valid()
    modifies gl
    ensures gl.Valid()
    ensures r.Err? <==> AnyFails(materials, load)
    ensures r.Err? ==> gl.st == old(gl.st)
    ensures r.Ok? ==> |r.value| == |materials| && forall i :: 0 <= i < |materials| ==>
      LoadedAs(r.value[i], materials[i].textures, load, old(gl.st.next), gl.st.next)
    ensures Grown(old(gl.st), gl.st)
    ensures gl.st.program == old(gl.st.program) && gl.st.uniformCalls == old(gl.st.uniformCalls)
  {
    if AnyFails(materials, load) {
      return Err(ImageError);
    }
    var loaded := [];
    var i := 0;
    while i < |materials|
      invariant 0 <= i <= |materials| && gl.Valid() && |loaded| == i
      invariant Grown(old(gl.st), gl.st)
      invariant forall k :: 0 <= k < i ==> LoadedAs(loaded[k], materials[k].textures, load, old(gl.st.next), gl.st.next)
      invariant gl.st.program == old(gl.st.program) && gl.st.uniformCalls == old(gl.st.uniformCalls)
    {
      ghost var s := gl.st;
      ghost var before := gl.st.next;
      var slots := LoadMaterial(gl, materials[i].textures, load);
      GrownTrans(old(gl.st), s, gl.st);
      forall k | 0 <= k < i
        ensures LoadedAs(loaded[k], materials[k].textures, load, old(gl.st.next), gl.st.next)
      {
        LoadedAsWithin(loaded[k], materials[k].textures, load, old(gl.st.next), before, old(gl.st.next), gl.st.next);
      }
      LoadedAsWithin(slots, materials[i].textures, load, before, gl.st.next, old(gl.st.next), gl.st.next);
      loaded := loaded + [slots];
      i := i + 1;
    }
    return Ok(loaded);
  }

  /** A record loaded into a range is loaded into any range around it. */
  lemma LoadedAsWithin(slots: map<TextureType, TextureSlot>, maps: MtlLoader.MaterialMaps, load: Loader,
                       lo: nat, hi: nat, lo': nat, hi': nat)
    requires LoadedAs(slots, maps, load, lo, hi) && lo' <= lo && hi <= hi'
    ensures LoadedAs(slots, maps, load, lo', hi')
  {
  }

  /** What `mat.textures.diffuseMap.texture` gives at position i, when
      `diffuseMap` is truthy: the texture once loaded, `undefined` while the
      key still holds a name. */
  function DiffuseSlot(slots: map<TextureType, TextureSlot>, i: nat, limit: nat): Slot
  {
    if i >= limit || DiffuseMap !in slots then Skip
    else match slots[DiffuseMap]
      case Loaded(t) => Bind(Some(t.texture))
      case Url(u) => if u.Some? && u.value != "" then Bind(None) else Skip
  }

  function MaterialSlots(materials: seq<map<TextureType, TextureSlot>>, limit: nat): (slots: seq<Slot>)
    ensures |slots| == |materials|
    ensures forall i :: 0 <= i < |materials| ==> slots[i] == DiffuseSlot(materials[i], i, limit)
  {
    seq(|materials|, i requires 0 <= i < |materials| => DiffuseSlot(materials[i], i, limit))
  }

  /** `bindMaterials`, as written: the i-th material's diffuse texture to
      unit i and sampler `uDiffuse{i}` for every
      `i <= MAX_SUPPORTED_MATERIAL_TEXTURES` whose material has one. */
  method BindMaterials(gl: GL, uniformLocations: map<string, Option<Location>>,
                       materials: seq<map<TextureType, TextureSlot>>)
    requires gl.Valid()
    modifies gl
    ensures gl.Valid()
    ensures gl.st == BindSlots(old(gl.st), MaterialSlots(materials, MAX_SUPPORTED_MATERIAL_TEXTURES + 1), uniformLocations)
  {
    var i := 0;
    while i < |materials|
      invariant 0 <= i <= |materials| && gl.Valid()
      invariant gl.st == BindSlots(old(gl.st), MaterialSlots(materials, MAX_SUPPORTED_MATERIAL_TEXTURES + 1)[..i], uniformLocations)
    {
      ghost var slots := MaterialSlots(materials, MAX_SUPPORTED_MATERIAL_TEXTURES + 1);
      assert slots[..i + 1][..i] == slots[..i];
      var slot := DiffuseSlot(materials[i], i, MAX_SUPPORTED_MATERIAL_TEXTURES + 1);
      if slot.Bind? {
        BindUnit(gl, i, slot.texture, uniformLocations);
      }
      i := i + 1;
    }
    assert MaterialSlots(materials, MAX_SUPPORTED_MATERIAL_TEXTURES + 1)[..i]
        == MaterialSlots(materials, MAX_SUPPORTED_MATERIAL_TEXTURES + 1);
  }

  /** `bindMaterials` limited to the declared samplers. */
  method BindSupportedMaterials(gl: GL, uniformLocations: map<string, Option<Location>>,
                                materials: seq<map<TextureType, TextureSlot>>)
    requires gl.Valid()
    modifies gl
    ensures gl.Valid()
    ensures gl.st == BindSlots(old(gl.st), MaterialSlots(materials, MAX_SUPPORTED_MATERIAL_TEXTURES), uniformLocations)
  {
    var i := 0;
    while i < |materials|
      invariant 0 <= i <= |materials| && gl.Valid()
      invariant gl.st == BindSlots(old(gl.st), MaterialSlots(materials, MAX_SUPPORTED_MATERIAL_TEXTURES)[..i], uniformLocations)
    {
      ghost var slots := MaterialSlots(materials, MAX_SUPPORTED_MATERIAL_TEXTURES);
      assert slots[..i + 1][..i] == slots[..i];
      var slot := DiffuseSlot(materials[i], i, MAX_SUPPORTED_MATERIAL_TEXTURES);
      if slot.Bind? {
        BindUnit(gl, i, slot.texture, uniformLocations);
      }
      i := i + 1;
    }
    assert MaterialSlots(materials, MAX_SUPPORTED_MATERIAL_TEXTURES)[..i]
        == MaterialSlots(materials, MAX_SUPPORTED_MATERIAL_TEXTURES);
  }

  /** As written, a sixth material with a loaded diffuse texture is bound to
      unit 5, whose sampler no shader declares. */
  lemma SixthMaterialUnsampled(materials: seq<map<TextureType, TextureSlot>>, uniformLocations: map<string, Option<Location>>)
    requires |materials| >= 6 && DiffuseMap in materials[5] && materials[5][DiffuseMap].Loaded?
    requires "uDiffuse5" !in uniformLocations
    ensures var slots := MaterialSlots(materials, MAX_SUPPORTED_MATERIAL_TEXTURES + 1);
      && slots[5] == Bind(Some(materials[5][DiffuseMap].texture.texture))
      && SamplerCall(5, uniformLocations) in SamplerCalls(slots, uniformLocations)
      && SamplerCall(5, uniformLocations).location == None
  {
    DiffuseNames();
    SamplerCallsFor(MaterialSlots(materials, MAX_SUPPORTED_MATERIAL_TEXTURES + 1), uniformLocations, 5);
  }

  /** With the limit at the number of samplers every sampler call names a
      declared sampler. */
  lemma SupportedMaterialsSampled(materials: seq<map<TextureType, TextureSlot>>,
                                  uniformLocations: map<string, Option<Location>>, c: UniformCall)
    requires c in SamplerCalls(MaterialSlots(materials, MAX_SUPPORTED_MATERIAL_TEXTURES), uniformLocations)
    ensures exists k :: 0 <= k < MAX_SUPPORTED_MATERIAL_TEXTURES && c == SamplerCall(k, uniformLocations) && Declared(DiffuseName(k))
  {
    SamplerCallsOnly(MaterialSlots(materials, MAX_SUPPORTED_MATERIAL_TEXTURES), uniformLocations, c);
    DiffuseNames();
  }

  // ---------------------------------------------------------------------------
  // loadTextures
  // ---------------------------------------------------------------------------

  /** What `loadTextures` leaves behind: the textures of the image path, or
      the materials' records updated by the material path. */
  datatype Loaded = Images(textures: seq<Named<Texture>>) | Materials(records: seq<map<TextureType, TextureSlot>>) | Nothing

  /** The image path of `loadTextures`: load, then bind to the declared
      samplers. Unit k holds the k-th texture for every k below
      `MAX_SUPPORTED_MATERIAL_TEXTURES`, and the sampler calls are exactly
      those of the bound positions. */
  method LoadImagePath(gl: GL, uniformLocations: map<string, Option<Location>>, images: seq<Named<string>>, load: Loader)
    returns (r: Result<seq<Named<Texture>>, Rejection>)
    requires gl.Valid()
    modifies gl
    ensures gl.Valid() && Grown(old(gl.st), gl.st) && gl.st.program == old(gl.st.program)
    ensures r.Err? <==> exists e :: e in images && load(e.value).None?
    ensures r.Err? ==> gl.st == old(gl.st)
    ensures r.Ok? ==> r.value == Made(Kept(images, load), load, old(gl.st.next))
    ensures r.Ok? ==> forall k :: 0 <= k < |r.value| && k < MAX_SUPPORTED_MATERIAL_TEXTURES ==>
      TextureAt(gl.st, k) == Some(old(gl.st.next) + k)
    ensures r.Ok? ==>
      gl.st.uniformCalls == old(gl.st.uniformCalls) + SamplerCalls(TextureSlots(r.value, MAX_SUPPORTED_MATERIAL_TEXTURES), uniformLocations)
  {
    r := LoadImageTextures(gl, images, load);
    if r.Err? {
      return;
    }
    MadeEntries(Kept(images, load), load, old(gl.st.next));
    BindImageTextures(gl, uniformLocations, r.value, old(gl.st.next), old(gl.st));
  }

  /** `bindTextures` on textures with consecutive handles from `base`,
      limited to the declared samplers. */
  method BindImageTextures(gl: GL, uniformLocations: map<string, Option<Location>>, textures: seq<Named<Texture>>,
                           ghost base: nat, ghost s0: GLState)
    requires gl.Valid() && forall k :: 0 <= k < |textures| ==> textures[k].value.texture == base + k
    requires Grown(s0, gl.st)
    modifies gl
    ensures gl.Valid() && Grown(s0, gl.st) && gl.st.program == old(gl.st.program)
    ensures forall k :: 0 <= k < |textures| && k < MAX_SUPPORTED_MATERIAL_TEXTURES ==> TextureAt(gl.st, k) == Some(base + k)
    ensures gl.st.uniformCalls == old(gl.st.uniformCalls)
      + SamplerCalls(TextureSlots(textures, MAX_SUPPORTED_MATERIAL_TEXTURES), uniformLocations)
  {
    BindSupportedTextures(gl, uniformLocations, textures);
    BindSlotsFrame(old(gl.st), TextureSlots(textures, MAX_SUPPORTED_MATERIAL_TEXTURES), uniformLocations);
    ImageUnits(old(gl.st), textures, base, uniformLocations);
    GrownSamplers(s0, old(gl.st), gl.st);
  }

  /** Textures on consecutive handles from `base`, bound to the declared
      samplers, leave unit k holding handle `base + k`. */
  lemma ImageUnits(s: GLState, textures: seq<Named<Texture>>, base: nat, locations: map<string, Option<Location>>)
    requires forall k :: 0 <= k < |textures| ==> textures[k].value.texture == base + k
    ensures forall k :: 0 <= k < |textures| && k < MAX_SUPPORTED_MATERIAL_TEXTURES ==>
      TextureAt(BindSlots(s, TextureSlots(textures, MAX_SUPPORTED_MATERIAL_TEXTURES), locations), k) == Some(base + k)
  {
    BindSlotsUnits(s, TextureSlots(textures, MAX_SUPPORTED_MATERIAL_TEXTURES), locations);
  }

  /** The material path of `loadTextures`: load, then bind each material's
      diffuse texture to the declared samplers. */
  method LoadMaterialPath(gl: GL, uniformLocations: map<string, Option<Location>>, materials: seq<MtlLoader.Material>,
                          load: Loader)
    returns (r: Result<seq<map<TextureType, TextureSlot>>, Rejection>)
    requires gl.Valid()
    modifies gl
    ensures gl.Valid() && Grown(old(gl.st), gl.st) && gl.st.program == old(gl.st.program)
    ensures r.Err? <==> AnyFails(materials, load)
    ensures r.Err? ==> gl.st == old(gl.st)
    ensures r.Ok? ==>
      && |r.value| == |materials|
      && (forall i :: 0 <= i < |materials| ==>
            LoadedAs(r.value[i], materials[i].textures, load, old(gl.st.next), gl.st.next))
      && gl.st.uniformCalls == old(gl.st.uniformCalls)
           + SamplerCalls(MaterialSlots(r.value, MAX_SUPPORTED_MATERIAL_TEXTURES), uniformLocations)
  {
    r := LoadMaterialTextures(gl, materials, load);
    if r.Err? {
      return;
    }
    ghost var s := gl.st;
    BindSupportedMaterials(gl, uniformLocations, r.value);
    BindSlotsFrame(s, MaterialSlots(r.value, MAX_SUPPORTED_MATERIAL_TEXTURES), uniformLocations);
    GrownSamplers(old(gl.st), s, gl.st);
  }

  /** `loadTextures`: any `images` record, even an empty one (`images !== {}`
      compares identities and always holds), takes the image path; otherwise
      a `materials` record takes the material path; with neither nothing
      happens. A rejected load makes no GL call. */
  method LoadTextures(gl: GL, uniformLocations: map<string, Option<Location>>, images: Option<seq<Named<string>>>,
                      materials: Option<seq<MtlLoader.Material>>, load: Loader)
    returns (r: Result<Loaded, Rejection>)
    requires gl.Valid()
    modifies gl
    ensures gl.Valid() && Grown(old(gl.st), gl.st) && gl.st.program == old(gl.st.program)
    ensures r.Err? ==> gl.st == old(gl.st)
    ensures images.Some? ==> r.Ok? ==> r.value == Images(Made(Kept(images.value, load), load, old(gl.st.next)))
    ensures images.Some? ==> (r.Err? <==> exists e :: e in images.value && load(e.value).None?)
    ensures images.None? && materials.Some? ==> r.Ok? ==> r.value.Materials?
    ensures images.None? && materials.Some? ==> (r.Err? <==> AnyFails(materials.value, load))
    ensures images.None? && materials.None? ==> r == Ok(Nothing) && gl.st == old(gl.st)
  {
    if images.Some? {
      var textures := LoadImagePath(gl, uniformLocations, images.value, load);
      if textures.Err? {
        return Err(textures.error);
      }
      return Ok(Images(textures.value));
    }
    if materials.Some? {
      var records := LoadMaterialPath(gl, uniformLocations, materials.value, load);
      if records.Err? {
        return Err(records.error);
      }
      return Ok(Materials(records.value));
    }
    return Ok(Nothing);
  }
}
