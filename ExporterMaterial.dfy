/**
 * `BuildMaterials`, `BuildMaterial` and its local `BuildTexture` from
 * USDZExporter.cs. The branches of `BuildMaterial` are first given as
 * functions (which inputs each adds, which textures it samples); the methods
 * then build the `inputs` and `samplers` lists and fill the `textures`
 * dictionary in place, and are proved to produce exactly that.
 */
module ExporterMaterial {
  import opened Wrappers
  import opened Text
  import opened Collections
  import opened Three
  import opened ExporterText

  // ---------------------------------------------------------------------------
  // The branches of BuildMaterial
  // ---------------------------------------------------------------------------

  const KDiffuseConnect := Indent3 + "color3f inputs:diffuseColor.connect = "
  const KDiffuse := Indent3 + "color3f inputs:diffuseColor = "
  const KEmissiveConnect := Indent3 + "color3f inputs:emissiveColor.connect = "
  const KEmissive := Indent3 + "color3f inputs:emissiveColor = "
  const KNormalConnect := Indent3 + "normal3f inputs:normal.connect = "
  const KOcclusionConnect := Indent3 + "float inputs:occlusion.connect = "
  const KRoughnessConnect := Indent3 + "float inputs:roughness.connect = "
  const KRoughness := Indent3 + "float inputs:roughness = "
  const KMetallicConnect := Indent3 + "float inputs:metallic.connect = "
  const KMetallic := Indent3 + "float inputs:metallic = "
  const KOpacityConnect := Indent3 + "float inputs:opacity.connect = "
  const KOpacityThreshold := Indent3 + "float inputs:opacityThreshold = "
  const KOpacity := Indent3 + "float inputs:opacity = "

  /** An output of the `Texture_{id}_{mapType}` shader of this material. */
  function TexturePath(m: Material, t: Texture, mapType: string, output: string): string
  {
    ShaderPath(m.id, TextureShader(t.id, mapType), output)
  }

  /** `Roughness` is read from its map only when the map exists and `Roughness == 1`. */
  predicate RoughnessConnected(m: Material)
  {
    m.roughnessMap.Some? && m.roughness == 1.0
  }

  predicate MetalnessConnected(m: Material)
  {
    m.metalnessMap.Some? && m.metalness == 1.0
  }

  /** `Emissive?.GetHex() > 0`. */
  predicate EmissiveLit(m: Material)
  {
    m.emissive.Some? && Hex(m.emissive.value) > 0
  }

  /** The diffuse branch: a connection to the map (with the opacity it implies), or the colour. */
  function DiffuseInputs(m: Material): seq<string>
    requires m.colorMap.Some? || m.color.Some?
  {
    if m.colorMap.Some? then
      var t := m.colorMap.value;
      [KDiffuseConnect + TexturePath(m, t, "diffuse", "outputs:rgb")]
      + (if m.transparent then [KOpacityConnect + TexturePath(m, t, "diffuse", "outputs:a")]
         else if m.alphaTest > 0.0 then
           [KOpacityConnect + TexturePath(m, t, "diffuse", "outputs:a"), KOpacityThreshold + FormatDefault(m.alphaTest)]
         else [])
    else [KDiffuse + ColorText(m.color.value)]
  }

  function EmissiveInputs(m: Material): seq<string>
  {
    if m.emissiveMap.Some? then [KEmissiveConnect + TexturePath(m, m.emissiveMap.value, "emissive", "outputs:rgb")]
    else if EmissiveLit(m) then [KEmissive + ColorText(m.emissive.value)]
    else []
  }

  function NormalInputs(m: Material): seq<string>
  {
    if m.normalMap.Some? then [KNormalConnect + TexturePath(m, m.normalMap.value, "normal", "outputs:rgb")] else []
  }

  function OcclusionInputs(m: Material): seq<string>
  {
    if m.aoMap.Some? then [KOcclusionConnect + TexturePath(m, m.aoMap.value, "occlusion", "outputs:r")] else []
  }

  function RoughnessInputs(m: Material): seq<string>
  {
    if RoughnessConnected(m) then [KRoughnessConnect + TexturePath(m, m.roughnessMap.value, "roughness", "outputs:g")]
    else [KRoughness + FormatDefault(m.roughness)]
  }

  function MetallicInputs(m: Material): seq<string>
  {
    if MetalnessConnected(m) then [KMetallicConnect + TexturePath(m, m.metalnessMap.value, "metallic", "outputs:b")]
    else [KMetallic + FormatDefault(m.metalness)]
  }

  function OpacityInputs(m: Material): seq<string>
  {
    if m.alphaMap.Some? then
      [KOpacityConnect + TexturePath(m, m.alphaMap.value, "opacity", "outputs:r"), KOpacityThreshold + "0.0001"]
    else [KOpacity + FormatDefault(m.opacity)]
  }

  /** The `inputs` list, branch after branch. */
  function Inputs(m: Material): seq<string>
    requires m.colorMap.Some? || m.color.Some?
  {
    DiffuseInputs(m) + EmissiveInputs(m) + NormalInputs(m) + OcclusionInputs(m)
      + RoughnessInputs(m) + MetallicInputs(m) + OpacityInputs(m)
  }

  function Optional(t: Option<Texture>, mapType: string, color: Option<Color>): seq<Use>
  {
    if t.Some? then [Use(t.value, mapType, color)] else []
  }

  /** The `BuildTexture` calls of the branches, in call order. */
  function Uses(m: Material): seq<Use>
  {
    Optional(m.colorMap, "diffuse", m.color)
      + Optional(m.emissiveMap, "emissive", None)
      + Optional(m.normalMap, "normal", None)
      + Optional(m.aoMap, "occlusion", None)
      + Optional(if RoughnessConnected(m) then m.roughnessMap else None, "roughness", None)
      + Optional(if MetalnessConnected(m) then m.metalnessMap else None, "metallic", None)
      + Optional(m.alphaMap, "opacity", None)
  }

  predicate AllKnown(uses: seq<Use>)
  {
    forall i :: 0 <= i < |uses| ==> WrapsKnown(uses[i].texture)
  }

  /** The `samplers` list for the given texture uses. */
  function Samplers(m: Material, uses: seq<Use>, quickLookCompatible: bool): (r: seq<seq<string>>)
    requires AllKnown(uses)
    ensures |r| == |uses| && forall i :: 0 <= i < |uses| ==> r[i] == SamplerLines(m, uses[i], quickLookCompatible)
  {
    seq(|uses|, i requires 0 <= i < |uses| => SamplerLines(m, uses[i], quickLookCompatible))
  }

  /**
   * What `BuildMaterial` returns: an InvalidOperationException when it reads
   * the missing `Color` of a material without a map, a KeyNotFoundException
   * when a sampled texture has a wrap mode outside `WRAPPINGS`, and otherwise
   * the material's text.
   */
  function MaterialText(m: Material, quickLookCompatible: bool): Result<seq<string>>
  {
    if m.colorMap.None? && m.color.None? then Err(InvalidOperation)
    else if !AllKnown(Uses(m)) then Err(KeyNotFound)
    else Ok(MaterialLines(m.id, Inputs(m), Samplers(m, Uses(m), quickLookCompatible)))
  }

  /** The textures table after `textures[id] = texture` for each use in order. */
  function Stored(t: Table<nat, Texture>, uses: seq<Use>): Table<nat, Texture>
  {
    if uses == [] then t
    else
      var last := uses[|uses| - 1];
      Stored(t, uses[..|uses| - 1]).Put(last.texture.id, last.texture)
  }

  // ---------------------------------------------------------------------------
  // The methods
  // ---------------------------------------------------------------------------

  /** The local function `BuildTexture`: it records the texture under its Id
      before it looks up the wrap modes. */
  method BuildTexture(m: Material, u: Use, textures: OrderedDict<nat, Texture>, quickLookCompatible: bool)
    returns (r: Result<seq<string>>)
    modifies textures
    ensures textures.View() == old(textures.View()).Put(u.texture.id, u.texture)
    ensures r == if WrapsKnown(u.texture) then Ok(SamplerLines(m, u, quickLookCompatible)) else Err(KeyNotFound)
  {
    var texture := u.texture;
    textures.Set(texture.id, texture);
    var wrapS := Wrapping(texture.wrapS);
    var wrapT := Wrapping(texture.wrapT);
    if wrapS.None? || wrapT.None? {
      return Err(KeyNotFound);
    }
    r := Ok(ReaderLines(u.mapType) + TransformLines(m.id, texture, u.mapType, quickLookCompatible)
            + UVTextureLines(m, texture, u.mapType, u.color, wrapS.value, wrapT.value));
    SamplerLinesShaders(m, u, quickLookCompatible);
  }

  /** One `samplers.Add(BuildTexture(...))`, with what it records. */
  method Sample(m: Material, u: Use, textures: OrderedDict<nat, Texture>, quickLookCompatible: bool,
                samplers: seq<seq<string>>, ghost uses: seq<Use>, ghost t0: Table<nat, Texture>)
    returns (samplers': seq<seq<string>>, ok: bool)
    requires AllKnown(uses) && samplers == Samplers(m, uses, quickLookCompatible)
    requires textures.View() == Stored(t0, uses)
    modifies textures
    ensures ok <==> WrapsKnown(u.texture)
    ensures textures.View() == Stored(t0, uses + [u])
    ensures ok ==> AllKnown(uses + [u]) && samplers' == Samplers(m, uses + [u], quickLookCompatible)
  {
    var s := BuildTexture(m, u, textures, quickLookCompatible);
    StoredSnoc(t0, uses, u);
    if s.Err? {
      return samplers, false;
    }
    SamplersSnoc(m, uses, u, quickLookCompatible);
    samplers' := samplers + [s.value];
    ok := true;
  }

  lemma StoredSnoc(t: Table<nat, Texture>, uses: seq<Use>, u: Use)
    ensures Stored(t, uses + [u]) == Stored(t, uses).Put(u.texture.id, u.texture)
  {
    assert (uses + [u])[..|uses|] == uses;
  }

  lemma SamplersSnoc(m: Material, uses: seq<Use>, u: Use, quickLookCompatible: bool)
    requires AllKnown(uses) && WrapsKnown(u.texture)
    ensures AllKnown(uses + [u])
    ensures Samplers(m, uses + [u], quickLookCompatible) == Samplers(m, uses, quickLookCompatible) + [SamplerLines(m, u, quickLookCompatible)]
  {
    assert forall i :: 0 <= i < |uses| ==> (uses + [u])[i] == uses[i];
  }

  /** The material under the `i`-th key. */
  function MaterialAt(t: Table<nat, Material>, i: nat): Material
    requires t.Valid() && i < |t.keys|
  {
    ValidKeys(t);
    t.values[t.keys[i]]
  }

  /** The texture uses of the first `n` materials, material after material. */
  function MaterialUses(t: Table<nat, Material>, n: nat): seq<Use>
    requires t.Valid() && n <= |t.keys|
  {
    if n == 0 then []
    else MaterialUses(t, n - 1) + Uses(MaterialAt(t, n - 1))
  }

  /** The values of `f` on the elements in order, unless it throws for one: then the first exception. */
  function CollectMap<X, T>(f: X -> Result<T>, xs: seq<X>): Result<seq<T>>
  {
    if xs == [] then Ok([])
    else
      match CollectMap(f, xs[..|xs| - 1])
      case Err(e) => Err(e)
      case Ok(vs) =>
        match f(xs[|xs| - 1])
        case Err(e) => Err(e)
        case Ok(v) => Ok(vs + [v])
  }

  /** Collecting over the first `i + 1` elements. */
  lemma CollectMapNext<X, T>(f: X -> Result<T>, xs: seq<X>, i: nat)
    requires i < |xs|
    ensures CollectMap(f, xs[..i + 1]) == match CollectMap(f, xs[..i])
      case Err(e) => Err(e)
      case Ok(vs) => (match f(xs[i]) case Err(e) => Err(e) case Ok(v) => Ok(vs + [v]))
  {
    assert xs[..i + 1][..i] == xs[..i];
  }

  /** Once `f` has thrown, the later elements change nothing. */
  lemma {:induction false} CollectMapErr<X, T>(f: X -> Result<T>, xs: seq<X>, n: nat)
    requires n <= |xs| && CollectMap(f, xs[..n]).Err?
    ensures CollectMap(f, xs) == CollectMap(f, xs[..n])
  {
    if n < |xs| {
      var xs' := xs[..|xs| - 1];
      assert xs'[..n] == xs[..n];
      CollectMapErr(f, xs', n);
    } else {
      assert xs[..n] == xs;
    }
  }

  /** Collecting succeeds exactly when `f` does on every element, and then keeps every value in order. */
  lemma {:induction false} CollectMapOk<X, T>(f: X -> Result<T>, xs: seq<X>)
    ensures CollectMap(f, xs).Ok? <==> forall i :: 0 <= i < |xs| ==> f(xs[i]).Ok?
    ensures CollectMap(f, xs).Ok? ==>
      && |CollectMap(f, xs).value| == |xs|
      && forall i :: 0 <= i < |xs| ==> Ok(CollectMap(f, xs).value[i]) == f(xs[i])
  {
    if xs != [] {
      var xs' := xs[..|xs| - 1];
      CollectMapOk(f, xs');
      assert forall i :: 0 <= i < |xs'| ==> xs'[i] == xs[i];
    }
  }

  /** The first exception `f` throws is the outcome of collecting. */
  lemma CollectMapFirstErr<X, T>(f: X -> Result<T>, xs: seq<X>, n: nat)
    requires n < |xs| && f(xs[n]).Err? && forall i :: 0 <= i < n ==> f(xs[i]).Ok?
    ensures CollectMap(f, xs) == Err(f(xs[n]).error)
  {
    assert forall i :: 0 <= i < n ==> xs[..n][i] == xs[i];
    CollectMapOk(f, xs[..n]);
    CollectMapNext(f, xs, n);
    CollectMapErr(f, xs, n + 1);
  }

  /** `MaterialResult` on the i-th material is that material's text. */
  lemma MaterialResultsAt(t: Table<nat, Material>, quickLookCompatible: bool)
    requires t.Valid()
    ensures forall i :: 0 <= i < |t.keys| ==>
      MaterialResult(quickLookCompatible)(Materials(t)[i]) == MaterialText(MaterialAt(t, i), quickLookCompatible)
  {
  }

  /** `BuildMaterial` with the given flag, as a function of the material. */
  function MaterialResult(quickLookCompatible: bool): Material -> Result<seq<string>>
  {
    m => MaterialText(m, quickLookCompatible)
  }

  /** The materials in key order. */
  function Materials(t: Table<nat, Material>): (r: seq<Material>)
    requires t.Valid()
    ensures |r| == |t.keys|
  {
    seq(|t.keys|, i requires 0 <= i < |t.keys| => MaterialAt(t, i))
  }

  /** What `BuildMaterials` returns: the Materials scope, or the first material's exception. */
  function MaterialsText(t: Table<nat, Material>, quickLookCompatible: bool): Result<seq<string>>
    requires t.Valid()
  {
    match CollectMap(MaterialResult(quickLookCompatible), Materials(t))
    case Err(e) => Err(e)
    case Ok(texts) => Ok(MaterialsLines(texts))
  }

  lemma {:induction false} StoredValid(t: Table<nat, Texture>, uses: seq<Use>)
    requires t.Valid()
    ensures Stored(t, uses).Valid()
  {
    if uses != [] {
      var uses' := uses[..|uses| - 1];
      StoredValid(t, uses');
      PutValid(Stored(t, uses'), uses[|uses| - 1].texture.id, uses[|uses| - 1].texture);
    }
  }

  /** Recording the uses of two lists is recording the first, then the second. */
  lemma {:induction false} StoredAppend(t: Table<nat, Texture>, a: seq<Use>, b: seq<Use>)
    ensures Stored(t, a + b) == Stored(Stored(t, a), b)
  {
    if b == [] {
      assert a + b == a;
    } else {
      var b' := b[..|b| - 1];
      assert (a + b)[..|a + b| - 1] == a + b';
      StoredAppend(t, a, b');
    }
  }

  /** `p` holds of each element with its index. */
  ghost predicate Each<T>(p: (nat, T) -> bool, xs: seq<T>)
  {
    forall k :: 0 <= k < |xs| ==> p(k, xs[k])
  }

  /** Appending an element for which `p` holds at the next index. */
  lemma EachNext<T>(p: (nat, T) -> bool, xs: seq<T>, x: T)
    requires Each(p, xs) && p(|xs|, x)
    ensures Each(p, xs + [x])
  {
    forall k | 0 <= k < |xs + [x]|
      ensures p(k, (xs + [x])[k])
    {
      if k < |xs| {
        assert (xs + [x])[k] == xs[k];
      }
    }
  }

  /** `p` holds of each element, its index and its successor. */
  ghost predicate Chain<T>(p: (nat, T, T) -> bool, xs: seq<T>)
  {
    forall k :: 0 <= k < |xs| - 1 ==> p(k, xs[k], xs[k + 1])
  }

  /** Appending a successor of the last element. */
  lemma ChainNext<T>(p: (nat, T, T) -> bool, xs: seq<T>, x: T)
    requires xs != [] && Chain(p, xs) && p(|xs| - 1, xs[|xs| - 1], x)
    ensures Chain(p, xs + [x])
  {
    forall k | 0 <= k < |xs + [x]| - 1
      ensures p(k, (xs + [x])[k], (xs + [x])[k + 1])
    {
      assert (xs + [x])[k] == xs[k];
      if k < |xs| - 1 {
        assert (xs + [x])[k + 1] == xs[k + 1];
      }
    }
  }

  /** The textures table `after` is `before` with the uses of the k-th material recorded. */
  function Recording(t: Table<nat, Material>): (nat, Table<nat, Texture>, Table<nat, Texture>) -> bool
    requires t.Valid()
  {
    (k: nat, before: Table<nat, Texture>, after: Table<nat, Texture>) =>
      k < |t.keys| && after == Stored(before, Uses(MaterialAt(t, k)))
  }

  /**
   * `views` are the textures tables before the first material and after each
   * of the following ones: each table is the one before it with the uses of
   * one more material recorded.
   */
  ghost predicate Recorded(t0: Table<nat, Texture>, t: Table<nat, Material>, views: seq<Table<nat, Texture>>)
    requires t.Valid()
  {
    views != [] && views[0] == t0 && Chain(Recording(t), views)
  }

  /** The j-th table holds the uses of the first `j` materials, in order. */
  lemma {:induction false} RecordedUses(t0: Table<nat, Texture>, t: Table<nat, Material>, views: seq<Table<nat, Texture>>, j: nat)
    requires t.Valid() && |views| <= |t.keys| + 1 && Recorded(t0, t, views) && j < |views|
    ensures views[j] == Stored(t0, MaterialUses(t, j))
  {
    if j > 0 {
      RecordedUses(t0, t, views, j - 1);
      assert Recording(t)(j - 1, views[j - 1], views[j]);
      StoredAppend(t0, MaterialUses(t, j - 1), Uses(MaterialAt(t, j - 1)));
    }
  }

  /** `text` is the text of the k-th material. */
  function Written(t: Table<nat, Material>, quickLookCompatible: bool): (nat, seq<string>) -> bool
    requires t.Valid()
  {
    (k: nat, text: seq<string>) => k < |t.keys| && MaterialText(MaterialAt(t, k), quickLookCompatible) == Ok(text)
  }

  /** Every material is written: the Materials scope holds their texts in key order. */
  lemma MaterialsDone(t: Table<nat, Material>, quickLookCompatible: bool, texts: seq<seq<string>>)
    requires t.Valid() && |texts| == |t.keys| && Each(Written(t, quickLookCompatible), texts)
    ensures MaterialsText(t, quickLookCompatible) == Ok(MaterialsLines(texts))
  {
    assert forall k :: 0 <= k < |texts| ==> Written(t, quickLookCompatible)(k, texts[k]);
    assert forall k :: 0 <= k < |texts| ==> MaterialText(MaterialAt(t, k), quickLookCompatible) == Ok(texts[k]);
    var f := MaterialResult(quickLookCompatible);
    MaterialResultsAt(t, quickLookCompatible);
    CollectMapOk(f, Materials(t));
    assert CollectMap(f, Materials(t)).value == texts;
  }

  /** The n-th material is the first to throw: `BuildMaterials` throws its exception. */
  lemma MaterialsFail(t: Table<nat, Material>, quickLookCompatible: bool, n: nat, texts: seq<seq<string>>)
    requires t.Valid() && n < |t.keys| && |texts| == n && Each(Written(t, quickLookCompatible), texts)
    requires MaterialText(MaterialAt(t, n), quickLookCompatible).Err?
    ensures MaterialsText(t, quickLookCompatible) == Err(MaterialText(MaterialAt(t, n), quickLookCompatible).error)
  {
    assert forall k :: 0 <= k < n ==> Written(t, quickLookCompatible)(k, texts[k]);
    assert forall k :: 0 <= k < n ==> MaterialText(MaterialAt(t, k), quickLookCompatible) == Ok(texts[k]);
    MaterialResultsAt(t, quickLookCompatible);
    CollectMapFirstErr(MaterialResult(quickLookCompatible), Materials(t), n);
  }

  /** `BuildMaterials(materials, textures, quickLookCompatible)`. */
  method BuildMaterials(materials: OrderedDict<nat, Material>, textures: OrderedDict<nat, Texture>, quickLookCompatible: bool)
    returns (r: Result<seq<string>>)
    requires materials.Valid()
    modifies textures
    ensures r == MaterialsText(materials.View(), quickLookCompatible)
    ensures r.Ok? ==> textures.View() == Stored(old(textures.View()), MaterialUses(materials.View(), |materials.keys|))
  {
    var texts, n, done, views := BuildMaterialTexts(materials, textures, quickLookCompatible);
    if texts.Err? {
      MaterialsFail(materials.View(), quickLookCompatible, n, done);
      return Err(texts.error);
    }
    RecordedUses(old(textures.View()), materials.View(), views, |materials.keys|);
    MaterialsDone(materials.View(), quickLookCompatible, texts.value);
    r := Ok(MaterialsLines(texts.value));
  }

  /**
   * The loop of `BuildMaterials`: each material's text in key order, or the
   * exception of the n-th material, the first that throws, after the texts
   * `done` of those before it.
   */
  method BuildMaterialTexts(materials: OrderedDict<nat, Material>, textures: OrderedDict<nat, Texture>, quickLookCompatible: bool)
    returns (r: Result<seq<seq<string>>>, ghost n: nat, ghost done: seq<seq<string>>, ghost views: seq<Table<nat, Texture>>)
    requires materials.Valid()
    modifies textures
    ensures r.Ok? ==> |r.value| == |materials.keys| && Each(Written(materials.View(), quickLookCompatible), r.value)
    ensures r.Ok? ==> |views| == |materials.keys| + 1 && Recorded(old(textures.View()), materials.View(), views)
    ensures r.Ok? ==> textures.View() == views[|materials.keys|]
    ensures r.Err? ==> n < |materials.keys| && |done| == n && Each(Written(materials.View(), quickLookCompatible), done)
    ensures r.Err? ==> MaterialText(MaterialAt(materials.View(), n), quickLookCompatible) == Err(r.error)
  {
    ghost var mt := materials.View();
    ghost var t0 := textures.View();
    var keys := materials.keys;
    var texts: seq<seq<string>> := [];
    var i := 0;
    n, done, views := 0, [], [t0];
    while i < |keys|
      invariant 0 <= i <= |keys| && materials.View() == mt
      invariant |texts| == i && Each(Written(mt, quickLookCompatible), texts)
      invariant |views| == i + 1 && Recorded(t0, mt, views) && textures.View() == views[i]
    {
      var text := BuildMaterialAt(materials, i, textures, quickLookCompatible);
      if text.Err? {
        return Err(text.error), i, texts, views;
      }
      EachNext(Written(mt, quickLookCompatible), texts, text.value);
      ChainNext(Recording(mt), views, textures.View());
      texts := texts + [text.value];
      views := views + [textures.View()];
      i := i + 1;
    }
    r := Ok(texts);
  }

  /** `BuildMaterial(materials[keys[i]], textures, quickLookCompatible)`. */
  method BuildMaterialAt(materials: OrderedDict<nat, Material>, i: nat, textures: OrderedDict<nat, Texture>, quickLookCompatible: bool)
    returns (r: Result<seq<string>>)
    requires materials.Valid() && i < |materials.keys|
    modifies textures
    ensures r == MaterialText(MaterialAt(materials.View(), i), quickLookCompatible)
    ensures r.Ok? ==> textures.View() == Stored(old(textures.View()), Uses(MaterialAt(materials.View(), i)))
  {
    ValidKeys(materials.View());
    var material := materials.values[materials.keys[i]];
    r := BuildMaterial(material, textures, quickLookCompatible);
  }

  /**
   * What holds between the branches of `BuildMaterial`: the textures sampled
   * so far are known, `samplers` holds their text and `textures` has
   * recorded them on top of the dictionary the call started with.
   */
  ghost predicate Stage(m: Material, view: Table<nat, Texture>, t0: Table<nat, Texture>,
                        samplers: seq<seq<string>>, uses: seq<Use>, quickLookCompatible: bool)
  {
    AllKnown(uses) && samplers == Samplers(m, uses, quickLookCompatible) && view == Stored(t0, uses)
  }

  /** `BuildMaterial(material, textures, quickLookCompatible)`. */
  method BuildMaterial(m: Material, textures: OrderedDict<nat, Texture>, quickLookCompatible: bool)
    returns (r: Result<seq<string>>)
    modifies textures
    ensures r == MaterialText(m, quickLookCompatible)
    ensures r.Ok? ==> textures.View() == Stored(old(textures.View()), Uses(m))
  {
    if m.colorMap.None? && m.color.None? {
      return Err(InvalidOperation);
    }
    var inputs, samplers, ok := BuildBranches(m, textures, quickLookCompatible);
    if !ok {
      return Err(KeyNotFound);
    }
    r := Ok(MaterialLines(m.id, inputs, samplers));
  }

  /**
   * The seven branches of `BuildMaterial`, in order; `ok` is false when one
   * of them met a texture whose wrap modes are unknown, which ends the call.
   */
  method BuildBranches(m: Material, textures: OrderedDict<nat, Texture>, quickLookCompatible: bool)
    returns (inputs: seq<string>, samplers: seq<seq<string>>, ok: bool)
    requires m.colorMap.Some? || m.color.Some?
    modifies textures
    ensures ok <==> AllKnown(Uses(m))
    ensures ok ==> inputs == Inputs(m) && samplers == Samplers(m, Uses(m), quickLookCompatible)
    ensures ok ==> textures.View() == Stored(old(textures.View()), Uses(m))
  {
    ghost var t0 := textures.View();
    ghost var uses: seq<Use> := [];
    inputs, samplers := [], [];

    inputs, samplers, uses, ok := DiffuseBranch(m, textures, quickLookCompatible, inputs, samplers, uses, t0);
    if !ok {
      UsesKnown(m);
      return;
    }
    assert inputs == DiffuseInputs(m) && uses == Optional(m.colorMap, "diffuse", m.color);
    inputs, samplers, uses, ok := EmissiveBranch(m, textures, quickLookCompatible, inputs, samplers, uses, t0);
    if !ok {
      UsesKnown(m);
      return;
    }
    inputs, samplers, uses, ok := NormalBranch(m, textures, quickLookCompatible, inputs, samplers, uses, t0);
    if !ok {
      UsesKnown(m);
      return;
    }
    inputs, samplers, uses, ok := OcclusionBranch(m, textures, quickLookCompatible, inputs, samplers, uses, t0);
    if !ok {
      UsesKnown(m);
      return;
    }
    inputs, samplers, uses, ok := RoughnessBranch(m, textures, quickLookCompatible, inputs, samplers, uses, t0);
    if !ok {
      UsesKnown(m);
      return;
    }
    inputs, samplers, uses, ok := MetallicBranch(m, textures, quickLookCompatible, inputs, samplers, uses, t0);
    if !ok {
      UsesKnown(m);
      return;
    }
    inputs, samplers, uses, ok := OpacityBranch(m, textures, quickLookCompatible, inputs, samplers, uses, t0);
    if !ok {
      UsesKnown(m);
      return;
    }
    UsesKnown(m);
    assert inputs == Inputs(m) && uses == Uses(m);
  }

  /**
   * The diffuse branch. `Color` is only read when there is no map, so the
   * InvalidOperationException of a material with neither is for the caller.
   */
  method DiffuseBranch(m: Material, textures: OrderedDict<nat, Texture>, quickLookCompatible: bool,
                       inputs: seq<string>, samplers: seq<seq<string>>, ghost uses: seq<Use>,
                       ghost t0: Table<nat, Texture>)
    returns (inputs': seq<string>, samplers': seq<seq<string>>, ghost uses': seq<Use>, ok: bool)
    requires m.colorMap.Some? || m.color.Some?
    requires Stage(m, textures.View(), t0, samplers, uses, quickLookCompatible)
    modifies textures
    ensures inputs' == inputs + DiffuseInputs(m)
    ensures uses' == uses + Optional(m.colorMap, "diffuse", m.color)
    ensures ok <==> AllKnown(Optional(m.colorMap, "diffuse", m.color))
    ensures ok ==> Stage(m, textures.View(), t0, samplers', uses', quickLookCompatible)
  {
    if m.colorMap.Some? {
      var t := m.colorMap.value;
      inputs' := inputs + [KDiffuseConnect + TexturePath(m, t, "diffuse", "outputs:rgb")];
      if m.transparent {
        inputs' := inputs' + [KOpacityConnect + TexturePath(m, t, "diffuse", "outputs:a")];
      } else if m.alphaTest > 0.0 {
        inputs' := inputs' + [KOpacityConnect + TexturePath(m, t, "diffuse", "outputs:a")];
        inputs' := inputs' + [KOpacityThreshold + FormatDefault(m.alphaTest)];
      }
      assert inputs' == inputs + DiffuseInputs(m);
      samplers', ok := Sample(m, Use(t, "diffuse", m.color), textures, quickLookCompatible, samplers, uses, t0);
      KnownOne(Use(t, "diffuse", m.color));
      uses' := uses + [Use(t, "diffuse", m.color)];
    } else {
      inputs' := inputs + [KDiffuse + ColorText(m.color.value)];
      samplers', uses', ok := samplers, uses, true;
    }
  }

  method EmissiveBranch(m: Material, textures: OrderedDict<nat, Texture>, quickLookCompatible: bool,
                        inputs: seq<string>, samplers: seq<seq<string>>, ghost uses: seq<Use>,
                        ghost t0: Table<nat, Texture>)
    returns (inputs': seq<string>, samplers': seq<seq<string>>, ghost uses': seq<Use>, ok: bool)
    requires Stage(m, textures.View(), t0, samplers, uses, quickLookCompatible)
    modifies textures
    ensures inputs' == inputs + EmissiveInputs(m)
    ensures uses' == uses + Optional(m.emissiveMap, "emissive", None)
    ensures ok <==> AllKnown(Optional(m.emissiveMap, "emissive", None))
    ensures ok ==> Stage(m, textures.View(), t0, samplers', uses', quickLookCompatible)
  {
    samplers', uses', ok := samplers, uses, true;
    if m.emissiveMap.Some? {
      var t := m.emissiveMap.value;
      inputs' := inputs + [KEmissiveConnect + TexturePath(m, t, "emissive", "outputs:rgb")];
      samplers', ok := Sample(m, Use(t, "emissive", None), textures, quickLookCompatible, samplers, uses, t0);
      KnownOne(Use(t, "emissive", None));
      uses' := uses + [Use(t, "emissive", None)];
    } else if m.emissive.Some? && Hex(m.emissive.value) > 0 {
      inputs' := inputs + [KEmissive + ColorText(m.emissive.value)];
    } else {
      inputs' := inputs;
    }
  }

  method NormalBranch(m: Material, textures: OrderedDict<nat, Texture>, quickLookCompatible: bool,
                      inputs: seq<string>, samplers: seq<seq<string>>, ghost uses: seq<Use>,
                      ghost t0: Table<nat, Texture>)
    returns (inputs': seq<string>, samplers': seq<seq<string>>, ghost uses': seq<Use>, ok: bool)
    requires Stage(m, textures.View(), t0, samplers, uses, quickLookCompatible)
    modifies textures
    ensures inputs' == inputs + NormalInputs(m)
    ensures uses' == uses + Optional(m.normalMap, "normal", None)
    ensures ok <==> AllKnown(Optional(m.normalMap, "normal", None))
    ensures ok ==> Stage(m, textures.View(), t0, samplers', uses', quickLookCompatible)
  {
    inputs', samplers', uses', ok := inputs, samplers, uses, true;
    if m.normalMap.Some? {
      var t := m.normalMap.value;
      inputs' := inputs + [KNormalConnect + TexturePath(m, t, "normal", "outputs:rgb")];
      samplers', ok := Sample(m, Use(t, "normal", None), textures, quickLookCompatible, samplers, uses, t0);
      KnownOne(Use(t, "normal", None));
      uses' := uses + [Use(t, "normal", None)];
    }
  }

  method OcclusionBranch(m: Material, textures: OrderedDict<nat, Texture>, quickLookCompatible: bool,
                         inputs: seq<string>, samplers: seq<seq<string>>, ghost uses: seq<Use>,
                         ghost t0: Table<nat, Texture>)
    returns (inputs': seq<string>, samplers': seq<seq<string>>, ghost uses': seq<Use>, ok: bool)
    requires Stage(m, textures.View(), t0, samplers, uses, quickLookCompatible)
    modifies textures
    ensures inputs' == inputs + OcclusionInputs(m)
    ensures uses' == uses + Optional(m.aoMap, "occlusion", None)
    ensures ok <==> AllKnown(Optional(m.aoMap, "occlusion", None))
    ensures ok ==> Stage(m, textures.View(), t0, samplers', uses', quickLookCompatible)
  {
    inputs', samplers', uses', ok := inputs, samplers, uses, true;
    if m.aoMap.Some? {
      var t := m.aoMap.value;
      inputs' := inputs + [KOcclusionConnect + TexturePath(m, t, "occlusion", "outputs:r")];
      samplers', ok := Sample(m, Use(t, "occlusion", None), textures, quickLookCompatible, samplers, uses, t0);
      KnownOne(Use(t, "occlusion", None));
      uses' := uses + [Use(t, "occlusion", None)];
    }
  }

  method RoughnessBranch(m: Material, textures: OrderedDict<nat, Texture>, quickLookCompatible: bool,
                         inputs: seq<string>, samplers: seq<seq<string>>, ghost uses: seq<Use>,
                         ghost t0: Table<nat, Texture>)
    returns (inputs': seq<string>, samplers': seq<seq<string>>, ghost uses': seq<Use>, ok: bool)
    requires Stage(m, textures.View(), t0, samplers, uses, quickLookCompatible)
    modifies textures
    ensures inputs' == inputs + RoughnessInputs(m)
    ensures uses' == uses + Optional(if RoughnessConnected(m) then m.roughnessMap else None, "roughness", None)
    ensures ok <==> AllKnown(Optional(if RoughnessConnected(m) then m.roughnessMap else None, "roughness", None))
    ensures ok ==> Stage(m, textures.View(), t0, samplers', uses', quickLookCompatible)
  {
    samplers', uses', ok := samplers, uses, true;
    if m.roughnessMap.Some? && m.roughness == 1.0 {
      var t := m.roughnessMap.value;
      inputs' := inputs + [KRoughnessConnect + TexturePath(m, t, "roughness", "outputs:g")];
      samplers', ok := Sample(m, Use(t, "roughness", None), textures, quickLookCompatible, samplers, uses, t0);
      KnownOne(Use(t, "roughness", None));
      uses' := uses + [Use(t, "roughness", None)];
    } else {
      inputs' := inputs + [KRoughness + FormatDefault(m.roughness)];
    }
  }

  method MetallicBranch(m: Material, textures: OrderedDict<nat, Texture>, quickLookCompatible: bool,
                        inputs: seq<string>, samplers: seq<seq<string>>, ghost uses: seq<Use>,
                        ghost t0: Table<nat, Texture>)
    returns (inputs': seq<string>, samplers': seq<seq<string>>, ghost uses': seq<Use>, ok: bool)
    requires Stage(m, textures.View(), t0, samplers, uses, quickLookCompatible)
    modifies textures
    ensures inputs' == inputs + MetallicInputs(m)
    ensures uses' == uses + Optional(if MetalnessConnected(m) then m.metalnessMap else None, "metallic", None)
    ensures ok <==> AllKnown(Optional(if MetalnessConnected(m) then m.metalnessMap else None, "metallic", None))
    ensures ok ==> Stage(m, textures.View(), t0, samplers', uses', quickLookCompatible)
  {
    samplers', uses', ok := samplers, uses, true;
    if m.metalnessMap.Some? && m.metalness == 1.0 {
      var t := m.metalnessMap.value;
      inputs' := inputs + [KMetallicConnect + TexturePath(m, t, "metallic", "outputs:b")];
      samplers', ok := Sample(m, Use(t, "metallic", None), textures, quickLookCompatible, samplers, uses, t0);
      KnownOne(Use(t, "metallic", None));
      uses' := uses + [Use(t, "metallic", None)];
    } else {
      inputs' := inputs + [KMetallic + FormatDefault(m.metalness)];
    }
  }

  method OpacityBranch(m: Material, textures: OrderedDict<nat, Texture>, quickLookCompatible: bool,
                       inputs: seq<string>, samplers: seq<seq<string>>, ghost uses: seq<Use>,
                       ghost t0: Table<nat, Texture>)
    returns (inputs': seq<string>, samplers': seq<seq<string>>, ghost uses': seq<Use>, ok: bool)
    requires Stage(m, textures.View(), t0, samplers, uses, quickLookCompatible)
    modifies textures
    ensures inputs' == inputs + OpacityInputs(m)
    ensures uses' == uses + Optional(m.alphaMap, "opacity", None)
    ensures ok <==> AllKnown(Optional(m.alphaMap, "opacity", None))
    ensures ok ==> Stage(m, textures.View(), t0, samplers', uses', quickLookCompatible)
  {
    samplers', uses', ok := samplers, uses, true;
    if m.alphaMap.Some? {
      var t := m.alphaMap.value;
      inputs' := inputs + [KOpacityConnect + TexturePath(m, t, "opacity", "outputs:r")];
      inputs' := inputs' + [KOpacityThreshold + "0.0001"];
      samplers', ok := Sample(m, Use(t, "opacity", None), textures, quickLookCompatible, samplers, uses, t0);
      KnownOne(Use(t, "opacity", None));
      uses' := uses + [Use(t, "opacity", None)];
    } else {
      inputs' := inputs + [KOpacity + FormatDefault(m.opacity)];
    }
  }

  lemma KnownOne(u: Use)
    ensures AllKnown([u]) <==> WrapsKnown(u.texture)
  {
    assert [u][0] == u;
  }

  lemma AllKnownAppend(a: seq<Use>, b: seq<Use>)
    ensures AllKnown(a + b) <==> AllKnown(a) && AllKnown(b)
  {
    if AllKnown(a) && AllKnown(b) {
      forall i | 0 <= i < |a + b|
        ensures WrapsKnown((a + b)[i].texture)
      {
        if i < |a| {
          assert (a + b)[i] == a[i];
        } else {
          assert (a + b)[i] == b[i - |a|];
        }
      }
    }
    if AllKnown(a + b) {
      forall i | 0 <= i < |a|
        ensures WrapsKnown(a[i].texture)
      {
        assert (a + b)[i] == a[i];
      }
      forall i | 0 <= i < |b|
        ensures WrapsKnown(b[i].texture)
      {
        assert (a + b)[|a| + i] == b[i];
      }
    }
  }

  /** All of a material's textures are known exactly when each branch's are. */
  lemma UsesKnown(m: Material)
    ensures AllKnown(Uses(m)) <==>
      AllKnown(Optional(m.colorMap, "diffuse", m.color))
      && AllKnown(Optional(m.emissiveMap, "emissive", None))
      && AllKnown(Optional(m.normalMap, "normal", None))
      && AllKnown(Optional(m.aoMap, "occlusion", None))
      && AllKnown(Optional(if RoughnessConnected(m) then m.roughnessMap else None, "roughness", None))
      && AllKnown(Optional(if MetalnessConnected(m) then m.metalnessMap else None, "metallic", None))
      && AllKnown(Optional(m.alphaMap, "opacity", None))
  {
    var d := Optional(m.colorMap, "diffuse", m.color);
    var e := Optional(m.emissiveMap, "emissive", None);
    var n := Optional(m.normalMap, "normal", None);
    var o := Optional(m.aoMap, "occlusion", None);
    var g := Optional(if RoughnessConnected(m) then m.roughnessMap else None, "roughness", None);
    var t := Optional(if MetalnessConnected(m) then m.metalnessMap else None, "metallic", None);
    var a := Optional(m.alphaMap, "opacity", None);
    AllKnownAppend(d, e);
    AllKnownAppend(d + e, n);
    AllKnownAppend(d + e + n, o);
    AllKnownAppend(d + e + n + o, g);
    AllKnownAppend(d + e + n + o + g, t);
    AllKnownAppend(d + e + n + o + g + t, a);
  }
}
