/**
 * Properties of `BuildMaterials` and `BuildMaterial`: which exception a
 * material raises, that a map is sampled exactly when its input connects to
 * it, what the `textures` dictionary holds once the materials are written,
 * and that the Materials scope holds every material's text in order unless
 * one of them throws.
 */
module ExporterMaterialProperties {
  import opened Wrappers
  import opened Collections
  import opened Three
  import opened ExporterText
  import opened ExporterMaterial
  import opened ExporterTextProperties

  // ---------------------------------------------------------------------------
  // One material
  // ---------------------------------------------------------------------------

  /** Every map `BuildMaterial` reads a texture from has known wrap modes. */
  predicate MapsWrapKnown(m: Material)
  {
    (m.colorMap.Some? ==> WrapsKnown(m.colorMap.value))
    && (m.emissiveMap.Some? ==> WrapsKnown(m.emissiveMap.value))
    && (m.normalMap.Some? ==> WrapsKnown(m.normalMap.value))
    && (m.aoMap.Some? ==> WrapsKnown(m.aoMap.value))
    && (RoughnessConnected(m) ==> WrapsKnown(m.roughnessMap.value))
    && (MetalnessConnected(m) ==> WrapsKnown(m.metalnessMap.value))
    && (m.alphaMap.Some? ==> WrapsKnown(m.alphaMap.value))
  }

  /**
   * A material without a colour map and without a colour throws
   * InvalidOperation; otherwise it throws KeyNotFound exactly when one of
   * the maps it samples has a wrap mode outside `WRAPPINGS`; otherwise it
   * is written.
   */
  lemma MaterialTextErrors(m: Material, quickLookCompatible: bool)
    ensures MaterialText(m, quickLookCompatible) == Err(InvalidOperation) <==> m.colorMap.None? && m.color.None?
    ensures MaterialText(m, quickLookCompatible) == Err(KeyNotFound)
        <==> (m.colorMap.Some? || m.color.Some?) && !MapsWrapKnown(m)
    ensures MaterialText(m, quickLookCompatible).Ok? <==> (m.colorMap.Some? || m.color.Some?) && MapsWrapKnown(m)
  {
    UsesWrapKnown(m);
  }

  /** The textures a material samples all have known wrap modes exactly when its maps do. */
  lemma UsesWrapKnown(m: Material)
    ensures AllKnown(Uses(m)) <==> MapsWrapKnown(m)
  {
    UsesKnown(m);
    OptionalKnown(m.colorMap, "diffuse", m.color);
    OptionalKnown(m.emissiveMap, "emissive", None);
    OptionalKnown(m.normalMap, "normal", None);
    OptionalKnown(m.aoMap, "occlusion", None);
    OptionalKnown(if RoughnessConnected(m) then m.roughnessMap else None, "roughness", None);
    OptionalKnown(if MetalnessConnected(m) then m.metalnessMap else None, "metallic", None);
    OptionalKnown(m.alphaMap, "opacity", None);
  }

  lemma OptionalKnown(t: Option<Texture>, mapType: string, color: Option<Color>)
    ensures AllKnown(Optional(t, mapType, color)) <==> (t.Some? ==> WrapsKnown(t.value))
  {
    if t.Some? {
      KnownOne(Use(t.value, mapType, color));
    }
  }

  /** The map types of a list of texture uses. */
  function MapTypes(uses: seq<Use>): (r: seq<string>)
    ensures |r| == |uses| && forall i :: 0 <= i < |uses| ==> r[i] == uses[i].mapType
  {
    seq(|uses|, i requires 0 <= i < |uses| => uses[i].mapType)
  }

  /** The map types `BuildMaterial` samples, by the condition of each branch. */
  lemma SampledTypes(m: Material, x: string)
    ensures x in MapTypes(Uses(m)) <==>
      (m.colorMap.Some? && x == "diffuse")
      || (m.emissiveMap.Some? && x == "emissive")
      || (m.normalMap.Some? && x == "normal")
      || (m.aoMap.Some? && x == "occlusion")
      || (RoughnessConnected(m) && x == "roughness")
      || (MetalnessConnected(m) && x == "metallic")
      || (m.alphaMap.Some? && x == "opacity")
  {
    var d := Optional(m.colorMap, "diffuse", m.color);
    var e := Optional(m.emissiveMap, "emissive", None);
    var n := Optional(m.normalMap, "normal", None);
    var o := Optional(m.aoMap, "occlusion", None);
    var g := Optional(if RoughnessConnected(m) then m.roughnessMap else None, "roughness", None);
    var t := Optional(if MetalnessConnected(m) then m.metalnessMap else None, "metallic", None);
    var a := Optional(m.alphaMap, "opacity", None);
    MapTypesAppend(d, e);
    MapTypesAppend(d + e, n);
    MapTypesAppend(d + e + n, o);
    MapTypesAppend(d + e + n + o, g);
    MapTypesAppend(d + e + n + o + g, t);
    MapTypesAppend(d + e + n + o + g + t, a);
    InOptional(x, m.colorMap, "diffuse", m.color);
    InOptional(x, m.emissiveMap, "emissive", None);
    InOptional(x, m.normalMap, "normal", None);
    InOptional(x, m.aoMap, "occlusion", None);
    InOptional(x, if RoughnessConnected(m) then m.roughnessMap else None, "roughness", None);
    InOptional(x, if MetalnessConnected(m) then m.metalnessMap else None, "metallic", None);
    InOptional(x, m.alphaMap, "opacity", None);
  }

  /**
   * The roughness and metalness maps are sampled exactly when the scalar is
   * 1 and the map exists; the colour map is sampled exactly when there is
   * one, first, scaled by the material's colour.
   */
  lemma SampledMaps(m: Material)
    ensures "roughness" in MapTypes(Uses(m)) <==> RoughnessConnected(m)
    ensures "metallic" in MapTypes(Uses(m)) <==> MetalnessConnected(m)
    ensures "diffuse" in MapTypes(Uses(m)) <==> m.colorMap.Some?
    ensures m.colorMap.Some? ==> Uses(m)[0] == Use(m.colorMap.value, "diffuse", m.color)
  {
    MapTypesDistinct();
    SampledTypes(m, "roughness");
    SampledTypes(m, "metallic");
    SampledTypes(m, "diffuse");
  }

  /** The seven map types are different strings, so each names one branch. */
  lemma MapTypesDistinct()
    ensures "diffuse" != "emissive" && "diffuse" != "normal" && "diffuse" != "occlusion"
    ensures "diffuse" != "roughness" && "diffuse" != "metallic" && "diffuse" != "opacity"
    ensures "emissive" != "normal" && "emissive" != "occlusion" && "emissive" != "roughness"
    ensures "emissive" != "metallic" && "emissive" != "opacity"
    ensures "normal" != "occlusion" && "normal" != "roughness" && "normal" != "metallic" && "normal" != "opacity"
    ensures "occlusion" != "roughness" && "occlusion" != "metallic" && "occlusion" != "opacity"
    ensures "roughness" != "metallic" && "roughness" != "opacity"
    ensures "metallic" != "opacity"
  {
    assert "diffuse"[0] == 'd' && "opacity"[0] == 'o' && "normal"[0] == 'n';
    assert "roughness"[0] == 'r' && "occlusion"[0] == 'o' && "occlusion"[1] == 'c' && "opacity"[1] == 'p';
    assert "metallic"[0] == 'm' && "emissive"[0] == 'e';
  }

  /** The head of the input line through which a map type's branch reads its texture. */
  function ConnectHead(mapType: string): string
  {
    if mapType == "diffuse" then KDiffuseConnect
    else if mapType == "emissive" then KEmissiveConnect
    else if mapType == "normal" then KNormalConnect
    else if mapType == "occlusion" then KOcclusionConnect
    else if mapType == "roughness" then KRoughnessConnect
    else if mapType == "metallic" then KMetallicConnect
    else KOpacityConnect
  }

  /** The output of the texture shader that the branch reads. */
  function ConnectOutput(mapType: string): string
  {
    if mapType == "diffuse" || mapType == "emissive" || mapType == "normal" then "outputs:rgb"
    else if mapType == "roughness" then "outputs:g"
    else if mapType == "metallic" then "outputs:b"
    else "outputs:r"
  }

  /** The input that connects to the texture shader of a use. */
  function ConnectLine(m: Material, u: Use): string
  {
    ConnectHead(u.mapType) + TexturePath(m, u.texture, u.mapType, ConnectOutput(u.mapType))
  }

  /**
   * Every texture a material samples is read by one of its inputs: the
   * input connects to `Texture_{id}_{mapType}` inside `Material_{m.id}`,
   * the shader that the use's sampler defines.
   */
  lemma InputsConnect(m: Material)
    requires m.colorMap.Some? || m.color.Some?
    ensures forall i :: 0 <= i < |Uses(m)| ==> ConnectLine(m, Uses(m)[i]) in Inputs(m)
  {
    MapTypesDistinct();
    forall i | 0 <= i < |Uses(m)| ensures ConnectLine(m, Uses(m)[i]) in Inputs(m) {
      var u := Uses(m)[i];
      assert u in Uses(m);
      UseConnects(m, u);
    }
  }

  lemma UseConnects(m: Material, u: Use)
    requires m.colorMap.Some? || m.color.Some?
    requires u in Uses(m)
    ensures ConnectLine(m, u) in Inputs(m)
  {
    MapTypesDistinct();
    var d := Optional(m.colorMap, "diffuse", m.color);
    var e := Optional(m.emissiveMap, "emissive", None);
    var n := Optional(m.normalMap, "normal", None);
    var o := Optional(m.aoMap, "occlusion", None);
    var g := Optional(if RoughnessConnected(m) then m.roughnessMap else None, "roughness", None);
    var t := Optional(if MetalnessConnected(m) then m.metalnessMap else None, "metallic", None);
    var a := Optional(m.alphaMap, "opacity", None);
    if u in d {
      assert ConnectLine(m, u) == DiffuseInputs(m)[0];
    } else if u in e {
      assert ConnectLine(m, u) == EmissiveInputs(m)[0];
    } else if u in n {
      assert ConnectLine(m, u) == NormalInputs(m)[0];
    } else if u in o {
      assert ConnectLine(m, u) == OcclusionInputs(m)[0];
    } else if u in g {
      assert ConnectLine(m, u) == RoughnessInputs(m)[0];
    } else if u in t {
      assert ConnectLine(m, u) == MetallicInputs(m)[0];
    } else {
      assert u in a;
      assert ConnectLine(m, u) == OpacityInputs(m)[0];
    }
  }

  /**
   * The text of a material that is written (`MaterialText` is `Ok` of
   * exactly these lines when the material has a colour or a colour map and
   * every sampled texture has known wrap modes): the prim `Material_{id}`
   * on its second line, and the sampler of each use, 33 lines long with an
   * empty line between, in use order after the input lines.
   */
  lemma MaterialTextReads(m: Material, quickLookCompatible: bool)
    requires m.colorMap.Some? || m.color.Some?
    requires AllKnown(Uses(m))
    ensures MaterialLines(m.id, Inputs(m), Samplers(m, Uses(m), quickLookCompatible))[1]
         == "\t\tdef Material " + Quoted(MaterialName(m.id))
    ensures forall i :: 0 <= i < |Uses(m)| ==>
      MaterialLines(m.id, Inputs(m), Samplers(m, Uses(m), quickLookCompatible))
        [13 + |InputLines(Inputs(m))| + 34 * i..13 + |InputLines(Inputs(m))| + 34 * i + 33]
      == SamplerLines(m, Uses(m)[i], quickLookCompatible)
  {
    SamplersAt(m, Inputs(m), Uses(m), quickLookCompatible);
  }

  /** `MaterialTextReads` for any inputs and any texture uses. */
  lemma SamplersAt(m: Material, inputs: seq<string>, uses: seq<Use>, quickLookCompatible: bool)
    requires AllKnown(uses)
    ensures MaterialLines(m.id, inputs, Samplers(m, uses, quickLookCompatible))[1]
         == "\t\tdef Material " + Quoted(MaterialName(m.id))
    ensures forall i :: 0 <= i < |uses| ==>
      MaterialLines(m.id, inputs, Samplers(m, uses, quickLookCompatible))
        [13 + |InputLines(inputs)| + 34 * i..13 + |InputLines(inputs)| + 34 * i + 33]
      == SamplerLines(m, uses[i], quickLookCompatible)
  {
    var samplers := Samplers(m, uses, quickLookCompatible);
    MaterialReads(m.id, inputs, samplers);
    MaterialSamplersAt(m.id, inputs, samplers);
  }

  lemma InOptional(x: string, t: Option<Texture>, mapType: string, color: Option<Color>)
    ensures x in MapTypes(Optional(t, mapType, color)) <==> t.Some? && x == mapType
  {
    if t.Some? {
      assert MapTypes(Optional(t, mapType, color)) == [mapType];
    }
  }

  lemma MapTypesAppend(a: seq<Use>, b: seq<Use>)
    ensures MapTypes(a + b) == MapTypes(a) + MapTypes(b)
  {
  }

  // ---------------------------------------------------------------------------
  // All materials
  // ---------------------------------------------------------------------------

  /** `BuildMaterials` writes the Materials scope exactly when every material is written. */
  lemma MaterialsTextOk(t: Table<nat, Material>, quickLookCompatible: bool)
    requires t.Valid()
    ensures MaterialsText(t, quickLookCompatible).Ok?
        <==> forall i :: 0 <= i < |t.keys| ==> MaterialText(MaterialAt(t, i), quickLookCompatible).Ok?
  {
    MaterialResultsAt(t, quickLookCompatible);
    CollectMapOk(MaterialResult(quickLookCompatible), Materials(t));
  }

  /** The Materials scope then holds each material's text in key order. */
  lemma MaterialsTextScope(t: Table<nat, Material>, quickLookCompatible: bool)
    requires t.Valid()
    ensures MaterialsText(t, quickLookCompatible).Ok? ==> exists texts: seq<seq<string>> ::
      && |texts| == |t.keys|
      && (forall i :: 0 <= i < |t.keys| ==> Ok(texts[i]) == MaterialText(MaterialAt(t, i), quickLookCompatible))
      && MaterialsText(t, quickLookCompatible) == Ok(MaterialsLines(texts))
  {
    MaterialResultsAt(t, quickLookCompatible);
    CollectMapOk(MaterialResult(quickLookCompatible), Materials(t));
    if MaterialsText(t, quickLookCompatible).Ok? {
      var texts := CollectMap(MaterialResult(quickLookCompatible), Materials(t)).value;
      assert MaterialsText(t, quickLookCompatible) == Ok(MaterialsLines(texts));
    }
  }

  /** Otherwise `BuildMaterials` throws the exception of the first material that throws. */
  lemma MaterialsTextErr(t: Table<nat, Material>, quickLookCompatible: bool, n: nat)
    requires t.Valid() && n < |t.keys|
    requires MaterialText(MaterialAt(t, n), quickLookCompatible).Err?
    requires forall i :: 0 <= i < n ==> MaterialText(MaterialAt(t, i), quickLookCompatible).Ok?
    ensures MaterialsText(t, quickLookCompatible) == Err(MaterialText(MaterialAt(t, n), quickLookCompatible).error)
  {
    MaterialResultsAt(t, quickLookCompatible);
    CollectMapFirstErr(MaterialResult(quickLookCompatible), Materials(t), n);
  }

  /**
   * After `textures[id] = texture` for each use in order, a key is present
   * exactly when it was before or some use has that Id.
   */
  lemma {:induction false} StoredPresent(t: Table<nat, Texture>, uses: seq<Use>, k: nat)
    ensures k in Stored(t, uses).values <==> k in t.values || exists j :: 0 <= j < |uses| && uses[j].texture.id == k
  {
    if uses != [] {
      var uses' := uses[..|uses| - 1];
      var u := uses[|uses| - 1];
      StoredPresent(t, uses', k);
      if k != u.texture.id {
        PutOthers(Stored(t, uses'), u.texture.id, u.texture, k);
        if exists j :: 0 <= j < |uses| && uses[j].texture.id == k {
          var j :| 0 <= j < |uses| && uses[j].texture.id == k;
          assert uses'[j] == uses[j];
        }
      }
    }
  }

  /** A use that no later use overrides holds its key: the dictionary keeps the last texture of each Id. */
  lemma {:induction false} StoredLast(t: Table<nat, Texture>, uses: seq<Use>, j: nat)
    requires j < |uses| && forall l :: j < l < |uses| ==> uses[l].texture.id != uses[j].texture.id
    ensures uses[j].texture.id in Stored(t, uses).values
    ensures Stored(t, uses).values[uses[j].texture.id] == uses[j].texture
  {
    if j < |uses| - 1 {
      var uses' := uses[..|uses| - 1];
      var u := uses[|uses| - 1];
      assert uses'[j] == uses[j];
      StoredLast(t, uses', j);
      PutOthers(Stored(t, uses'), u.texture.id, u.texture, uses[j].texture.id);
    }
  }

  /** A key that no use touches keeps its value. */
  lemma {:induction false} StoredUntouched(t: Table<nat, Texture>, uses: seq<Use>, k: nat)
    requires k in t.values && forall j :: 0 <= j < |uses| ==> uses[j].texture.id != k
    ensures k in Stored(t, uses).values && Stored(t, uses).values[k] == t.values[k]
  {
    if uses != [] {
      var uses' := uses[..|uses| - 1];
      var u := uses[|uses| - 1];
      StoredUntouched(t, uses', k);
      PutOthers(Stored(t, uses'), u.texture.id, u.texture, k);
    }
  }

  /** The keys present before keep their positions, and new ones come after them. */
  lemma {:induction false} StoredPrefix(t: Table<nat, Texture>, uses: seq<Use>)
    ensures |Stored(t, uses).keys| >= |t.keys| && Stored(t, uses).keys[..|t.keys|] == t.keys
  {
    if uses != [] {
      var uses' := uses[..|uses| - 1];
      var s := Stored(t, uses');
      StoredPrefix(t, uses');
      assert Stored(t, uses).keys[..|s.keys|] == s.keys;
      assert Stored(t, uses).keys[..|t.keys|] == s.keys[..|t.keys|];
    }
  }
}
