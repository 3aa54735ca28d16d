/**
 * What a material block says, read back from its lines: its name, the
 * literal diffuse colour, the texture connection and shaders exactly when
 * a base-colour texture exists, and each scalar input exactly when its
 * value is present.
 *
 * Each fixed part of the block is shown to say nothing to a keyword that
 * differs from all of its lines in some column; the block is then read one
 * keyword at a time by putting the parts back together.
 */
module MaterialProperties {
  import opened Wrappers
  import opened Text
  import opened Lines
  import opened Gltf
  import opened UsdzUtils
  import opened GlbToUsdzBuilder

  /** `key` is none of the keywords the opening lines of a block begin with. */
  predicate OpenMiss(key: string)
  {
    OffAt(key, 0, {'d'})
    && (OffAt(key, 8, {'S', 'n', 'u'}) || OffAt(key, 17, {':', 'B', 'f', 'o'}))
    && (OffAt(key, 8, {'c'}) || OffAt(key, 35, {' '}))
  }

  /** `key` is not the diffuse connection's keyword. */
  predicate ConnectMiss(key: string)
  {
    OffAt(key, 8, {'c'}) || OffAt(key, 35, {'.'})
  }

  /** `key` is none of the scalar inputs' keywords. */
  predicate ScalarsMiss(key: string)
  {
    OffAt(key, 8, {'f'})
  }

  /** `key` begins none of the closing lines. */
  predicate CloseMiss(key: string)
  {
    OffAt(key, 8, {'t'}) && OffAt(key, 0, {'}'})
  }

  /** `key` begins no line of the primvar reader. */
  predicate StReaderMiss(key: string)
  {
    (OffAt(key, 8, {'S', 'u'}) || OffAt(key, 16, {'s', 't'}))
    && OffAt(key, 8, {'t'})
    && (OffAt(key, 13, {'2'}) || OffAt(key, 4, {' ', '}'}))
  }

  /** `key` begins no line of the sampler. */
  predicate SamplerMiss(key: string)
  {
    (OffAt(key, 8, {'S', 'u'}) || OffAt(key, 16, {'d', 't'}))
    && OffAt(key, 8, {'a', 't'})
    && (OffAt(key, 23, {'a', 'r'}) || OffAt(key, 4, {' ', '}'}))
  }

  // ---------------------------------------------------------------------------
  // Fixed runs of lines
  // ---------------------------------------------------------------------------

  lemma SurfaceOff(matName: string, key: string)
    requires OffAt(key, 8, {'S', 'n', 'u'}) || OffAt(key, 17, {':', 'B', 'f', 'o'})
    ensures Values(SurfaceLines(matName), key) == []
  {
    var s := SurfaceLines(matName);
    if OffAt(key, 8, {'S', 'n', 'u'}) {
      forall k | 0 <= k < |s| ensures |s[k]| <= 8 || s[k][8] in {'S', 'n', 'u'} {
        if k == 0 {} else if k == 1 {} else if k == 2 {} else if k == 3 {} else if k == 4 {} else if k == 5 {} else {}
      }
      ValuesOff(s, key, 8, {'S', 'n', 'u'});
    } else {
      forall k | 0 <= k < |s| ensures |s[k]| <= 17 || s[k][17] in {':', 'B', 'f', 'o'} {
        if k == 0 {} else if k == 1 {} else if k == 2 {} else if k == 3 {} else if k == 4 {} else if k == 5 {} else {}
      }
      ValuesOff(s, key, 17, {':', 'B', 'f', 'o'});
    }
  }

  /** Nothing is read from the shader's closing lines or the block's closing brace. */
  lemma ShaderCloseOff(key: string)
    requires CloseMiss(key)
    ensures Values(ShaderCloseLines(), key) == []
    ensures Values(["}"], key) == []
  {
    ValuesOff(["}"], key, 0, {'}'});
    assert ColumnIn(ShaderCloseLines(), 8, {'t'});
    ValuesOff(ShaderCloseLines(), key, 8, {'t'});
  }

  lemma StReaderHeadOff(key: string)
    requires OffAt(key, 8, {'S', 'u'}) || OffAt(key, 16, {'s', 't'})
    ensures Values(StReaderHead(), key) == []
  {
    var s := StReaderHead();
    if OffAt(key, 8, {'S', 'u'}) {
      forall k | 0 <= k < |s| ensures |s[k]| <= 8 || s[k][8] in {'S', 'u'} {
        if k == 0 {} else if k == 1 {} else if k == 2 {} else {}
      }
      ValuesOff(s, key, 8, {'S', 'u'});
    } else {
      forall k | 0 <= k < |s| ensures |s[k]| <= 16 || s[k][16] in {'s', 't'} {
        if k == 0 {} else if k == 1 {} else if k == 2 {} else {}
      }
      ValuesOff(s, key, 16, {'s', 't'});
    }
  }

  lemma StReaderTailOff(key: string)
    requires OffAt(key, 13, {'2'}) || OffAt(key, 4, {' ', '}'})
    ensures Values(StReaderTail(), key) == []
  {
    if OffAt(key, 13, {'2'}) {
      assert ColumnIn(StReaderTail(), 13, {'2'});
      ValuesOff(StReaderTail(), key, 13, {'2'});
    } else {
      assert ColumnIn(StReaderTail(), 4, {' ', '}'});
      ValuesOff(StReaderTail(), key, 4, {' ', '}'});
    }
  }

  lemma SamplerHeadOff(key: string)
    requires OffAt(key, 8, {'S', 'u'}) || OffAt(key, 16, {'d', 't'})
    ensures Values(SamplerHead(), key) == []
  {
    var s := SamplerHead();
    if OffAt(key, 8, {'S', 'u'}) {
      forall k | 0 <= k < |s| ensures |s[k]| <= 8 || s[k][8] in {'S', 'u'} {
        if k == 0 {} else if k == 1 {} else if k == 2 {} else {}
      }
      ValuesOff(s, key, 8, {'S', 'u'});
    } else {
      forall k | 0 <= k < |s| ensures |s[k]| <= 16 || s[k][16] in {'d', 't'} {
        if k == 0 {} else if k == 1 {} else if k == 2 {} else {}
      }
      ValuesOff(s, key, 16, {'d', 't'});
    }
  }

  lemma SamplerInputOff(matName: string, textureName: string, key: string)
    requires OffAt(key, 8, {'a', 't'})
    ensures Values(SamplerInputLines(matName, textureName), key) == []
  {
    var s := SamplerInputLines(matName, textureName);
    forall k | 0 <= k < |s| ensures |s[k]| <= 8 || s[k][8] in {'a', 't'} {
      if k == 0 {} else if k == 1 {} else {}
    }
    ValuesOff(s, key, 8, {'a', 't'});
  }

  lemma SamplerTailOff(key: string)
    requires OffAt(key, 23, {'a', 'r'}) || OffAt(key, 4, {' ', '}'})
    ensures Values(SamplerTail(), key) == []
  {
    var s := SamplerTail();
    if OffAt(key, 23, {'a', 'r'}) {
      forall k | 0 <= k < |s| ensures |s[k]| <= 23 || s[k][23] in {'a', 'r'} {
        if k == 0 {} else if k == 1 {} else if k == 2 {} else if k == 3 {} else {}
      }
      ValuesOff(s, key, 23, {'a', 'r'});
    } else {
      forall k | 0 <= k < |s| ensures |s[k]| <= 4 || s[k][4] in {' ', '}'} {
        if k == 0 {} else if k == 1 {} else if k == 2 {} else if k == 3 {} else {}
      }
      ValuesOff(s, key, 4, {' ', '}'});
    }
  }

  lemma StReaderHeadRead()
    ensures Values(StReaderHead(), KStReader) == [""]
  {
    assert KStReader[|KStReader|..] == "";
    ValuesOnly(StReaderHead(), KStReader, 17, 17, 1);
  }

  lemma SamplerHeadRead()
    ensures Values(SamplerHead(), KDiffuseTexture) == [""]
  {
    assert KDiffuseTexture[|KDiffuseTexture|..] == "";
    ValuesOnly(SamplerHead(), KDiffuseTexture, 17, 17, 1);
  }

  lemma SamplerInputRead(matName: string, textureName: string)
    ensures Values(SamplerInputLines(matName, textureName), KTextureFile) == [textureName + "@"]
  {
    KeyedLine(KTextureFile, textureName + "@");
    ValuesOnly(SamplerInputLines(matName, textureName), KTextureFile, 8, 8, 0);
  }

  // ---------------------------------------------------------------------------
  // The parts of a block
  // ---------------------------------------------------------------------------

  /** Reading a block is reading its parts in order. */
  lemma BlockParts(matName: string, diffuse: string, textureName: Option<string>,
                   clearcoat: Option<string>, clearcoatRoughness: Option<string>,
                   metallic: Option<string>, roughness: Option<string>, key: string)
    ensures Values(MaterialBlockText(matName, diffuse, textureName, clearcoat, clearcoatRoughness, metallic, roughness), key)
         == Values(MaterialOpenLines(matName, diffuse), key)
            + Values(ConnectLines(matName, textureName.Some?), key)
            + Values(ScalarsLines(clearcoat, clearcoatRoughness, metallic, roughness), key)
            + Values(ShaderCloseLines(), key)
            + Values(TextureLines(matName, textureName), key)
            + Values(["}"], key)
  {
    var c1, c2, c3 := MaterialOpenLines(matName, diffuse), ConnectLines(matName, textureName.Some?),
                      ScalarsLines(clearcoat, clearcoatRoughness, metallic, roughness);
    var c4, c5 := ShaderCloseLines(), TextureLines(matName, textureName);
    ValuesAppend(c1 + c2 + c3 + c4 + c5, ["}"], key);
    ValuesAppend(c1 + c2 + c3 + c4, c5, key);
    ValuesAppend(c1 + c2 + c3, c4, key);
    ValuesAppend(c1 + c2, c3, key);
    ValuesAppend(c1, c2, key);
  }

  lemma OpenParts(matName: string, diffuse: string, key: string)
    ensures Values(MaterialOpenLines(matName, diffuse), key)
         == Values([KMaterialHead + Quoted(matName)], key) + Values(SurfaceLines(matName), key)
            + Values([KDiffuse + diffuse], key)
  {
    ValuesAppend([KMaterialHead + Quoted(matName)] + SurfaceLines(matName), [KDiffuse + diffuse], key);
    ValuesAppend([KMaterialHead + Quoted(matName)], SurfaceLines(matName), key);
  }

  /** The opening says nothing to a keyword other than its own two. */
  lemma OpenOff(matName: string, diffuse: string, key: string)
    requires OpenMiss(key)
    ensures Values(MaterialOpenLines(matName, diffuse), key) == []
  {
    OpenParts(matName, diffuse, key);
    LineOff(KMaterialHead, Quoted(matName), key, 0);
    SurfaceOff(matName, key);
    if OffAt(key, 8, {'c'}) {
      LineOff(KDiffuse, diffuse, key, 8);
    } else {
      assert KDiffuse[35] == ' ';
      LineOff(KDiffuse, diffuse, key, 35);
    }
  }

  lemma OpenReadsName(matName: string, diffuse: string)
    ensures Values(MaterialOpenLines(matName, diffuse), KMaterialHead) == [Quoted(matName)]
  {
    OpenParts(matName, diffuse, KMaterialHead);
    LineRead(KMaterialHead, Quoted(matName));
    SurfaceOff(matName, KMaterialHead);
    LineOff(KDiffuse, diffuse, KMaterialHead, 0);
  }

  lemma OpenReadsDiffuse(matName: string, diffuse: string)
    ensures Values(MaterialOpenLines(matName, diffuse), KDiffuse) == [diffuse]
  {
    OpenParts(matName, diffuse, KDiffuse);
    LineOff(KMaterialHead, Quoted(matName), KDiffuse, 0);
    SurfaceOff(matName, KDiffuse);
    LineRead(KDiffuse, diffuse);
  }

  lemma ConnectOff(matName: string, textured: bool, key: string)
    requires ConnectMiss(key)
    ensures Values(ConnectLines(matName, textured), key) == []
  {
    if textured {
      if OffAt(key, 8, {'c'}) {
        LineOff(KDiffuseConnect, matName + "/diffuseTexture.outputs:rgb>", key, 8);
      } else {
        assert KDiffuseConnect[35] == '.';
        LineOff(KDiffuseConnect, matName + "/diffuseTexture.outputs:rgb>", key, 35);
      }
    }
  }

  lemma ConnectReads(matName: string, textured: bool)
    ensures Values(ConnectLines(matName, textured), KDiffuseConnect)
         == if textured then [matName + "/diffuseTexture.outputs:rgb>"] else []
  {
    if textured {
      LineRead(KDiffuseConnect, matName + "/diffuseTexture.outputs:rgb>");
    }
  }

  lemma ScalarsParts(clearcoat: Option<string>, clearcoatRoughness: Option<string>,
                     metallic: Option<string>, roughness: Option<string>, key: string)
    ensures Values(ScalarsLines(clearcoat, clearcoatRoughness, metallic, roughness), key)
         == Values(OptionalLine(KClearcoat, clearcoat), key)
            + Values(OptionalLine(KClearcoatRoughness, clearcoatRoughness), key)
            + Values(OptionalLine(KMetallic, metallic), key)
            + Values(OptionalLine(KRoughness, roughness), key)
  {
    var c1, c2 := OptionalLine(KClearcoat, clearcoat), OptionalLine(KClearcoatRoughness, clearcoatRoughness);
    var c3, c4 := OptionalLine(KMetallic, metallic), OptionalLine(KRoughness, roughness);
    ValuesAppend(c1 + c2 + c3, c4, key);
    ValuesAppend(c1 + c2, c3, key);
    ValuesAppend(c1, c2, key);
  }

  lemma ScalarsOff(clearcoat: Option<string>, clearcoatRoughness: Option<string>,
                   metallic: Option<string>, roughness: Option<string>, key: string)
    requires ScalarsMiss(key)
    ensures Values(ScalarsLines(clearcoat, clearcoatRoughness, metallic, roughness), key) == []
  {
    ScalarsParts(clearcoat, clearcoatRoughness, metallic, roughness, key);
    OptionalOff(KClearcoat, clearcoat, key, 8);
    OptionalOff(KClearcoatRoughness, clearcoatRoughness, key, 8);
    OptionalOff(KMetallic, metallic, key, 8);
    OptionalOff(KRoughness, roughness, key, 8);
  }

  lemma StReaderParts(matName: string, key: string)
    ensures Values(StReaderLines(matName), key)
         == Values(StReaderHead(), key) + Values(VarnameLines(matName), key) + Values(StReaderTail(), key)
  {
    ValuesAppend(StReaderHead() + VarnameLines(matName), StReaderTail(), key);
    ValuesAppend(StReaderHead(), VarnameLines(matName), key);
  }

  lemma SamplerParts(matName: string, textureName: string, key: string)
    ensures Values(SamplerLines(matName, textureName), key)
         == Values(SamplerHead(), key) + Values(SamplerInputLines(matName, textureName), key)
            + Values(SamplerTail(), key)
  {
    ValuesAppend(SamplerHead() + SamplerInputLines(matName, textureName), SamplerTail(), key);
    ValuesAppend(SamplerHead(), SamplerInputLines(matName, textureName), key);
  }

  lemma TextureParts(matName: string, textureName: string, key: string)
    ensures Values(TextureLines(matName, Some(textureName)), key)
         == Values(StReaderLines(matName), key) + Values(SamplerLines(matName, textureName), key)
  {
    ValuesAppend(StReaderLines(matName), SamplerLines(matName, textureName), key);
  }

  lemma StReaderOff(matName: string, key: string)
    requires StReaderMiss(key)
    ensures Values(StReaderLines(matName), key) == []
  {
    StReaderParts(matName, key);
    StReaderHeadOff(key);
    LineOff(KVarnameConnect, matName + ".inputs:frame:stPrimvarName>", key, 8);
    StReaderTailOff(key);
  }

  lemma SamplerOff(matName: string, textureName: string, key: string)
    requires SamplerMiss(key)
    ensures Values(SamplerLines(matName, textureName), key) == []
  {
    SamplerParts(matName, textureName, key);
    SamplerHeadOff(key);
    SamplerInputOff(matName, textureName, key);
    SamplerTailOff(key);
  }

  lemma StReaderReads(matName: string)
    ensures Values(StReaderLines(matName), KStReader) == [""]
  {
    StReaderParts(matName, KStReader);
    StReaderHeadRead();
    LineOff(KVarnameConnect, matName + ".inputs:frame:stPrimvarName>", KStReader, 8);
    StReaderTailOff(KStReader);
  }

  lemma SamplerReadsItself(matName: string, textureName: string)
    ensures Values(SamplerLines(matName, textureName), KDiffuseTexture) == [""]
  {
    SamplerParts(matName, textureName, KDiffuseTexture);
    SamplerHeadRead();
    SamplerInputOff(matName, textureName, KDiffuseTexture);
    SamplerTailOff(KDiffuseTexture);
  }

  lemma SamplerReadsFile(matName: string, textureName: string)
    ensures Values(SamplerLines(matName, textureName), KTextureFile) == [textureName + "@"]
  {
    SamplerParts(matName, textureName, KTextureFile);
    SamplerHeadOff(KTextureFile);
    SamplerInputRead(matName, textureName);
    SamplerTailOff(KTextureFile);
  }

  /** The texture shaders say nothing to a keyword other than their own three. */
  lemma TextureOff(matName: string, textureName: Option<string>, key: string)
    requires StReaderMiss(key) && SamplerMiss(key)
    ensures Values(TextureLines(matName, textureName), key) == []
  {
    if textureName.Some? {
      TextureParts(matName, textureName.value, key);
      StReaderOff(matName, key);
      SamplerOff(matName, textureName.value, key);
    }
  }

  lemma TextureReadsStReader(matName: string, textureName: Option<string>)
    ensures Values(TextureLines(matName, textureName), KStReader) == if textureName.Some? then [""] else []
  {
    if textureName.Some? {
      StReaderMisses();
      TextureParts(matName, textureName.value, KStReader);
      StReaderReads(matName);
      SamplerOff(matName, textureName.value, KStReader);
    }
  }

  lemma TextureReadsSampler(matName: string, textureName: Option<string>)
    ensures Values(TextureLines(matName, textureName), KDiffuseTexture) == if textureName.Some? then [""] else []
  {
    if textureName.Some? {
      DiffuseTextureMisses();
      TextureParts(matName, textureName.value, KDiffuseTexture);
      StReaderOff(matName, KDiffuseTexture);
      SamplerReadsItself(matName, textureName.value);
    }
  }

  lemma TextureReadsFile(matName: string, textureName: Option<string>)
    ensures Values(TextureLines(matName, textureName), KTextureFile)
         == if textureName.Some? then [textureName.value + "@"] else []
  {
    if textureName.Some? {
      TextureFileMisses();
      TextureParts(matName, textureName.value, KTextureFile);
      StReaderOff(matName, KTextureFile);
      SamplerReadsFile(matName, textureName.value);
    }
  }

  lemma ClearcoatReads(clearcoat: Option<string>, clearcoatRoughness: Option<string>,
      metallic: Option<string>, roughness: Option<string>)
    ensures Values(ScalarsLines(clearcoat, clearcoatRoughness, metallic, roughness), KClearcoat) == if clearcoat.Some? then [clearcoat.value] else []
  {
    ScalarsParts(clearcoat, clearcoatRoughness, metallic, roughness, KClearcoat);
    OptionalOff(KClearcoatRoughness, clearcoatRoughness, KClearcoat, 30);
    OptionalOff(KMetallic, metallic, KClearcoat, 21);
    OptionalOff(KRoughness, roughness, KClearcoat, 21);
    OptionalRead(KClearcoat, clearcoat);
  }

  lemma ClearcoatRoughnessReads(clearcoat: Option<string>, clearcoatRoughness: Option<string>,
      metallic: Option<string>, roughness: Option<string>)
    ensures Values(ScalarsLines(clearcoat, clearcoatRoughness, metallic, roughness), KClearcoatRoughness) == if clearcoatRoughness.Some? then [clearcoatRoughness.value] else []
  {
    ScalarsParts(clearcoat, clearcoatRoughness, metallic, roughness, KClearcoatRoughness);
    OptionalOff(KClearcoat, clearcoat, KClearcoatRoughness, 30);
    OptionalOff(KMetallic, metallic, KClearcoatRoughness, 21);
    OptionalOff(KRoughness, roughness, KClearcoatRoughness, 21);
    OptionalRead(KClearcoatRoughness, clearcoatRoughness);
  }

  lemma MetallicReads(clearcoat: Option<string>, clearcoatRoughness: Option<string>,
      metallic: Option<string>, roughness: Option<string>)
    ensures Values(ScalarsLines(clearcoat, clearcoatRoughness, metallic, roughness), KMetallic) == if metallic.Some? then [metallic.value] else []
  {
    ScalarsParts(clearcoat, clearcoatRoughness, metallic, roughness, KMetallic);
    OptionalOff(KClearcoat, clearcoat, KMetallic, 21);
    OptionalOff(KClearcoatRoughness, clearcoatRoughness, KMetallic, 21);
    OptionalOff(KRoughness, roughness, KMetallic, 21);
    OptionalRead(KMetallic, metallic);
  }

  lemma RoughnessReads(clearcoat: Option<string>, clearcoatRoughness: Option<string>,
      metallic: Option<string>, roughness: Option<string>)
    ensures Values(ScalarsLines(clearcoat, clearcoatRoughness, metallic, roughness), KRoughness) == if roughness.Some? then [roughness.value] else []
  {
    ScalarsParts(clearcoat, clearcoatRoughness, metallic, roughness, KRoughness);
    OptionalOff(KClearcoat, clearcoat, KRoughness, 21);
    OptionalOff(KClearcoatRoughness, clearcoatRoughness, KRoughness, 21);
    OptionalOff(KMetallic, metallic, KRoughness, 21);
    OptionalRead(KRoughness, roughness);
  }

  // ---------------------------------------------------------------------------
  // A block, one keyword at a time
  // ---------------------------------------------------------------------------

  lemma MaterialHeadMisses()
    ensures ConnectMiss(KMaterialHead)
    ensures ScalarsMiss(KMaterialHead)
    ensures CloseMiss(KMaterialHead)
    ensures StReaderMiss(KMaterialHead)
    ensures SamplerMiss(KMaterialHead)
  {
  }

  /** The block opens with exactly one `def Material` line, naming the material. */
  lemma MaterialHeadInBlock(matName: string, diffuse: string, textureName: Option<string>,
      clearcoat: Option<string>, clearcoatRoughness: Option<string>,
      metallic: Option<string>, roughness: Option<string>)
    ensures Values(MaterialBlockText(matName, diffuse, textureName, clearcoat, clearcoatRoughness, metallic, roughness), KMaterialHead)
         == [Quoted(matName)]
  {
    MaterialHeadMisses();
    BlockParts(matName, diffuse, textureName, clearcoat, clearcoatRoughness, metallic, roughness, KMaterialHead);
    OpenReadsName(matName, diffuse);
    ConnectOff(matName, textureName.Some?, KMaterialHead);
    ScalarsOff(clearcoat, clearcoatRoughness, metallic, roughness, KMaterialHead);
    ShaderCloseOff(KMaterialHead);
    TextureOff(matName, textureName, KMaterialHead);
  }

  lemma MeshHeadMisses()
    ensures OpenMiss(KMeshHead)
    ensures ConnectMiss(KMeshHead)
    ensures ScalarsMiss(KMeshHead)
    ensures CloseMiss(KMeshHead)
    ensures StReaderMiss(KMeshHead)
    ensures SamplerMiss(KMeshHead)
  {
  }

  /** A material block holds no `def Mesh` line. */
  lemma MeshHeadInBlock(matName: string, diffuse: string, textureName: Option<string>,
      clearcoat: Option<string>, clearcoatRoughness: Option<string>,
      metallic: Option<string>, roughness: Option<string>)
    ensures Values(MaterialBlockText(matName, diffuse, textureName, clearcoat, clearcoatRoughness, metallic, roughness), KMeshHead)
         == []
  {
    MeshHeadMisses();
    BlockParts(matName, diffuse, textureName, clearcoat, clearcoatRoughness, metallic, roughness, KMeshHead);
    OpenOff(matName, diffuse, KMeshHead);
    ConnectOff(matName, textureName.Some?, KMeshHead);
    ScalarsOff(clearcoat, clearcoatRoughness, metallic, roughness, KMeshHead);
    ShaderCloseOff(KMeshHead);
    TextureOff(matName, textureName, KMeshHead);
  }

  lemma DiffuseMisses()
    ensures ConnectMiss(KDiffuse)
    ensures ScalarsMiss(KDiffuse)
    ensures CloseMiss(KDiffuse)
    ensures StReaderMiss(KDiffuse)
    ensures SamplerMiss(KDiffuse)
  {
  }

  /** The literal diffuse colour is written once, textured or not. */
  lemma DiffuseInBlock(matName: string, diffuse: string, textureName: Option<string>,
      clearcoat: Option<string>, clearcoatRoughness: Option<string>,
      metallic: Option<string>, roughness: Option<string>)
    ensures Values(MaterialBlockText(matName, diffuse, textureName, clearcoat, clearcoatRoughness, metallic, roughness), KDiffuse)
         == [diffuse]
  {
    DiffuseMisses();
    BlockParts(matName, diffuse, textureName, clearcoat, clearcoatRoughness, metallic, roughness, KDiffuse);
    OpenReadsDiffuse(matName, diffuse);
    ConnectOff(matName, textureName.Some?, KDiffuse);
    ScalarsOff(clearcoat, clearcoatRoughness, metallic, roughness, KDiffuse);
    ShaderCloseOff(KDiffuse);
    TextureOff(matName, textureName, KDiffuse);
  }

  lemma DiffuseConnectMisses()
    ensures OpenMiss(KDiffuseConnect)
    ensures ScalarsMiss(KDiffuseConnect)
    ensures CloseMiss(KDiffuseConnect)
    ensures StReaderMiss(KDiffuseConnect)
    ensures SamplerMiss(KDiffuseConnect)
  {
  }

  /** The diffuse colour is connected to the sampler exactly when there is a texture. */
  lemma DiffuseConnectInBlock(matName: string, diffuse: string, textureName: Option<string>,
      clearcoat: Option<string>, clearcoatRoughness: Option<string>,
      metallic: Option<string>, roughness: Option<string>)
    ensures Values(MaterialBlockText(matName, diffuse, textureName, clearcoat, clearcoatRoughness, metallic, roughness), KDiffuseConnect)
         == if textureName.Some? then [matName + "/diffuseTexture.outputs:rgb>"] else []
  {
    DiffuseConnectMisses();
    BlockParts(matName, diffuse, textureName, clearcoat, clearcoatRoughness, metallic, roughness, KDiffuseConnect);
    OpenOff(matName, diffuse, KDiffuseConnect);
    ConnectReads(matName, textureName.Some?);
    ScalarsOff(clearcoat, clearcoatRoughness, metallic, roughness, KDiffuseConnect);
    ShaderCloseOff(KDiffuseConnect);
    TextureOff(matName, textureName, KDiffuseConnect);
  }

  lemma ClearcoatMisses()
    ensures OpenMiss(KClearcoat)
    ensures ConnectMiss(KClearcoat)
    ensures CloseMiss(KClearcoat)
    ensures StReaderMiss(KClearcoat)
    ensures SamplerMiss(KClearcoat)
  {
  }

  /** The clearcoat input is written exactly when its value is present. */
  lemma ClearcoatInBlock(matName: string, diffuse: string, textureName: Option<string>,
      clearcoat: Option<string>, clearcoatRoughness: Option<string>,
      metallic: Option<string>, roughness: Option<string>)
    ensures Values(MaterialBlockText(matName, diffuse, textureName, clearcoat, clearcoatRoughness, metallic, roughness), KClearcoat)
         == if clearcoat.Some? then [clearcoat.value] else []
  {
    ClearcoatMisses();
    BlockParts(matName, diffuse, textureName, clearcoat, clearcoatRoughness, metallic, roughness, KClearcoat);
    OpenOff(matName, diffuse, KClearcoat);
    ConnectOff(matName, textureName.Some?, KClearcoat);
    ClearcoatReads(clearcoat, clearcoatRoughness, metallic, roughness);
    ShaderCloseOff(KClearcoat);
    TextureOff(matName, textureName, KClearcoat);
  }

  lemma ClearcoatRoughnessMisses()
    ensures OpenMiss(KClearcoatRoughness)
    ensures ConnectMiss(KClearcoatRoughness)
    ensures CloseMiss(KClearcoatRoughness)
    ensures StReaderMiss(KClearcoatRoughness)
    ensures SamplerMiss(KClearcoatRoughness)
  {
  }

  /** The clearcoat roughness input is written exactly when its value is present. */
  lemma ClearcoatRoughnessInBlock(matName: string, diffuse: string, textureName: Option<string>,
      clearcoat: Option<string>, clearcoatRoughness: Option<string>,
      metallic: Option<string>, roughness: Option<string>)
    ensures Values(MaterialBlockText(matName, diffuse, textureName, clearcoat, clearcoatRoughness, metallic, roughness), KClearcoatRoughness)
         == if clearcoatRoughness.Some? then [clearcoatRoughness.value] else []
  {
    ClearcoatRoughnessMisses();
    BlockParts(matName, diffuse, textureName, clearcoat, clearcoatRoughness, metallic, roughness, KClearcoatRoughness);
    OpenOff(matName, diffuse, KClearcoatRoughness);
    ConnectOff(matName, textureName.Some?, KClearcoatRoughness);
    ClearcoatRoughnessReads(clearcoat, clearcoatRoughness, metallic, roughness);
    ShaderCloseOff(KClearcoatRoughness);
    TextureOff(matName, textureName, KClearcoatRoughness);
  }

  lemma MetallicMisses()
    ensures OpenMiss(KMetallic)
    ensures ConnectMiss(KMetallic)
    ensures CloseMiss(KMetallic)
    ensures StReaderMiss(KMetallic)
    ensures SamplerMiss(KMetallic)
  {
  }

  /** The metallic input is written exactly when its value is present. */
  lemma MetallicInBlock(matName: string, diffuse: string, textureName: Option<string>,
      clearcoat: Option<string>, clearcoatRoughness: Option<string>,
      metallic: Option<string>, roughness: Option<string>)
    ensures Values(MaterialBlockText(matName, diffuse, textureName, clearcoat, clearcoatRoughness, metallic, roughness), KMetallic)
         == if metallic.Some? then [metallic.value] else []
  {
    MetallicMisses();
    BlockParts(matName, diffuse, textureName, clearcoat, clearcoatRoughness, metallic, roughness, KMetallic);
    OpenOff(matName, diffuse, KMetallic);
    ConnectOff(matName, textureName.Some?, KMetallic);
    MetallicReads(clearcoat, clearcoatRoughness, metallic, roughness);
    ShaderCloseOff(KMetallic);
    TextureOff(matName, textureName, KMetallic);
  }

  lemma RoughnessMisses()
    ensures OpenMiss(KRoughness)
    ensures ConnectMiss(KRoughness)
    ensures CloseMiss(KRoughness)
    ensures StReaderMiss(KRoughness)
    ensures SamplerMiss(KRoughness)
  {
  }

  /** The roughness input is written exactly when its value is present. */
  lemma RoughnessInBlock(matName: string, diffuse: string, textureName: Option<string>,
      clearcoat: Option<string>, clearcoatRoughness: Option<string>,
      metallic: Option<string>, roughness: Option<string>)
    ensures Values(MaterialBlockText(matName, diffuse, textureName, clearcoat, clearcoatRoughness, metallic, roughness), KRoughness)
         == if roughness.Some? then [roughness.value] else []
  {
    RoughnessMisses();
    BlockParts(matName, diffuse, textureName, clearcoat, clearcoatRoughness, metallic, roughness, KRoughness);
    OpenOff(matName, diffuse, KRoughness);
    ConnectOff(matName, textureName.Some?, KRoughness);
    RoughnessReads(clearcoat, clearcoatRoughness, metallic, roughness);
    ShaderCloseOff(KRoughness);
    TextureOff(matName, textureName, KRoughness);
  }

  lemma StReaderMisses()
    ensures OpenMiss(KStReader)
    ensures ConnectMiss(KStReader)
    ensures ScalarsMiss(KStReader)
    ensures CloseMiss(KStReader)
    ensures SamplerMiss(KStReader)
  {
  }

  /** The `stReader` shader is defined exactly when there is a texture. */
  lemma StReaderInBlock(matName: string, diffuse: string, textureName: Option<string>,
      clearcoat: Option<string>, clearcoatRoughness: Option<string>,
      metallic: Option<string>, roughness: Option<string>)
    ensures Values(MaterialBlockText(matName, diffuse, textureName, clearcoat, clearcoatRoughness, metallic, roughness), KStReader)
         == if textureName.Some? then [""] else []
  {
    StReaderMisses();
    BlockParts(matName, diffuse, textureName, clearcoat, clearcoatRoughness, metallic, roughness, KStReader);
    OpenOff(matName, diffuse, KStReader);
    ConnectOff(matName, textureName.Some?, KStReader);
    ScalarsOff(clearcoat, clearcoatRoughness, metallic, roughness, KStReader);
    ShaderCloseOff(KStReader);
    TextureReadsStReader(matName, textureName);
  }

  lemma DiffuseTextureMisses()
    ensures OpenMiss(KDiffuseTexture)
    ensures ConnectMiss(KDiffuseTexture)
    ensures ScalarsMiss(KDiffuseTexture)
    ensures CloseMiss(KDiffuseTexture)
    ensures StReaderMiss(KDiffuseTexture)
  {
  }

  /** The `diffuseTexture` sampler is defined exactly when there is a texture. */
  lemma DiffuseTextureInBlock(matName: string, diffuse: string, textureName: Option<string>,
      clearcoat: Option<string>, clearcoatRoughness: Option<string>,
      metallic: Option<string>, roughness: Option<string>)
    ensures Values(MaterialBlockText(matName, diffuse, textureName, clearcoat, clearcoatRoughness, metallic, roughness), KDiffuseTexture)
         == if textureName.Some? then [""] else []
  {
    DiffuseTextureMisses();
    BlockParts(matName, diffuse, textureName, clearcoat, clearcoatRoughness, metallic, roughness, KDiffuseTexture);
    OpenOff(matName, diffuse, KDiffuseTexture);
    ConnectOff(matName, textureName.Some?, KDiffuseTexture);
    ScalarsOff(clearcoat, clearcoatRoughness, metallic, roughness, KDiffuseTexture);
    ShaderCloseOff(KDiffuseTexture);
    TextureReadsSampler(matName, textureName);
  }

  lemma TextureFileMisses()
    ensures OpenMiss(KTextureFile)
    ensures ConnectMiss(KTextureFile)
    ensures ScalarsMiss(KTextureFile)
    ensures CloseMiss(KTextureFile)
    ensures StReaderMiss(KTextureFile)
  {
  }

  /** The sampler reads the packaged texture file under its table key. */
  lemma TextureFileInBlock(matName: string, diffuse: string, textureName: Option<string>,
      clearcoat: Option<string>, clearcoatRoughness: Option<string>,
      metallic: Option<string>, roughness: Option<string>)
    ensures Values(MaterialBlockText(matName, diffuse, textureName, clearcoat, clearcoatRoughness, metallic, roughness), KTextureFile)
         == if textureName.Some? then [textureName.value + "@"] else []
  {
    TextureFileMisses();
    BlockParts(matName, diffuse, textureName, clearcoat, clearcoatRoughness, metallic, roughness, KTextureFile);
    OpenOff(matName, diffuse, KTextureFile);
    ConnectOff(matName, textureName.Some?, KTextureFile);
    ScalarsOff(clearcoat, clearcoatRoughness, metallic, roughness, KTextureFile);
    ShaderCloseOff(KTextureFile);
    TextureReadsFile(matName, textureName);
  }

  // ---------------------------------------------------------------------------
  // What ProcessMaterial writes for a glTF material
  // ---------------------------------------------------------------------------

  /** The block names its material once, states its colour once, and defines no mesh. */
  lemma MaterialNameValues(modelIndex: nat, m: Material)
    ensures Values(MaterialLines(modelIndex, m), KMaterialHead) == [Quoted(GetMatName(modelIndex, m))]
    ensures Values(MaterialLines(modelIndex, m), KMeshHead) == []
    ensures Values(MaterialLines(modelIndex, m), KDiffuse) == [XYZText(m.baseColor)]
  {
    var name, diffuse, texture := GetMatName(modelIndex, m), XYZText(m.baseColor), TextureKey(modelIndex, m.baseColorTexture);
    var cc, ccr := ScalarText(m.clearCoatFactor), ScalarText(m.clearCoatRoughnessFactor);
    var met, rough := ScalarText(m.metallicFactor), ScalarText(m.roughnessFactor);
    MaterialHeadInBlock(name, diffuse, texture, cc, ccr, met, rough);
    MeshHeadInBlock(name, diffuse, texture, cc, ccr, met, rough);
    DiffuseInBlock(name, diffuse, texture, cc, ccr, met, rough);
  }

  /** Each scalar input is written, with seven fractional digits, exactly when the material has it. */
  lemma MaterialScalarValues(modelIndex: nat, m: Material)
    ensures Values(MaterialLines(modelIndex, m), KClearcoat)
         == if m.clearCoatFactor.Some? then [FormatFixed(m.clearCoatFactor.value, 7)] else []
    ensures Values(MaterialLines(modelIndex, m), KClearcoatRoughness)
         == if m.clearCoatRoughnessFactor.Some? then [FormatFixed(m.clearCoatRoughnessFactor.value, 7)] else []
    ensures Values(MaterialLines(modelIndex, m), KMetallic)
         == if m.metallicFactor.Some? then [FormatFixed(m.metallicFactor.value, 7)] else []
    ensures Values(MaterialLines(modelIndex, m), KRoughness)
         == if m.roughnessFactor.Some? then [FormatFixed(m.roughnessFactor.value, 7)] else []
  {
    var name, diffuse, texture := GetMatName(modelIndex, m), XYZText(m.baseColor), TextureKey(modelIndex, m.baseColorTexture);
    var cc, ccr := ScalarText(m.clearCoatFactor), ScalarText(m.clearCoatRoughnessFactor);
    var met, rough := ScalarText(m.metallicFactor), ScalarText(m.roughnessFactor);
    ClearcoatInBlock(name, diffuse, texture, cc, ccr, met, rough);
    ClearcoatRoughnessInBlock(name, diffuse, texture, cc, ccr, met, rough);
    MetallicInBlock(name, diffuse, texture, cc, ccr, met, rough);
    RoughnessInBlock(name, diffuse, texture, cc, ccr, met, rough);
  }

  /**
   * With a base-colour texture the block connects the diffuse colour to a
   * sampler of the packaged file and defines the reader and the sampler;
   * without one it has none of these.
   */
  lemma MaterialTextureValues(modelIndex: nat, m: Material)
    ensures Values(MaterialLines(modelIndex, m), KDiffuseConnect)
         == if m.baseColorTexture.Some? then [GetMatName(modelIndex, m) + "/diffuseTexture.outputs:rgb>"] else []
    ensures Values(MaterialLines(modelIndex, m), KStReader) == if m.baseColorTexture.Some? then [""] else []
    ensures Values(MaterialLines(modelIndex, m), KDiffuseTexture) == if m.baseColorTexture.Some? then [""] else []
    ensures Values(MaterialLines(modelIndex, m), KTextureFile)
         == if m.baseColorTexture.Some? then [TextureName(modelIndex, m.baseColorTexture.value) + "@"] else []
  {
    var name, diffuse, texture := GetMatName(modelIndex, m), XYZText(m.baseColor), TextureKey(modelIndex, m.baseColorTexture);
    var cc, ccr := ScalarText(m.clearCoatFactor), ScalarText(m.clearCoatRoughnessFactor);
    var met, rough := ScalarText(m.metallicFactor), ScalarText(m.roughnessFactor);
    DiffuseConnectInBlock(name, diffuse, texture, cc, ccr, met, rough);
    StReaderInBlock(name, diffuse, texture, cc, ccr, met, rough);
    DiffuseTextureInBlock(name, diffuse, texture, cc, ccr, met, rough);
    TextureFileInBlock(name, diffuse, texture, cc, ccr, met, rough);
  }
}
