/**
 * What the shader-description codec guarantees: which keys each object
 * carries, that decoding undoes encoding exactly under stated side
 * conditions, and that validity is visible in the encoded document.
 */
module DescriptionLaws {
  import opened Json
  import opened TokenTable
  import opened ShaderTypes
  import opened ShaderDescription

  /** A location, binding or set that the encoder's `>= 0` test and the decoder's default reproduce. */
  predicate DecorationSurvives(x: int)
  {
    x >= 0 || x == NoDecoration
  }

  /** `f` comes back from its own token in `formats`; the unknown format is never written. */
  predicate FormatSurvives(formats: Table<ImageFormat>, f: ImageFormat)
  {
    f == ImageFormatUnknown || MapImageFormat(formats, ImageFormatStr(formats, f)) == f
  }

  predicate InOutDecorated(v: InOutVariable)
  {
    DecorationSurvives(v.location) && DecorationSurvives(v.binding) && DecorationSurvives(v.descriptorSet)
  }

  predicate InOutFits(v: InOutVariable, formats: Table<ImageFormat>)
  {
    InOutDecorated(v) && FormatSurvives(formats, v.imageFormat)
  }

  /** All in-out style variables of a description, in the order makeDoc writes them. */
  function InOuts(d: Description): seq<InOutVariable>
  {
    d.inVars + d.outVars + d.combinedImageSamplers + d.storageImages
  }

  /** Every decoration of `d` survives a round trip. */
  predicate DecorationsFit(d: Description)
  {
    (forall v :: v in InOuts(d) ==> InOutDecorated(v))
    && (forall b :: b in d.uniformBlocks ==> DecorationSurvives(b.binding) && DecorationSurvives(b.descriptorSet))
    && (forall b :: b in d.storageBlocks ==> DecorationSurvives(b.binding) && DecorationSurvives(b.descriptorSet))
  }

  /** Every decoration and every image format of `d` survives a round trip through `formats`. */
  predicate Fits(d: Description, formats: Table<ImageFormat>)
  {
    DecorationsFit(d) && forall v :: v in InOuts(d) ==> FormatSurvives(formats, v.imageFormat)
  }

  // ---------------------------------------------------------------- in-out variables

  /** inOutObject writes the name and type token always, and no key outside the in-out keys. */
  lemma InOutObjectFixedKeys(v: InOutVariable, formats: Table<ImageFormat>)
    ensures var r := InOutObject(v, formats);
      r.Keys <= InOutKeys
      && NameKey in r && r[NameKey] == String(v.name)
      && TypeKey in r && r[TypeKey] == String(TypeStr(v.varType))
  {
  }

  /** addDeco's omission rule: a decoration is written, as itself, exactly when it is set. */
  lemma InOutObjectDecorations(v: InOutVariable, formats: Table<ImageFormat>)
    ensures var r := InOutObject(v, formats);
      && (LocationKey in r <==> v.location >= 0)
      && (BindingKey in r <==> v.binding >= 0)
      && (SetKey in r <==> v.descriptorSet >= 0)
      && (ImageFormatKey in r <==> v.imageFormat != ImageFormatUnknown)
      && (ImageFlagsKey in r <==> v.imageFlags != 0)
      && (LocationKey in r ==> r[LocationKey] == Number(v.location))
      && (BindingKey in r ==> r[BindingKey] == Number(v.binding))
      && (SetKey in r ==> r[SetKey] == Number(v.descriptorSet))
      && (ImageFormatKey in r ==> r[ImageFormatKey] == String(ImageFormatStr(formats, v.imageFormat)))
      && (ImageFlagsKey in r ==> r[ImageFlagsKey] == Number(v.imageFlags))
  {
  }

  /** inOutVar undoes inOutObject exactly when the variable's decorations and format survive. */
  lemma InOutRoundTrip(v: InOutVariable, formats: Table<ImageFormat>)
    ensures InOutVar(InOutObject(v, formats), formats) == v <==> InOutFits(v, formats)
  {
    InOutObjectFixedKeys(v, formats);
    InOutObjectDecorations(v, formats);
    TypeRoundTrip(v.varType);
  }

  /** A list of in-out variables comes back unchanged, in order, exactly when each one fits. */
  lemma InOutsRoundTrip(vs: seq<InOutVariable>, formats: Table<ImageFormat>)
    ensures InOutVars(InOutObjects(vs, formats), formats) == vs <==> forall v :: v in vs ==> InOutFits(v, formats)
  {
    var back := InOutVars(InOutObjects(vs, formats), formats);
    forall i | 0 <= i < |vs|
      ensures back[i] == vs[i] <==> InOutFits(vs[i], formats)
    {
      InOutRoundTrip(vs[i], formats);
    }
  }

  // ---------------------------------------------------------------- block members

  /** blockMemberObject writes no key outside the member keys. */
  lemma BlockMemberObjectKeySet(v: BlockVariable)
    ensures var r := BlockMemberObject(v);
      r.Keys <= MemberKeys
  {
  }

  /** blockMemberObject's omission rule: each optional key is written exactly when its field is not the default. */
  lemma BlockMemberObjectOmits(v: BlockVariable)
    ensures var r := BlockMemberObject(v);
      && (ArrayDimsKey in r <==> |v.arrayDims| > 0)
      && (ArrayStrideKey in r <==> v.arrayStride != 0)
      && (MatrixStrideKey in r <==> v.matrixStride != 0)
      && (MatrixRowMajorKey in r <==> v.matrixIsRowMajor)
      && (StructMembersKey in r <==> |v.structMembers| > 0)
  {
  }

  /** The four fixed keys of a member object hold the member's name, type token, offset and size. */
  lemma BlockMemberObjectFixedValues(v: BlockVariable)
    ensures var r := BlockMemberObject(v);
      && NameKey in r && r[NameKey] == String(v.name)
      && TypeKey in r && r[TypeKey] == String(TypeStr(v.varType))
      && OffsetKey in r && r[OffsetKey] == Number(v.offset)
      && SizeKey in r && r[SizeKey] == Number(v.size)
  {
  }

  /** Each optional key a member object carries holds its field's own value. */
  lemma BlockMemberObjectOptionalValues(v: BlockVariable)
    ensures var r := BlockMemberObject(v);
      && (ArrayDimsKey in r ==> r[ArrayDimsKey] == Array(Numbers(v.arrayDims)))
      && (ArrayStrideKey in r ==> r[ArrayStrideKey] == Number(v.arrayStride))
      && (MatrixStrideKey in r ==> r[MatrixStrideKey] == Number(v.matrixStride))
      && (MatrixRowMajorKey in r ==> r[MatrixRowMajorKey] == Value.Bool(true))
      && (StructMembersKey in r ==> r[StructMembersKey] == Array(MemberObjects(v.structMembers)))
  {
  }

  /** blockVar undoes blockMemberObject at every nesting depth, with no side condition. */
  lemma {:induction false} BlockVarRoundTrip(v: BlockVariable)
    ensures BlockVar(Object(BlockMemberObject(v))) == v
    decreases v, 1
  {
    BlockMemberObjectOmits(v);
    BlockMemberObjectFixedValues(v);
    BlockMemberObjectOptionalValues(v);
    TypeRoundTrip(v.varType);
    MembersRoundTrip(v.structMembers);
    var back := BlockVar(Object(BlockMemberObject(v)));
    assert back.arrayDims == v.arrayDims;
    assert back.structMembers == v.structMembers;
  }

  /**
   * The two members of the uniform block in the class documentation's
   * example: the matrix carries its matrix stride of 16, the float
   * carries only the four fixed keys.
   */
  lemma DocumentedMemberObjects()
    ensures var mvp := BlockMemberObject(BlockVariable("mvp", Mat4, 0, 64, [], 0, 16, false, []));
      mvp.Keys == {NameKey, TypeKey, OffsetKey, SizeKey, MatrixStrideKey} && mvp[MatrixStrideKey] == Number(16)
    ensures BlockMemberObject(BlockVariable("opacity", Float, 64, 4, [], 0, 0, false, [])).Keys
            == {NameKey, TypeKey, OffsetKey, SizeKey}
  {
    var mvp := BlockVariable("mvp", Mat4, 0, 64, [], 0, 16, false, []);
    var opacity := BlockVariable("opacity", Float, 64, 4, [], 0, 0, false, []);
    BlockMemberObjectKeySet(mvp);
    BlockMemberObjectOmits(mvp);
    BlockMemberObjectFixedValues(mvp);
    BlockMemberObjectOptionalValues(mvp);
    BlockMemberObjectKeySet(opacity);
    BlockMemberObjectOmits(opacity);
    BlockMemberObjectFixedValues(opacity);
  }

  /** A member list comes back unchanged and in order. */
  lemma {:induction false} MembersRoundTrip(ms: seq<BlockVariable>)
    ensures BlockVars(MemberObjects(ms)) == ms
    decreases ms, 0
  {
    forall i | 0 <= i < |ms|
      ensures BlockVars(MemberObjects(ms))[i] == ms[i]
    {
      BlockVarRoundTrip(ms[i]);
    }
  }

  // ---------------------------------------------------------------- blocks

  /** A uniform block object always names the block, its struct, size and members; binding and set only when set. */
  lemma UniformBlockObjectKeys(b: UniformBlock)
    ensures var r := UniformBlockObject(b);
      r.Keys <= {BlockNameKey, StructNameKey, SizeKey, BindingKey, SetKey, MembersKey}
      && BlockNameKey in r && StructNameKey in r && SizeKey in r && MembersKey in r
      && (BindingKey in r <==> b.binding >= 0)
      && (SetKey in r <==> b.descriptorSet >= 0)
  {
  }

  /** A uniform block comes back unchanged exactly when its binding and set survive. */
  lemma UniformBlockRoundTrip(b: UniformBlock)
    ensures UniformBlockFrom(UniformBlockObject(b)) == b
            <==> DecorationSurvives(b.binding) && DecorationSurvives(b.descriptorSet)
  {
    MembersRoundTrip(b.members);
  }

  /** A push constant block object carries exactly its name, size and members. */
  lemma PushConstantBlockObjectKeys(b: PushConstantBlock)
    ensures PushConstantBlockObject(b).Keys == {NameKey, SizeKey, MembersKey}
  {
  }

  /** A push constant block always comes back unchanged. */
  lemma PushConstantBlockRoundTrip(b: PushConstantBlock)
    ensures PushConstantBlockFrom(PushConstantBlockObject(b)) == b
  {
    MembersRoundTrip(b.members);
  }

  /** A storage block object always names the block, its instance, known size and members; binding and set only when set. */
  lemma StorageBlockObjectKeys(b: StorageBlock)
    ensures var r := StorageBlockObject(b);
      r.Keys <= {BlockNameKey, InstanceNameKey, KnownSizeKey, BindingKey, SetKey, MembersKey}
      && BlockNameKey in r && InstanceNameKey in r && KnownSizeKey in r && MembersKey in r
      && (BindingKey in r <==> b.binding >= 0)
      && (SetKey in r <==> b.descriptorSet >= 0)
  {
  }

  /** A storage block comes back unchanged exactly when its binding and set survive. */
  lemma StorageBlockRoundTrip(b: StorageBlock)
    ensures StorageBlockFrom(StorageBlockObject(b)) == b
            <==> DecorationSurvives(b.binding) && DecorationSurvives(b.descriptorSet)
  {
    MembersRoundTrip(b.members);
  }

  lemma UniformBlocksRoundTrip(bs: seq<UniformBlock>)
    ensures UniformBlocksFrom(UniformBlockObjects(bs)) == bs
            <==> forall b :: b in bs ==> DecorationSurvives(b.binding) && DecorationSurvives(b.descriptorSet)
  {
    var back := UniformBlocksFrom(UniformBlockObjects(bs));
    forall i | 0 <= i < |bs|
      ensures back[i] == bs[i] <==> DecorationSurvives(bs[i].binding) && DecorationSurvives(bs[i].descriptorSet)
    {
      UniformBlockRoundTrip(bs[i]);
    }
  }

  lemma PushConstantBlocksRoundTrip(bs: seq<PushConstantBlock>)
    ensures PushConstantBlocksFrom(PushConstantBlockObjects(bs)) == bs
  {
    var back := PushConstantBlocksFrom(PushConstantBlockObjects(bs));
    forall i | 0 <= i < |bs|
      ensures back[i] == bs[i]
    {
      PushConstantBlockRoundTrip(bs[i]);
    }
  }

  lemma StorageBlocksRoundTrip(bs: seq<StorageBlock>)
    ensures StorageBlocksFrom(StorageBlockObjects(bs)) == bs
            <==> forall b :: b in bs ==> DecorationSurvives(b.binding) && DecorationSurvives(b.descriptorSet)
  {
    var back := StorageBlocksFrom(StorageBlockObjects(bs));
    forall i | 0 <= i < |bs|
      ensures back[i] == bs[i] <==> DecorationSurvives(bs[i].binding) && DecorationSurvives(bs[i].descriptorSet)
    {
      StorageBlockRoundTrip(bs[i]);
    }
  }

  // ---------------------------------------------------------------- the document

  /** makeDoc writes no root key beyond the seven collection keys. */
  lemma EncodeDescriptionKeySet(d: Description, formats: Table<ImageFormat>)
    ensures EncodeDescription(d, formats).Keys <= RootKeys
  {
  }

  /** makeDoc writes each variable section's key exactly when the collection is not empty. */
  lemma EncodeDescriptionVariableKeys(d: Description, formats: Table<ImageFormat>)
    ensures var r := EncodeDescription(d, formats);
      && (InputsKey in r <==> |d.inVars| > 0)
      && (OutputsKey in r <==> |d.outVars| > 0)
      && (CombinedImageSamplersKey in r <==> |d.combinedImageSamplers| > 0)
      && (StorageImagesKey in r <==> |d.storageImages| > 0)
  {
  }

  /** makeDoc writes each block section's key exactly when the collection is not empty. */
  lemma EncodeDescriptionBlockKeys(d: Description, formats: Table<ImageFormat>)
    ensures var r := EncodeDescription(d, formats);
      && (UniformBlocksKey in r <==> |d.uniformBlocks| > 0)
      && (PushConstantBlocksKey in r <==> |d.pushConstantBlocks| > 0)
      && (StorageBlocksKey in r <==> |d.storageBlocks| > 0)
  {
  }

  /** Each variable section of the document holds one object per variable, in order. */
  lemma EncodeDescriptionVariableSections(d: Description, formats: Table<ImageFormat>)
    ensures var r := EncodeDescription(d, formats);
      && Section(r, InputsKey) == InOutObjects(d.inVars, formats)
      && Section(r, OutputsKey) == InOutObjects(d.outVars, formats)
      && Section(r, CombinedImageSamplersKey) == InOutObjects(d.combinedImageSamplers, formats)
      && Section(r, StorageImagesKey) == InOutObjects(d.storageImages, formats)
  {
  }

  /** Each block section of the document holds one object per block, in order. */
  lemma EncodeDescriptionBlockSections(d: Description, formats: Table<ImageFormat>)
    ensures var r := EncodeDescription(d, formats);
      && Section(r, UniformBlocksKey) == UniformBlockObjects(d.uniformBlocks)
      && Section(r, PushConstantBlocksKey) == PushConstantBlockObjects(d.pushConstantBlocks)
      && Section(r, StorageBlocksKey) == StorageBlockObjects(d.storageBlocks)
  {
  }

  /** isValid holds exactly when makeDoc writes a non-empty root object. */
  lemma IsValidIffEncodedNonEmpty(d: Description, formats: Table<ImageFormat>)
    ensures IsValid(d) <==> EncodeDescription(d, formats) != map[]
  {
    var r := EncodeDescription(d, formats);
    EncodeDescriptionKeySet(d, formats);
    EncodeDescriptionVariableKeys(d, formats);
    EncodeDescriptionBlockKeys(d, formats);
    if !IsValid(d) {
      assert r.Keys == {};
    }
  }

  /** Fits, list by list. */
  lemma FitsByList(d: Description, formats: Table<ImageFormat>)
    ensures Fits(d, formats) <==>
      && (forall v :: v in d.inVars ==> InOutFits(v, formats))
      && (forall v :: v in d.outVars ==> InOutFits(v, formats))
      && (forall b :: b in d.uniformBlocks ==> DecorationSurvives(b.binding) && DecorationSurvives(b.descriptorSet))
      && (forall b :: b in d.storageBlocks ==> DecorationSurvives(b.binding) && DecorationSurvives(b.descriptorSet))
      && (forall v :: v in d.combinedImageSamplers ==> InOutFits(v, formats))
      && (forall v :: v in d.storageImages ==> InOutFits(v, formats))
  {
    var all := InOuts(d);
    assert forall v :: v in all <==>
      v in d.inVars || v in d.outVars || v in d.combinedImageSamplers || v in d.storageImages;
  }

  /**
   * loadDoc undoes makeDoc, whatever the collections held before, exactly
   * when every decoration and every image format of the description survives.
   */
  lemma DocumentRoundTrip(d: Description, current: Description, formats: Table<ImageFormat>)
    ensures DecodeDocument(ObjectDocument(EncodeDescription(d, formats)), current, formats) == d <==> Fits(d, formats)
  {
    EncodeDescriptionVariableSections(d, formats);
    EncodeDescriptionBlockSections(d, formats);
    InOutsRoundTrip(d.inVars, formats);
    InOutsRoundTrip(d.outVars, formats);
    UniformBlocksRoundTrip(d.uniformBlocks);
    PushConstantBlocksRoundTrip(d.pushConstantBlocks);
    StorageBlocksRoundTrip(d.storageBlocks);
    InOutsRoundTrip(d.combinedImageSamplers, formats);
    InOutsRoundTrip(d.storageImages, formats);
    FitsByList(d, formats);
  }

  /** With the image-format table corrected, only the decorations can spoil the round trip. */
  lemma CorrectedDocumentRoundTrip(d: Description, current: Description)
    ensures DecodeDocument(ObjectDocument(EncodeDescription(d, CorrectedImageFormatTab)), current, CorrectedImageFormatTab) == d
            <==> DecorationsFit(d)
  {
    forall f: ImageFormat
      ensures FormatSurvives(CorrectedImageFormatTab, f)
    {
      CorrectedImageFormatRoundTrip(f);
    }
    DocumentRoundTrip(d, current, CorrectedImageFormatTab);
  }

  /**
   * With the table as written, the round trip also fails exactly when some
   * variable uses ImageFormatRgba16, which comes back as ImageFormatRgba16f.
   */
  lemma DocumentRoundTripAsWritten(d: Description, current: Description)
    ensures DecodeDocument(ObjectDocument(EncodeDescription(d, ImageFormatTab)), current, ImageFormatTab) == d
            <==> DecorationsFit(d) && forall v :: v in InOuts(d) ==> v.imageFormat != ImageFormatRgba16
  {
    forall f: ImageFormat
      ensures FormatSurvives(ImageFormatTab, f) <==> f != ImageFormatRgba16
    {
      ImageFormatRoundTrip(f);
    }
    DocumentRoundTrip(d, current, ImageFormatTab);
  }
}
