/**
 * The shader interface description (src/gui/rhi/qshaderdescription.cpp):
 * the variable and block records, the validity predicate, and the JSON
 * codec of makeDoc / loadDoc stated as functions on values.
 *
 * Every encoder and decoder takes the image-format token table as a
 * parameter: `ImageFormatTab` is the table as written, and
 * `CorrectedImageFormatTab` the one with line 626 fixed.
 */
module ShaderDescription {
  import opened Json
  import opened TokenTable
  import opened ShaderTypes

  /** A stage input or output, combined image sampler or storage image; -1 marks an absent decoration. */
  datatype InOutVariable = InOutVariable(
    name: string,
    varType: VariableType,
    location: int,
    binding: int,
    descriptorSet: int,
    imageFormat: ImageFormat,
    imageFlags: int)

  /** A member of a block, itself possibly a struct with members of its own. */
  datatype BlockVariable = BlockVariable(
    name: string,
    varType: VariableType,
    offset: int,
    size: int,
    arrayDims: seq<int>,
    arrayStride: int,
    matrixStride: int,
    matrixIsRowMajor: bool,
    structMembers: seq<BlockVariable>)

  datatype UniformBlock = UniformBlock(
    blockName: string,
    structName: string,
    size: int,
    binding: int,
    descriptorSet: int,
    members: seq<BlockVariable>)

  datatype PushConstantBlock = PushConstantBlock(
    name: string,
    size: int,
    members: seq<BlockVariable>)

  datatype StorageBlock = StorageBlock(
    blockName: string,
    instanceName: string,
    knownSize: int,
    binding: int,
    descriptorSet: int,
    members: seq<BlockVariable>)

  /** The seven collections of QShaderDescriptionPrivate. */
  datatype Description = Description(
    inVars: seq<InOutVariable>,
    outVars: seq<InOutVariable>,
    uniformBlocks: seq<UniformBlock>,
    pushConstantBlocks: seq<PushConstantBlock>,
    storageBlocks: seq<StorageBlock>,
    combinedImageSamplers: seq<InOutVariable>,
    storageImages: seq<InOutVariable>)

  /** A newly constructed description (lines 272-281). */
  const EmptyDescription := Description([], [], [], [], [], [], [])

  /** The value of location, binding and set that means "not decorated". */
  const NoDecoration := -1

  /** isValid (lines 322-327): some collection has an entry. */
  predicate IsValid(d: Description)
  {
    |d.inVars| > 0 || |d.outVars| > 0
    || |d.uniformBlocks| > 0 || |d.pushConstantBlocks| > 0 || |d.storageBlocks| > 0
    || |d.combinedImageSamplers| > 0 || |d.storageImages| > 0
  }

  // The document keys, lines 776-801.
  const NameKey := "name"
  const TypeKey := "type"
  const LocationKey := "location"
  const BindingKey := "binding"
  const SetKey := "set"
  const ImageFormatKey := "imageFormat"
  const ImageFlagsKey := "imageFlags"
  const OffsetKey := "offset"
  const ArrayDimsKey := "arrayDims"
  const ArrayStrideKey := "arrayStride"
  const MatrixStrideKey := "matrixStride"
  const MatrixRowMajorKey := "matrixRowMajor"
  const StructMembersKey := "structMembers"
  const MembersKey := "members"
  const InputsKey := "inputs"
  const OutputsKey := "outputs"
  const UniformBlocksKey := "uniformBlocks"
  const BlockNameKey := "blockName"
  const StructNameKey := "structName"
  const InstanceNameKey := "instanceName"
  const SizeKey := "size"
  const KnownSizeKey := "knownSize"
  const PushConstantBlocksKey := "pushConstantBlocks"
  const StorageBlocksKey := "storageBlocks"
  const CombinedImageSamplersKey := "combinedImageSamplers"
  const StorageImagesKey := "storageImages"

  const InOutKeys := {NameKey, TypeKey, LocationKey, BindingKey, SetKey, ImageFormatKey, ImageFlagsKey}
  const MemberKeys := {NameKey, TypeKey, OffsetKey, SizeKey, ArrayDimsKey, ArrayStrideKey, MatrixStrideKey,
                       MatrixRowMajorKey, StructMembersKey}
  const RootKeys := {InputsKey, OutputsKey, UniformBlocksKey, PushConstantBlocksKey, StorageBlocksKey,
                     CombinedImageSamplersKey, StorageImagesKey}

  // ---------------------------------------------------------------- encoding

  /** Insert `value` under `key` only when `cond` holds. */
  function PutIf(obj: Object, cond: bool, key: string, value: Value): Object
  {
    if cond then obj[key := value] else obj
  }

  /** addDeco (lines 803-815): each decoration is written only when it is set. */
  function AddDeco(obj: Object, v: InOutVariable, formats: Table<ImageFormat>): Object
  {
    var withLocation := PutIf(obj, v.location >= 0, LocationKey, Number(v.location));
    var withBinding := PutIf(withLocation, v.binding >= 0, BindingKey, Number(v.binding));
    var withSet := PutIf(withBinding, v.descriptorSet >= 0, SetKey, Number(v.descriptorSet));
    var withFormat :=
      PutIf(withSet, v.imageFormat != ImageFormatUnknown, ImageFormatKey, String(ImageFormatStr(formats, v.imageFormat)));
    PutIf(withFormat, v.imageFlags != 0, ImageFlagsKey, Number(v.imageFlags))
  }

  /** inOutObject (lines 817-824); makeDoc writes samplers and images the same way. */
  function InOutObject(v: InOutVariable, formats: Table<ImageFormat>): Object
  {
    AddDeco(map[NameKey := String(v.name), TypeKey := String(TypeStr(v.varType))], v, formats)
  }

  /** blockMemberObject (lines 826-852). */
  function BlockMemberObject(v: BlockVariable): Object
    decreases v, 1
  {
    var fixed := map[NameKey := String(v.name), TypeKey := String(TypeStr(v.varType)),
                     OffsetKey := Number(v.offset), SizeKey := Number(v.size)];
    var withDims := PutIf(fixed, |v.arrayDims| > 0, ArrayDimsKey, Array(Numbers(v.arrayDims)));
    var withArrayStride :=
      PutIf(withDims, v.arrayStride != 0, ArrayStrideKey, Number(v.arrayStride));
    var withMatrixStride :=
      PutIf(withArrayStride, v.matrixStride != 0, MatrixStrideKey, Number(v.matrixStride));
    var withRowMajor :=
      PutIf(withMatrixStride, v.matrixIsRowMajor, MatrixRowMajorKey, Value.Bool(true));
    PutIf(withRowMajor, |v.structMembers| > 0, StructMembersKey, Array(MemberObjects(v.structMembers)))
  }

  /** The member array of a block or struct, in member order. */
  function MemberObjects(ms: seq<BlockVariable>): seq<Value>
    decreases ms, 0
  {
    seq(|ms|, i requires 0 <= i < |ms| => Object(BlockMemberObject(ms[i])))
  }

  function Numbers(xs: seq<int>): seq<Value>
  {
    seq(|xs|, i requires 0 <= i < |xs| => Number(xs[i]))
  }

  function InOutObjects(vs: seq<InOutVariable>, formats: Table<ImageFormat>): seq<Value>
  {
    seq(|vs|, i requires 0 <= i < |vs| => Object(InOutObject(vs[i], formats)))
  }

  /** A uniform block as makeDoc writes it (lines 871-885). */
  function UniformBlockObject(b: UniformBlock): Object
  {
    var fixed := map[BlockNameKey := String(b.blockName), StructNameKey := String(b.structName),
                     SizeKey := Number(b.size)];
    var withBinding := PutIf(fixed, b.binding >= 0, BindingKey, Number(b.binding));
    var withSet := PutIf(withBinding, b.descriptorSet >= 0, SetKey, Number(b.descriptorSet));
    withSet[MembersKey := Array(MemberObjects(b.members))]
  }

  /** A push constant block as makeDoc writes it (lines 890-899). */
  function PushConstantBlockObject(b: PushConstantBlock): Object
  {
    map[NameKey := String(b.name), SizeKey := Number(b.size), MembersKey := Array(MemberObjects(b.members))]
  }

  /** A storage block as makeDoc writes it (lines 904-918). */
  function StorageBlockObject(b: StorageBlock): Object
  {
    var fixed := map[BlockNameKey := String(b.blockName), InstanceNameKey := String(b.instanceName),
                     KnownSizeKey := Number(b.knownSize)];
    var withBinding := PutIf(fixed, b.binding >= 0, BindingKey, Number(b.binding));
    var withSet := PutIf(withBinding, b.descriptorSet >= 0, SetKey, Number(b.descriptorSet));
    withSet[MembersKey := Array(MemberObjects(b.members))]
  }

  function UniformBlockObjects(bs: seq<UniformBlock>): seq<Value>
  {
    seq(|bs|, i requires 0 <= i < |bs| => Object(UniformBlockObject(bs[i])))
  }

  function PushConstantBlockObjects(bs: seq<PushConstantBlock>): seq<Value>
  {
    seq(|bs|, i requires 0 <= i < |bs| => Object(PushConstantBlockObject(bs[i])))
  }

  function StorageBlockObjects(bs: seq<StorageBlock>): seq<Value>
  {
    seq(|bs|, i requires 0 <= i < |bs| => Object(StorageBlockObject(bs[i])))
  }

  /** A root array is stored under its key only when it is not empty. */
  function PutNonEmpty(root: Object, key: string, arr: seq<Value>): Object
  {
    PutIf(root, |arr| > 0, key, Array(arr))
  }

  /** The root object makeDoc builds (lines 854-945). */
  function EncodeDescription(d: Description, formats: Table<ImageFormat>): Object
  {
    var r := PutNonEmpty(map[], InputsKey, InOutObjects(d.inVars, formats));
    var r := PutNonEmpty(r, OutputsKey, InOutObjects(d.outVars, formats));
    var r := PutNonEmpty(r, UniformBlocksKey, UniformBlockObjects(d.uniformBlocks));
    var r := PutNonEmpty(r, PushConstantBlocksKey, PushConstantBlockObjects(d.pushConstantBlocks));
    var r := PutNonEmpty(r, StorageBlocksKey, StorageBlockObjects(d.storageBlocks));
    var r := PutNonEmpty(r, CombinedImageSamplersKey, InOutObjects(d.combinedImageSamplers, formats));
    PutNonEmpty(r, StorageImagesKey, InOutObjects(d.storageImages, formats))
  }

  // ---------------------------------------------------------------- decoding

  /** inOutVar (lines 947-963): a decoration missing from the object keeps its default. */
  function InOutVar(obj: Object, formats: Table<ImageFormat>): InOutVariable
  {
    InOutVariable(
      ToStr(Get(obj, NameKey)),
      MapType(ToStr(Get(obj, TypeKey))),
      if LocationKey in obj then ToInt(obj[LocationKey]) else NoDecoration,
      if BindingKey in obj then ToInt(obj[BindingKey]) else NoDecoration,
      if SetKey in obj then ToInt(obj[SetKey]) else NoDecoration,
      if ImageFormatKey in obj then MapImageFormat(formats, ToStr(obj[ImageFormatKey])) else ImageFormatUnknown,
      if ImageFlagsKey in obj then ToInt(obj[ImageFlagsKey]) else 0)
  }

  /**
   * blockVar (lines 965-989) applied to `v.toObject()`, as every caller
   * does; a structMembers entry that is not an array reads as empty.
   */
  function BlockVar(v: Value): BlockVariable
    decreases v, 1
  {
    var obj := ToObject(v);
    BlockVariable(
      ToStr(Get(obj, NameKey)),
      MapType(ToStr(Get(obj, TypeKey))),
      ToInt(Get(obj, OffsetKey)),
      ToInt(Get(obj, SizeKey)),
      if ArrayDimsKey in obj then Ints(ToArray(obj[ArrayDimsKey])) else [],
      if ArrayStrideKey in obj then ToInt(obj[ArrayStrideKey]) else 0,
      if MatrixStrideKey in obj then ToInt(obj[MatrixStrideKey]) else 0,
      if MatrixRowMajorKey in obj then ToBool(obj[MatrixRowMajorKey]) else false,
      if v.Object? && StructMembersKey in v.fields && v.fields[StructMembersKey].Array?
      then BlockVars(v.fields[StructMembersKey].items)
      else [])
  }

  function BlockVars(items: seq<Value>): seq<BlockVariable>
    decreases items, 0
  {
    seq(|items|, i requires 0 <= i < |items| => BlockVar(items[i]))
  }

  function Ints(items: seq<Value>): seq<int>
  {
    seq(|items|, i requires 0 <= i < |items| => ToInt(items[i]))
  }

  function InOutVars(items: seq<Value>, formats: Table<ImageFormat>): seq<InOutVariable>
  {
    seq(|items|, i requires 0 <= i < |items| => InOutVar(ToObject(items[i]), formats))
  }

  /** A uniform block as loadDoc reads it (lines 1024-1038). */
  function UniformBlockFrom(obj: Object): UniformBlock
  {
    UniformBlock(
      ToStr(Get(obj, BlockNameKey)),
      ToStr(Get(obj, StructNameKey)),
      ToInt(Get(obj, SizeKey)),
      if BindingKey in obj then ToInt(obj[BindingKey]) else NoDecoration,
      if SetKey in obj then ToInt(obj[SetKey]) else NoDecoration,
      BlockVars(ToArray(Get(obj, MembersKey))))
  }

  /** A push constant block as loadDoc reads it (lines 1043-1051). */
  function PushConstantBlockFrom(obj: Object): PushConstantBlock
  {
    PushConstantBlock(ToStr(Get(obj, NameKey)), ToInt(Get(obj, SizeKey)), BlockVars(ToArray(Get(obj, MembersKey))))
  }

  /** A storage block as loadDoc reads it (lines 1057-1070). */
  function StorageBlockFrom(obj: Object): StorageBlock
  {
    StorageBlock(
      ToStr(Get(obj, BlockNameKey)),
      ToStr(Get(obj, InstanceNameKey)),
      ToInt(Get(obj, KnownSizeKey)),
      if BindingKey in obj then ToInt(obj[BindingKey]) else NoDecoration,
      if SetKey in obj then ToInt(obj[SetKey]) else NoDecoration,
      BlockVars(ToArray(Get(obj, MembersKey))))
  }

  function UniformBlocksFrom(items: seq<Value>): seq<UniformBlock>
  {
    seq(|items|, i requires 0 <= i < |items| => UniformBlockFrom(ToObject(items[i])))
  }

  function PushConstantBlocksFrom(items: seq<Value>): seq<PushConstantBlock>
  {
    seq(|items|, i requires 0 <= i < |items| => PushConstantBlockFrom(ToObject(items[i])))
  }

  function StorageBlocksFrom(items: seq<Value>): seq<StorageBlock>
  {
    seq(|items|, i requires 0 <= i < |items| => StorageBlockFrom(ToObject(items[i])))
  }

  /** The array under a root key, or nothing when the key is missing. */
  function Section(root: Object, key: string): seq<Value>
  {
    if key in root then ToArray(root[key]) else []
  }

  /**
   * loadDoc (lines 991-1085) as a function of the old collections: a null
   * document leaves them alone; any other document replaces all seven.
   */
  function DecodeDocument(doc: Document, current: Description, formats: Table<ImageFormat>): Description
  {
    if doc.NullDocument? then current
    else
      var root := DocObject(doc);
      Description(
        InOutVars(Section(root, InputsKey), formats),
        InOutVars(Section(root, OutputsKey), formats),
        UniformBlocksFrom(Section(root, UniformBlocksKey)),
        PushConstantBlocksFrom(Section(root, PushConstantBlocksKey)),
        StorageBlocksFrom(Section(root, StorageBlocksKey)),
        InOutVars(Section(root, CombinedImageSamplersKey), formats),
        InOutVars(Section(root, StorageImagesKey), formats))
  }
}
