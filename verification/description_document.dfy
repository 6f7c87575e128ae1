/**
 * QShaderDescriptionPrivate (src/gui/rhi/qshaderdescription.cpp): the
 * seven collections as fields, makeDoc building the document with append
 * loops, and loadDoc clearing the fields and refilling them from a
 * document. Each method is proved against the codec functions of
 * ShaderDescription, whose properties DescriptionLaws states.
 */
module DescriptionDocument {
  import opened Json
  import opened TokenTable
  import opened ShaderTypes
  import opened ShaderDescription

  class DescriptionPrivate {
    var inVars: seq<InOutVariable>
    var outVars: seq<InOutVariable>
    var uniformBlocks: seq<UniformBlock>
    var pushConstantBlocks: seq<PushConstantBlock>
    var storageBlocks: seq<StorageBlock>
    var combinedImageSamplers: seq<InOutVariable>
    var storageImages: seq<InOutVariable>

    /** The description these fields hold. */
    function Value(): Description
      reads this
    {
      Description(inVars, outVars, uniformBlocks, pushConstantBlocks, storageBlocks,
                  combinedImageSamplers, storageImages)
    }

    /** A new description is empty, hence not valid (lines 272-281). */
    constructor()
      ensures Value() == EmptyDescription && !IsValid(Value())
    {
      inVars := [];
      outVars := [];
      uniformBlocks := [];
      pushConstantBlocks := [];
      storageBlocks := [];
      combinedImageSamplers := [];
      storageImages := [];
    }

    /** makeDoc (lines 854-945): the object document of the current collections. */
    method MakeDoc(formats: Table<ImageFormat>) returns (doc: Document)
      ensures doc == ObjectDocument(EncodeDescription(Value(), formats))
    {
      var root: Object := map[];

      var jinputs := InOutArray(inVars, formats);
      root := InsertNonEmpty(root, InputsKey, jinputs);

      var joutputs := InOutArray(outVars, formats);
      root := InsertNonEmpty(root, OutputsKey, joutputs);

      var juniformBlocks := UniformBlockArray(uniformBlocks);
      root := InsertNonEmpty(root, UniformBlocksKey, juniformBlocks);

      var jpushConstantBlocks := PushConstantBlockArray(pushConstantBlocks);
      root := InsertNonEmpty(root, PushConstantBlocksKey, jpushConstantBlocks);

      var jstorageBlocks := StorageBlockArray(storageBlocks);
      root := InsertNonEmpty(root, StorageBlocksKey, jstorageBlocks);

      var jcombinedSamplers := InOutArray(combinedImageSamplers, formats);
      root := InsertNonEmpty(root, CombinedImageSamplersKey, jcombinedSamplers);

      var jstorageImages := InOutArray(storageImages, formats);
      root := InsertNonEmpty(root, StorageImagesKey, jstorageImages);

      doc := ObjectDocument(root);
    }

    /**
     * loadDoc (lines 991-1085): a null document leaves every collection as
     * it was; any other document replaces all seven, each by the entries
     * read from its key in array order (none when the key is missing).
     */
    method LoadDoc(doc: Document, formats: Table<ImageFormat>)
      modifies this
      ensures Value() == DecodeDocument(doc, old(Value()), formats)
    {
      if doc.NullDocument? {
        return;
      }

      var root := DocObject(doc);
      var inputs := ReadInOuts(Section(root, InputsKey), formats);
      var outputs := ReadInOuts(Section(root, OutputsKey), formats);
      var ubs := ReadUniformBlocks(Section(root, UniformBlocksKey));
      var pcs := ReadPushConstantBlocks(Section(root, PushConstantBlocksKey));
      var sbs := ReadStorageBlocks(Section(root, StorageBlocksKey));
      var samplers := ReadInOuts(Section(root, CombinedImageSamplersKey), formats);
      var images := ReadInOuts(Section(root, StorageImagesKey), formats);

      inVars, outVars, uniformBlocks, pushConstantBlocks := inputs, outputs, ubs, pcs;
      storageBlocks, combinedImageSamplers, storageImages := sbs, samplers, images;
    }
  }

  /**
   * fromBinaryJson (lines 355-360) on the document the binary data decodes
   * to: a fresh description loaded from it, so a null document gives an
   * invalid one.
   */
  method FromBinaryJson(doc: Document, formats: Table<ImageFormat>) returns (d: Description)
    ensures d == DecodeDocument(doc, EmptyDescription, formats)
    ensures doc.NullDocument? ==> !IsValid(d)
  {
    var desc := new DescriptionPrivate();
    desc.LoadDoc(doc, formats);
    d := desc.Value();
  }

  // ---------------------------------------------------------------- makeDoc's loops

  /** Insert `arr` under `key` only when it has elements. */
  method InsertNonEmpty(root: Object, key: string, arr: seq<Value>) returns (r: Object)
    ensures r == PutNonEmpty(root, key, arr)
  {
    r := root;
    if |arr| > 0 {
      r := r[key := Array(arr)];
    }
  }

  /** The loop over in-out variables (lines 858-860 and the three like it). */
  method InOutArray(vs: seq<InOutVariable>, formats: Table<ImageFormat>) returns (arr: seq<Value>)
    ensures arr == InOutObjects(vs, formats)
  {
    arr := [];
    for i := 0 to |vs|
      invariant |arr| == i
      invariant forall j :: 0 <= j < i ==> arr[j] == Object(InOutObject(vs[j], formats))
    {
      arr := arr + [Object(InOutObject(vs[i], formats))];
    }
  }

  /** The loop over a block's members (lines 880-882 and the two like it). */
  method MemberArray(ms: seq<BlockVariable>) returns (arr: seq<Value>)
    ensures arr == MemberObjects(ms)
  {
    arr := [];
    for i := 0 to |ms|
      invariant |arr| == i
      invariant forall j :: 0 <= j < i ==> arr[j] == Object(BlockMemberObject(ms[j]))
    {
      arr := arr + [Object(BlockMemberObject(ms[i]))];
    }
  }

  /** The uniform block loop (lines 870-886). */
  method UniformBlockArray(bs: seq<UniformBlock>) returns (arr: seq<Value>)
    ensures arr == UniformBlockObjects(bs)
  {
    arr := [];
    for i := 0 to |bs|
      invariant |arr| == i
      invariant forall j :: 0 <= j < i ==> arr[j] == Object(UniformBlockObject(bs[j]))
    {
      var b := bs[i];
      var obj: Object := map[];
      obj := obj[BlockNameKey := String(b.blockName)];
      obj := obj[StructNameKey := String(b.structName)];
      obj := obj[SizeKey := Number(b.size)];
      if b.binding >= 0 {
        obj := obj[BindingKey := Number(b.binding)];
      }
      if b.descriptorSet >= 0 {
        obj := obj[SetKey := Number(b.descriptorSet)];
      }
      var members := MemberArray(b.members);
      obj := obj[MembersKey := Array(members)];
      arr := arr + [Object(obj)];
    }
  }

  /** The push constant block loop (lines 889-900). */
  method PushConstantBlockArray(bs: seq<PushConstantBlock>) returns (arr: seq<Value>)
    ensures arr == PushConstantBlockObjects(bs)
  {
    arr := [];
    for i := 0 to |bs|
      invariant |arr| == i
      invariant forall j :: 0 <= j < i ==> arr[j] == Object(PushConstantBlockObject(bs[j]))
    {
      var b := bs[i];
      var obj: Object := map[];
      obj := obj[NameKey := String(b.name)];
      obj := obj[SizeKey := Number(b.size)];
      var members := MemberArray(b.members);
      obj := obj[MembersKey := Array(members)];
      arr := arr + [Object(obj)];
    }
  }

  /** The storage block loop (lines 903-919). */
  method StorageBlockArray(bs: seq<StorageBlock>) returns (arr: seq<Value>)
    ensures arr == StorageBlockObjects(bs)
  {
    arr := [];
    for i := 0 to |bs|
      invariant |arr| == i
      invariant forall j :: 0 <= j < i ==> arr[j] == Object(StorageBlockObject(bs[j]))
    {
      var b := bs[i];
      var obj: Object := map[];
      obj := obj[BlockNameKey := String(b.blockName)];
      obj := obj[InstanceNameKey := String(b.instanceName)];
      obj := obj[KnownSizeKey := Number(b.knownSize)];
      if b.binding >= 0 {
        obj := obj[BindingKey := Number(b.binding)];
      }
      if b.descriptorSet >= 0 {
        obj := obj[SetKey := Number(b.descriptorSet)];
      }
      var members := MemberArray(b.members);
      obj := obj[MembersKey := Array(members)];
      arr := arr + [Object(obj)];
    }
  }

  // ---------------------------------------------------------------- loadDoc's loops

  /** The loop over an in-out array (lines 1012-1013 and the three like it). */
  method ReadInOuts(items: seq<Value>, formats: Table<ImageFormat>) returns (vs: seq<InOutVariable>)
    ensures vs == InOutVars(items, formats)
  {
    vs := [];
    for i := 0 to |items|
      invariant |vs| == i
      invariant forall j :: 0 <= j < i ==> vs[j] == InOutVar(ToObject(items[j]), formats)
    {
      vs := vs + [InOutVar(ToObject(items[i]), formats)];
    }
  }

  /** The loop over a block's member array (lines 1035-1036 and the two like it). */
  method ReadMembers(items: seq<Value>) returns (ms: seq<BlockVariable>)
    ensures ms == BlockVars(items)
  {
    ms := [];
    for i := 0 to |items|
      invariant |ms| == i
      invariant forall j :: 0 <= j < i ==> ms[j] == BlockVar(items[j])
    {
      ms := ms + [BlockVar(items[i])];
    }
  }

  /** The uniform block loop (lines 1024-1038). */
  method ReadUniformBlocks(items: seq<Value>) returns (bs: seq<UniformBlock>)
    ensures bs == UniformBlocksFrom(items)
  {
    bs := [];
    for i := 0 to |items|
      invariant |bs| == i
      invariant forall j :: 0 <= j < i ==> bs[j] == UniformBlockFrom(ToObject(items[j]))
    {
      var ubObj := ToObject(items[i]);
      var binding := NoDecoration;
      if BindingKey in ubObj {
        binding := ToInt(ubObj[BindingKey]);
      }
      var descriptorSet := NoDecoration;
      if SetKey in ubObj {
        descriptorSet := ToInt(ubObj[SetKey]);
      }
      var members := ReadMembers(ToArray(Get(ubObj, MembersKey)));
      var ub := UniformBlock(ToStr(Get(ubObj, BlockNameKey)), ToStr(Get(ubObj, StructNameKey)),
                             ToInt(Get(ubObj, SizeKey)), binding, descriptorSet, members);
      bs := bs + [ub];
    }
  }

  /** The push constant block loop (lines 1043-1051). */
  method ReadPushConstantBlocks(items: seq<Value>) returns (bs: seq<PushConstantBlock>)
    ensures bs == PushConstantBlocksFrom(items)
  {
    bs := [];
    for i := 0 to |items|
      invariant |bs| == i
      invariant forall j :: 0 <= j < i ==> bs[j] == PushConstantBlockFrom(ToObject(items[j]))
    {
      var pcObj := ToObject(items[i]);
      var members := ReadMembers(ToArray(Get(pcObj, MembersKey)));
      var pc := PushConstantBlock(ToStr(Get(pcObj, NameKey)), ToInt(Get(pcObj, SizeKey)), members);
      bs := bs + [pc];
    }
  }

  /** The storage block loop (lines 1057-1070). */
  method ReadStorageBlocks(items: seq<Value>) returns (bs: seq<StorageBlock>)
    ensures bs == StorageBlocksFrom(items)
  {
    bs := [];
    for i := 0 to |items|
      invariant |bs| == i
      invariant forall j :: 0 <= j < i ==> bs[j] == StorageBlockFrom(ToObject(items[j]))
    {
      var sbObj := ToObject(items[i]);
      var binding := NoDecoration;
      if BindingKey in sbObj {
        binding := ToInt(sbObj[BindingKey]);
      }
      var descriptorSet := NoDecoration;
      if SetKey in sbObj {
        descriptorSet := ToInt(sbObj[SetKey]);
      }
      var members := ReadMembers(ToArray(Get(sbObj, MembersKey)));
      var sb := StorageBlock(ToStr(Get(sbObj, BlockNameKey)), ToStr(Get(sbObj, InstanceNameKey)),
                             ToInt(Get(sbObj, KnownSizeKey)), binding, descriptorSet, members);
      bs := bs + [sb];
    }
  }
}
