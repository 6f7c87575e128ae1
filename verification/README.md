# Qt RHI shader description and null backend, in Dafny

This project models two parts of Qt's rendering hardware interface (QRhi).

**The shader interface description** (`src/gui/rhi/qshaderdescription.cpp`)
describes what a shader exposes:
- its stage inputs and outputs, combined image samplers and storage images (`InOutVariable`);
- its uniform, push-constant and storage blocks, whose members (`BlockVariable`) nest through `structMembers`.

The class has a JSON codec:
- `makeDoc` writes a description as a JSON object and leaves out every field that holds its default.
- `loadDoc` rebuilds a description from such a document, falling back to the defaults.
- Variable types and image formats travel as tokens. Two first-match tables translate them (`typeTab`, `imageFormatTab`).

The model is split into modules:
- `Json`: the JSON value model and Qt's lenient accessors.
- `TokenTable`: the first-match searches behind `typeStr`/`mapType` and `imageFormatStr`/`mapImageFormat`, with their generic laws.
- `ShaderTypes`: the two vocabularies and their tables.
- `ShaderDescription`: the records, `isValid`, and the codec as functions on values.
- `DescriptionLaws`: the properties of the codec:
  - which keys each object carries;
  - exact round trips, with their side conditions;
  - validity as seen in the encoded document.
- `DescriptionDocument`: the private object as a class whose seven fields are sequences:
  - `MakeDoc` and `LoadDoc` are methods with append loops, proved against the codec functions;
  - `FromBinaryJson` works at the document level.

Every codec member takes the image-format table as a parameter, so the codec can run on either of two tables:
- `ImageFormatTab`, the table as written;
- `CorrectedImageFormatTab`, the same table with line 626 fixed (see Findings).

**The null backend** (`src/gui/rhi/qrhinull.cpp`) is a QRhi backend that does no device work. Module `NullBackend` models it with one class per resource kind:
- the frame state: the current swap chain and the swap chain's frame count;
- the pixel-size rule of texture render targets;
- the constant capability answers;
- the zero-filled texture readbacks that `resourceUpdate` synthesises.

Two helpers are defined elsewhere in QRhi and are passed in as function parameters: `sizeForMipLevel`, and the byte size from `textureFormatInfo`.

## Model

| member | source | states |
|---|---|---|
| TokenTable.TokenOfFound | src/gui/rhi/qshaderdescription.cpp:602-609 | for a value that has a row, the token found is the token of a row carrying that value |
| TokenTable.TokenOfMissing | src/gui/rhi/qshaderdescription.cpp:602-609 | a value with no row yields the empty string |
| TokenTable.ValueOfFound | src/gui/rhi/qshaderdescription.cpp:611-618 | for a token that has a row, the value found is the value of a row carrying that token |
| TokenTable.ValueOfMissing | src/gui/rhi/qshaderdescription.cpp:611-618 | a token with no row yields the fallback value |
| TokenTable.ValueOfFirstRow | src/gui/rhi/qshaderdescription.cpp:675-682 | the first row carrying a token decides the lookup |
| TokenTable.RoundTrip | src/gui/rhi/qshaderdescription.cpp:602-618 | when tokens determine values, looking up the token of a tabled value gives that value back |
| TokenTable.ValueOfAbsentIff | src/gui/rhi/qshaderdescription.cpp:611-618 | when no row carries the fallback, the lookup gives the fallback exactly for strings that are not tokens |
| ShaderTypes.TypeTabNamed | src/gui/rhi/qshaderdescription.cpp:525-600 | every token of typeTab determines its type, and no row names Unknown |
| ShaderTypes.TypeTabCovers | src/gui/rhi/qshaderdescription.cpp:525-600 | every variable type except Unknown has a row in typeTab |
| ShaderTypes.TypeTokensIn | src/gui/rhi/qshaderdescription.cpp:602-618 | over any such table, the token is empty exactly for Unknown and every type comes back from its token |
| ShaderTypes.TypeStrEmptyIffUnknown | src/gui/rhi/qshaderdescription.cpp:602-609 | typeStr returns the empty string exactly for Unknown |
| ShaderTypes.TypeRoundTrip | src/gui/rhi/qshaderdescription.cpp:525-618 | mapType(typeStr(t)) == t for every type; Unknown travels as "" |
| ShaderTypes.MapTypeUnknownIff | src/gui/rhi/qshaderdescription.cpp:611-618 | mapType answers Unknown exactly for strings that are not in typeTab |
| ShaderTypes.ImageFormatTabNamed | src/gui/rhi/qshaderdescription.cpp:620-664 | every token of imageFormatTab determines its format, except that "rgba16" is also on the ImageFormatRgba16f row; those two formats are written only as "rgba16" |
| ShaderTypes.ImageFormatTabCovers | src/gui/rhi/qshaderdescription.cpp:620-664 | every image format, the unknown one included, has a row |
| ShaderTypes.CorrectedImageFormatTabCovers | src/gui/rhi/qshaderdescription.cpp:620-664 | the corrected table also has a row for every image format |
| ShaderTypes.FormatTokensIn | src/gui/rhi/qshaderdescription.cpp:666-682 | over any table named like imageFormatTab, both 16-bit RGBA formats are written "rgba16", and a format comes back from its token iff it is not ImageFormatRgba16 |
| ShaderTypes.Rgba16FirstRow | src/gui/rhi/qshaderdescription.cpp:624-626 | mapImageFormat("rgba16") is ImageFormatRgba16f, because line 626 is its first row |
| ShaderTypes.UnknownFirstRow | src/gui/rhi/qshaderdescription.cpp:624 | mapImageFormat("unknown") is ImageFormatUnknown |
| ShaderTypes.Rgba16TokenCollision | src/gui/rhi/qshaderdescription.cpp:626-634 | ImageFormatRgba16 and ImageFormatRgba16f are both written "rgba16", and ImageFormatRgba16 decodes to ImageFormatRgba16f |
| ShaderTypes.ImageFormatRoundTrip | src/gui/rhi/qshaderdescription.cpp:620-682 | with the table as written, mapImageFormat(imageFormatStr(f)) == f iff f is not ImageFormatRgba16 |
| ShaderTypes.MapImageFormatUnknownIff | src/gui/rhi/qshaderdescription.cpp:675-682 | mapImageFormat answers ImageFormatUnknown exactly for "unknown" and for strings that are not in the table |
| ShaderTypes.CorrectedImageFormatRoundTrip | src/gui/rhi/qshaderdescription.cpp:620-682 | with line 626 corrected, every image format comes back from its token |
| DescriptionLaws.InOutObjectFixedKeys | src/gui/rhi/qshaderdescription.cpp:817-824 | an in-out object has only in-out keys, and always holds the name and the type token |
| DescriptionLaws.InOutObjectDecorations | src/gui/rhi/qshaderdescription.cpp:803-815 | location, binding and set are present iff ≥ 0; imageFormat iff not unknown; imageFlags iff non-zero; each present key holds its field's value |
| DescriptionLaws.InOutRoundTrip | src/gui/rhi/qshaderdescription.cpp:947-963 | inOutVar(inOutObject(v)) == v iff every decoration is ≥ 0 or exactly -1 and the image format survives the table; lines 803-824 write what is read back |
| DescriptionLaws.InOutsRoundTrip | src/gui/rhi/qshaderdescription.cpp:1010-1020 | a list of in-out variables comes back unchanged and in order iff each of them does; lines 858-868 write what is read back |
| DescriptionLaws.BlockMemberObjectKeySet | src/gui/rhi/qshaderdescription.cpp:826-852 | a member object has no key outside the member keys |
| DescriptionLaws.BlockMemberObjectOmits | src/gui/rhi/qshaderdescription.cpp:826-852 | arrayDims, arrayStride, matrixStride, matrixRowMajor and structMembers are present iff their field is not the default |
| DescriptionLaws.BlockMemberObjectFixedValues | src/gui/rhi/qshaderdescription.cpp:828-832 | name, type token, offset and size are always present with the member's values |
| DescriptionLaws.BlockMemberObjectOptionalValues | src/gui/rhi/qshaderdescription.cpp:833-850 | each optional key that is present holds its field's value; nested members are encoded in order |
| DescriptionLaws.DocumentedMemberObjects | src/gui/rhi/qshaderdescription.cpp:107-152 | in the documented example, mvp carries matrixStride 16 besides the four fixed keys, and opacity carries only the four fixed keys |
| DescriptionLaws.BlockVarRoundTrip | src/gui/rhi/qshaderdescription.cpp:965-989 | blockVar(blockMemberObject(v)) == v for every member at any nesting depth, with no side condition; lines 826-852 write what is read back |
| DescriptionLaws.MembersRoundTrip | src/gui/rhi/qshaderdescription.cpp:984-986 | a member list comes back unchanged and in order; lines 880-883 write what is read back |
| DescriptionLaws.UniformBlockObjectKeys | src/gui/rhi/qshaderdescription.cpp:870-885 | a uniform block object always holds blockName, structName, size and members; binding and set are present iff ≥ 0 |
| DescriptionLaws.UniformBlockRoundTrip | src/gui/rhi/qshaderdescription.cpp:1022-1039 | a uniform block comes back unchanged iff its binding and set are ≥ 0 or exactly -1; lines 870-885 write what is read back |
| DescriptionLaws.PushConstantBlockObjectKeys | src/gui/rhi/qshaderdescription.cpp:889-899 | a push-constant block object has exactly the keys name, size and members |
| DescriptionLaws.PushConstantBlockRoundTrip | src/gui/rhi/qshaderdescription.cpp:1041-1053 | a push-constant block always comes back unchanged; lines 889-899 write what is read back |
| DescriptionLaws.StorageBlockObjectKeys | src/gui/rhi/qshaderdescription.cpp:903-918 | a storage block object always holds blockName, instanceName, knownSize and members; binding and set are present iff ≥ 0 |
| DescriptionLaws.StorageBlockRoundTrip | src/gui/rhi/qshaderdescription.cpp:1055-1072 | a storage block comes back unchanged iff its binding and set are ≥ 0 or exactly -1; lines 903-918 write what is read back |
| DescriptionLaws.UniformBlocksRoundTrip | src/gui/rhi/qshaderdescription.cpp:1022-1039 | a uniform block list comes back unchanged and in order iff every block's decorations survive; lines 870-887 write what is read back |
| DescriptionLaws.PushConstantBlocksRoundTrip | src/gui/rhi/qshaderdescription.cpp:1041-1053 | a push-constant block list always comes back unchanged and in order; lines 889-901 write what is read back |
| DescriptionLaws.StorageBlocksRoundTrip | src/gui/rhi/qshaderdescription.cpp:1055-1072 | a storage block list comes back unchanged and in order iff every block's decorations survive; lines 903-920 write what is read back |
| DescriptionLaws.EncodeDescriptionKeySet | src/gui/rhi/qshaderdescription.cpp:854-945 | makeDoc's root has no key beyond the seven collection keys |
| DescriptionLaws.EncodeDescriptionVariableKeys | src/gui/rhi/qshaderdescription.cpp:858-942 | inputs, outputs, combinedImageSamplers and storageImages are present iff their collection is non-empty |
| DescriptionLaws.EncodeDescriptionBlockKeys | src/gui/rhi/qshaderdescription.cpp:870-920 | uniformBlocks, pushConstantBlocks and storageBlocks are present iff their collection is non-empty |
| DescriptionLaws.EncodeDescriptionVariableSections | src/gui/rhi/qshaderdescription.cpp:858-942 | each of inputs, outputs, combinedImageSamplers and storageImages holds its collection's objects in order |
| DescriptionLaws.EncodeDescriptionBlockSections | src/gui/rhi/qshaderdescription.cpp:870-920 | each block section holds its collection's objects in order |
| DescriptionLaws.IsValidIffEncodedNonEmpty | src/gui/rhi/qshaderdescription.cpp:322-327 | isValid holds iff makeDoc writes a non-empty root, that is iff some collection is non-empty |
| DescriptionLaws.FitsByList | src/gui/rhi/qshaderdescription.cpp:991-1085 | the document-level side condition is the conjunction of the per-collection ones |
| DescriptionLaws.DocumentRoundTrip | src/gui/rhi/qshaderdescription.cpp:991-1085 | loading the document makeDoc writes, whatever the previous contents, gives the description back iff every decoration and image format survives; lines 854-945 write what is read back |
| DescriptionLaws.DocumentRoundTripAsWritten | src/gui/rhi/qshaderdescription.cpp:854-1085 | with the table as written, the round trip holds iff every decoration is ≥ 0 or -1 and no variable uses ImageFormatRgba16, because of the token collision in the table at lines 620-682 |
| DescriptionLaws.CorrectedDocumentRoundTrip | src/gui/rhi/qshaderdescription.cpp:854-1085 | with the corrected table, the round trip holds iff every decoration is ≥ 0 or -1 |
| DescriptionDocument.DescriptionPrivate.constructor | src/gui/rhi/qshaderdescription.cpp:272-281 | a new description has seven empty collections and is not valid |
| DescriptionDocument.DescriptionPrivate.MakeDoc | src/gui/rhi/qshaderdescription.cpp:854-945 | the append loops build exactly the encoded object of the current fields |
| DescriptionDocument.DescriptionPrivate.LoadDoc | src/gui/rhi/qshaderdescription.cpp:991-1085 | a null document leaves the fields alone; any other document replaces all seven by what is read from its keys |
| DescriptionDocument.FromBinaryJson | src/gui/rhi/qshaderdescription.cpp:355-360 | the result is a fresh description loaded from the document; a null document gives an invalid one |
| DescriptionDocument.InsertNonEmpty | src/gui/rhi/qshaderdescription.cpp:861-862 | a section array is inserted only when it has elements |
| DescriptionDocument.InOutArray | src/gui/rhi/qshaderdescription.cpp:858-860 | the loop appends the object of each variable in order |
| DescriptionDocument.MemberArray | src/gui/rhi/qshaderdescription.cpp:880-883 | the loop appends the object of each member in order |
| DescriptionDocument.UniformBlockArray | src/gui/rhi/qshaderdescription.cpp:870-885 | the loop appends the object of each uniform block in order |
| DescriptionDocument.PushConstantBlockArray | src/gui/rhi/qshaderdescription.cpp:889-899 | the loop appends the object of each push-constant block in order |
| DescriptionDocument.StorageBlockArray | src/gui/rhi/qshaderdescription.cpp:903-918 | the loop appends the object of each storage block in order |
| DescriptionDocument.ReadInOuts | src/gui/rhi/qshaderdescription.cpp:1010-1014 | the loop decodes each element in array order |
| DescriptionDocument.ReadMembers | src/gui/rhi/qshaderdescription.cpp:1033-1036 | the loop decodes each member in array order |
| DescriptionDocument.ReadUniformBlocks | src/gui/rhi/qshaderdescription.cpp:1022-1039 | the loop decodes each uniform block in array order |
| DescriptionDocument.ReadPushConstantBlocks | src/gui/rhi/qshaderdescription.cpp:1041-1053 | the loop decodes each push-constant block in array order |
| DescriptionDocument.ReadStorageBlocks | src/gui/rhi/qshaderdescription.cpp:1055-1072 | the loop decodes each storage block in array order |
| NullBackend.NullRhi.SupportedSampleCounts | src/gui/rhi/qrhinull.cpp:89-92 | the only sample count is 1 |
| NullBackend.NullRhi.UbufAlignment | src/gui/rhi/qrhinull.cpp:104-107 | uniform buffers align to 256 bytes |
| NullBackend.NullRhi.IsYUpInFramebuffer | src/gui/rhi/qrhinull.cpp:109-112 | Y does not point up in the framebuffer |
| NullBackend.NullRhi.IsYUpInNDC | src/gui/rhi/qrhinull.cpp:114-117 | Y points up in normalized device coordinates |
| NullBackend.NullRhi.IsClipDepthZeroToOne | src/gui/rhi/qrhinull.cpp:119-122 | clip-space depth runs from 0 to 1 |
| NullBackend.NullRhi.IsTextureFormatSupported | src/gui/rhi/qrhinull.cpp:129-134 | every format is supported, with any flags |
| NullBackend.NullRhi.IsFeatureSupported | src/gui/rhi/qrhinull.cpp:136-140 | every feature is supported |
| NullBackend.NullRhi.ResourceLimitOf | src/gui/rhi/qrhinull.cpp:142-157 | the limits are 1, 16384, 8 and 2 for TextureSizeMin, TextureSizeMax, MaxColorAttachments and FramesInFlight |
| NullBackend.NullRhi.constructor | src/gui/rhi/qrhinull.cpp:73-77 | there is no current swap chain at first; the backend owns one offscreen command buffer |
| NullBackend.NullRhi.BeginFrame | src/gui/rhi/qrhinull.cpp:335-342 | the swap chain becomes the current one; the result is success |
| NullBackend.NullRhi.EndFrame | src/gui/rhi/qrhinull.cpp:344-354 | the swap chain's frame count grows by exactly one, nothing else of it changes, there is no current swap chain any more, and the result is success; the swap chain stays valid |
| NullBackend.NullRhi.BeginOffscreenFrame | src/gui/rhi/qrhinull.cpp:356-360 | hands out the single offscreen command buffer and succeeds, with no state change |
| NullBackend.NullRhi.EndOffscreenFrame | src/gui/rhi/qrhinull.cpp:362-365 | succeeds with no state change |
| NullBackend.NullRhi.Finish | src/gui/rhi/qrhinull.cpp:367-370 | succeeds with no state change |
| NullBackend.NullRhi.DeliverRead | src/gui/rhi/qrhinull.cpp:377-392 | one read: format and size from the texture, with the size taken at the mip level; for the swap chain, RGBA8 and its current size; then byteSize zero bytes; the callback is called once if it is set |
| NullBackend.NullRhi.ApplyTextureOp | src/gui/rhi/qrhinull.cpp:376-394 | applying one more operation extends the delivered state from a prefix of the batch to the next prefix; operations other than reads change nothing |
| NullBackend.NullRhi.ResourceUpdate | src/gui/rhi/qrhinull.cpp:372-396 | every result holds what the last read into it reports, with zero-filled data; a result's callback is called once per read into it when it is set; the batch is emptied; a swap-chain read needs a current swap chain |
| NullBackend.LastReadIsLast | src/gui/rhi/qrhinull.cpp:376-394 | the read a result ends up holding is the last read into it; there is one exactly when the result is a target of the batch |
| NullBackend.ReadCountPositive | src/gui/rhi/qrhinull.cpp:376-394 | a result's callback is called iff some read goes into it |
| NullBackend.NullRhi.BeginPass | src/gui/rhi/qrhinull.cpp:398-409 | a non-null batch is applied as resourceUpdate applies it; with no batch nothing changes |
| NullBackend.NullRhi.EndPass | src/gui/rhi/qrhinull.cpp:411-415 | a non-null batch is applied as resourceUpdate applies it; with no batch nothing changes |
| NullBackend.NullRhi.BeginComputePass | src/gui/rhi/qrhinull.cpp:417-421 | a non-null batch is applied as resourceUpdate applies it; with no batch nothing changes |
| NullBackend.NullRhi.EndComputePass | src/gui/rhi/qrhinull.cpp:423-427 | a non-null batch is applied as resourceUpdate applies it; with no batch nothing changes |
| NullBackend.NullBuffer.constructor | src/gui/rhi/qrhinull.cpp:429-432 | a buffer keeps the size it is created with |
| NullBackend.NullRenderBuffer.constructor | src/gui/rhi/qrhinull.cpp:452-456 | a render buffer keeps the type and pixel size it is created with |
| NullBackend.NullTexture.constructor | src/gui/rhi/qrhinull.cpp:481-485 | a texture keeps the format and pixel size it is created with |
| NullBackend.NullReferenceRenderTarget.constructor | src/gui/rhi/qrhinull.cpp:560-564 | a swap chain's render target starts with no render pass descriptor and the invalid size (-1, -1) of a default QSize |
| NullBackend.NullTextureRenderTarget.constructor | src/gui/rhi/qrhinull.cpp:590-596 | a texture render target keeps its description, and starts with no render pass descriptor and the invalid size (-1, -1) |
| NullBackend.NullBuffer.Build | src/gui/rhi/qrhinull.cpp:445-450 | always succeeds and changes nothing |
| NullBackend.NullBuffer.Release | src/gui/rhi/qrhinull.cpp:439-443 | changes nothing, so releasing twice is harmless |
| NullBackend.NullRenderBuffer.Build | src/gui/rhi/qrhinull.cpp:469-474 | always succeeds and changes nothing |
| NullBackend.NullRenderBuffer.Release | src/gui/rhi/qrhinull.cpp:463-467 | changes nothing |
| NullBackend.NullRenderBuffer.BackingFormat | src/gui/rhi/qrhinull.cpp:476-479 | RGBA8 exactly for colour buffers, UnknownFormat exactly for the others |
| NullBackend.NullTexture.Build | src/gui/rhi/qrhinull.cpp:498-507 | always succeeds and changes nothing |
| NullBackend.NullTexture.BuildFrom | src/gui/rhi/qrhinull.cpp:509-519 | always succeeds and changes nothing |
| NullBackend.NullTexture.Release | src/gui/rhi/qrhinull.cpp:492-496 | changes nothing |
| NullBackend.NullSampler.Build | src/gui/rhi/qrhinull.cpp:541-544 | always succeeds |
| NullBackend.NullSampler.Release | src/gui/rhi/qrhinull.cpp:537-539 | changes nothing |
| NullBackend.NullRenderPassDescriptor.Release | src/gui/rhi/qrhinull.cpp:556-558 | changes nothing |
| NullBackend.NullReferenceRenderTarget.Release | src/gui/rhi/qrhinull.cpp:571-573 | changes nothing |
| NullBackend.NullReferenceRenderTarget.SampleCount | src/gui/rhi/qrhinull.cpp:585-588 | the swap chain's render target is never multisampled |
| NullBackend.NullTextureRenderTarget.Build | src/gui/rhi/qrhinull.cpp:612-626 | adopts the render pass descriptor and takes the pixel size from, in order of priority: the first colour attachment's texture, that attachment's render buffer, the depth-stencil buffer, the depth texture; otherwise the size stays; always succeeds |
| NullBackend.NullTextureRenderTarget.Release | src/gui/rhi/qrhinull.cpp:603-605 | changes nothing |
| NullBackend.NullTextureRenderTarget.SampleCount | src/gui/rhi/qrhinull.cpp:638-641 | a texture render target is never multisampled |
| NullBackend.NullShaderResourceBindings.Build | src/gui/rhi/qrhinull.cpp:657-660 | always succeeds |
| NullBackend.NullShaderResourceBindings.Release | src/gui/rhi/qrhinull.cpp:653-655 | changes nothing |
| NullBackend.NullGraphicsPipeline.Build | src/gui/rhi/qrhinull.cpp:676-679 | always succeeds |
| NullBackend.NullGraphicsPipeline.Release | src/gui/rhi/qrhinull.cpp:672-674 | changes nothing |
| NullBackend.NullComputePipeline.Build | src/gui/rhi/qrhinull.cpp:695-698 | always succeeds |
| NullBackend.NullComputePipeline.Release | src/gui/rhi/qrhinull.cpp:691-693 | changes nothing |
| NullBackend.NullCommandBuffer.Release | src/gui/rhi/qrhinull.cpp:710-713 | changes nothing |
| NullBackend.NullSwapChain.constructor | src/gui/rhi/qrhinull.cpp:715-720 | a new swap chain owns a fresh render target with no render pass descriptor; both have the invalid size (-1, -1) of a default QSize, no frames are counted, and it is valid |
| NullBackend.NullSwapChain.SurfacePixelSize | src/gui/rhi/qrhinull.cpp:743-746 | the surface is always 1280×720 |
| NullBackend.NullSwapChain.BuildOrResize | src/gui/rhi/qrhinull.cpp:753-762 | the swap chain and its render target take the surface size, the render target adopts the render pass descriptor, and the frame count restarts at 0; always succeeds |
| NullBackend.NullSwapChain.Release | src/gui/rhi/qrhinull.cpp:727-731 | changes neither the swap chain nor its render target |

## Left out

- Binary and text JSON serialisation (`toBinaryJson`, `toJson`, `QJsonDocument::fromBinaryData`) is Qt library code. The codec works on JSON values, and `FromBinaryJson` takes the decoded document as a parameter. A failed parse is the null document.
- The `QDebug` stream operators and the public accessors are diagnostic formatting and plain getters, and are not modelled. Neither is the warning `loadDoc` logs for a null document (qshaderdescription.cpp:994). The model keeps only its effect: the collections stay as they were.
- Copy-on-write sharing (`detach`, the copy constructor, assignment, the destructor) and the reference-count assertion in `loadDoc` are not modelled. The description is a value, and the private object is a class that is never shared.
- JSON numbers are integers here: every number the codec writes is an `int` field. Fractional numbers and the 32-bit range of `toInt` are not modelled. Nor is the difference between an undefined value and null.
- `imageFlags` is an integer. The flag enum is declared in a header that is not part of this model.
- The `VariableType` and `ImageFormat` enums are declared in a header that is not part of this model. They are modelled with exactly the enumerators the two tables name, plus `Unknown`.
- `DescriptionDocument.DescriptionPrivate.LoadDoc` does not clear the seven fields and then append to them. It reads the seven sections into locals and assigns all the fields at the end. No state in between is observable, so the final state is the same.
- Profiler reporting (`QRHI_PROF`, `QRHI_PROF_F`) in the null backend is not modelled. This includes the mip-level count that `QNullTexture` computes only for the profiler. The methods that do nothing else change no state here.
- Floating-point parts of the null backend are not modelled: device pixel ratios, the GPU frame time, `clipSpaceCorrMatrix`, clear colours and viewports.
- `sizeForMipLevel` and `textureFormatInfo` are defined in QRhi code that is not part of this model. They are function parameters. `textureFormatInfo`'s 32-bit byte count is a natural number.
- The command-recording stubs of the null backend (`setGraphicsPipeline` through `dispatch`, the debug markers, `beginExternal`/`endExternal`) do nothing, and are not modelled.
- `create`, `destroy`, `nativeHandles`, the `create*` factories and `newCompatibleRenderPassDescriptor` of the null backend only allocate objects or return handles, and are not modelled.
- `currentFrameCommandBuffer`, `currentFrameRenderTarget` and the `pixelSize` getters of the render targets only return a member, and are not modelled.
- NullBackend.NullRhi.ResourceUpdate: a set `completed` callback is recorded as a call count. What the callback itself does is foreign code, and the model assumes it changes none of the modelled state.
- NullBackend.NullRhi.ResourceUpdate: texture operations other than reads are represented by one constructor, because this backend ignores them. The batch's buffer operations, which `free()` also drops, are not modelled.
- NullBackend.NullTextureRenderTarget.Build: a first colour attachment with neither a texture nor a render buffer makes the source dereference null. The model excludes that case with a precondition.
- NullBackend.NullRhi.EndFrame: the frame count is an unbounded integer. The source's `int` counter would overflow, which is undefined behaviour, after 2^31 - 1 frames without a buildOrResize. The model does not capture that.
- NullBackend.NullSwapChain.Valid: "the frame count is never negative" holds only because the counter is unbounded. The 32-bit width of the source's counter is not modelled.
- NullBackend.NullRhi.BeginOffscreenFrame: the source does not refuse an offscreen frame while a swap-chain frame is active, and neither does the model.
- `TextureFormat` models only `RGBA8` and `UnknownFormat` by name, because they are the only formats the backend uses. The rest of `QRhiTexture::Format` is represented by index.
- In the source, `imageFormatStr` writes ImageFormatUnknown as "unknown", because that format has a table row, and not as the empty string. The model follows the code. The encoder never writes an unknown format anyway.

## Findings

| source | as written | input that shows it | evidently intended | confidence | as-written member | corrected member |
|---|---|---|---|---|---|---|
| src/gui/rhi/qshaderdescription.cpp:626 | The row for ImageFormatRgba16f carries the token "rgba16", which line 634 also gives to ImageFormatRgba16. "rgba16" is first found on line 626, so it decodes to ImageFormatRgba16f. | A storage image with format ImageFormatRgba16 is written as "rgba16" and loaded back as ImageFormatRgba16f, so the description's round trip fails. | Line 626 carries "rgba16f". The 40 tokens are then distinct and every image format round-trips. | not executed | ShaderTypes.Rgba16TokenCollision, DescriptionLaws.DocumentRoundTripAsWritten | ShaderTypes.CorrectedImageFormatRoundTrip, DescriptionLaws.CorrectedDocumentRoundTrip |
