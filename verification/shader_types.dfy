/**
 * The variable-type and image-format vocabularies of a shader description
 * and the two token tables (src/gui/rhi/qshaderdescription.cpp:525-682)
 * that name them in the JSON form.
 *
 * The tables are written in runs of at most four consecutive source rows
 * (never across a blank line of the source); each run is checked against a
 * token classifier on its own, and the generic lemmas of TokenTable carry
 * those facts to the whole table.
 */
module ShaderTypes {
  import opened TokenTable

  /** Shader variable types; `Unknown` is the absence sentinel and has no row. */
  datatype VariableType =
    | Unknown
    | Float | Vec2 | Vec3 | Vec4 | Mat2 | Mat3 | Mat4 | Struct
    | Sampler1D | Sampler2D | Sampler2DMS | Sampler3D | SamplerCube | Sampler1DArray | Sampler2DArray | Sampler2DMSArray
    | Sampler3DArray | SamplerCubeArray | SamplerRect | SamplerBuffer | Mat2x3 | Mat2x4 | Mat3x2 | Mat3x4
    | Mat4x2 | Mat4x3 | Int | Int2 | Int3 | Int4 | Uint | Uint2
    | Uint3 | Uint4 | Bool | Bool2 | Bool3 | Bool4 | Double | Double2
    | Double3 | Double4 | DMat2 | DMat3 | DMat4 | DMat2x3 | DMat2x4 | DMat3x2
    | DMat3x4 | DMat4x2 | DMat4x3 | Image1D | Image2D | Image2DMS | Image3D | ImageCube
    | Image1DArray | Image2DArray | Image2DMSArray | Image3DArray | ImageCubeArray | ImageRect | ImageBuffer

  /** Storage-image formats; every enumerator, the unknown sentinel included, has a row. */
  datatype ImageFormat =
    | ImageFormatUnknown | ImageFormatRgba32f | ImageFormatRgba16f | ImageFormatR32f
    | ImageFormatRgba8 | ImageFormatRgba8Snorm | ImageFormatRg32f | ImageFormatRg16f
    | ImageFormatR11fG11fB10f | ImageFormatR16f | ImageFormatRgba16 | ImageFormatRgb10A2
    | ImageFormatRg16 | ImageFormatRg8 | ImageFormatR16 | ImageFormatR8
    | ImageFormatRgba16Snorm | ImageFormatRg16Snorm | ImageFormatRg8Snorm | ImageFormatR16Snorm
    | ImageFormatR8Snorm | ImageFormatRgba32i | ImageFormatRgba16i | ImageFormatRgba8i
    | ImageFormatR32i | ImageFormatRg32i | ImageFormatRg16i | ImageFormatRg8i
    | ImageFormatR16i | ImageFormatR8i | ImageFormatRgba32ui | ImageFormatRgba16ui
    | ImageFormatRgba8ui | ImageFormatR32ui | ImageFormatRgb10a2ui | ImageFormatRg32ui
    | ImageFormatRg16ui | ImageFormatRg8ui | ImageFormatR16ui | ImageFormatR8ui

  // typeTab, lines 525-600

  const TypeRows529To532: Table<VariableType> := [("float", Float), ("vec2", Vec2), ("vec3", Vec3), ("vec4", Vec4)]
  const TypeRows533To535: Table<VariableType> := [("mat2", Mat2), ("mat3", Mat3), ("mat4", Mat4)]
  const TypeRows537: Table<VariableType> := [("struct", Struct)]
  const TypeRows539To542: Table<VariableType> := [("sampler1D", Sampler1D), ("sampler2D", Sampler2D), ("sampler2DMS", Sampler2DMS), ("sampler3D", Sampler3D)]
  const TypeRows543To546: Table<VariableType> := [("samplerCube", SamplerCube), ("sampler1DArray", Sampler1DArray), ("sampler2DArray", Sampler2DArray), ("sampler2DMSArray", Sampler2DMSArray)]
  const TypeRows547To550: Table<VariableType> := [("sampler3DArray", Sampler3DArray), ("samplerCubeArray", SamplerCubeArray), ("samplerRect", SamplerRect), ("samplerBuffer", SamplerBuffer)]
  const TypeRows552To555: Table<VariableType> := [("mat2x3", Mat2x3), ("mat2x4", Mat2x4), ("mat3x2", Mat3x2), ("mat3x4", Mat3x4)]
  const TypeRows556To557: Table<VariableType> := [("mat4x2", Mat4x2), ("mat4x3", Mat4x3)]
  const TypeRows559To562: Table<VariableType> := [("int", Int), ("ivec2", Int2), ("ivec3", Int3), ("ivec4", Int4)]
  const TypeRows564To567: Table<VariableType> := [("uint", Uint), ("uvec2", Uint2), ("uvec3", Uint3), ("uvec4", Uint4)]
  const TypeRows569To572: Table<VariableType> := [("bool", Bool), ("bvec2", Bool2), ("bvec3", Bool3), ("bvec4", Bool4)]
  const TypeRows574To577: Table<VariableType> := [("double", Double), ("dvec2", Double2), ("dvec3", Double3), ("dvec4", Double4)]
  const TypeRows578To581: Table<VariableType> := [("dmat2", DMat2), ("dmat3", DMat3), ("dmat4", DMat4), ("dmat2x3", DMat2x3)]
  const TypeRows582To585: Table<VariableType> := [("dmat2x4", DMat2x4), ("dmat3x2", DMat3x2), ("dmat3x4", DMat3x4), ("dmat4x2", DMat4x2)]
  const TypeRows586: Table<VariableType> := [("dmat4x3", DMat4x3)]
  const TypeRows588To591: Table<VariableType> := [("image1D", Image1D), ("image2D", Image2D), ("image2DMS", Image2DMS), ("image3D", Image3D)]
  const TypeRows592To595: Table<VariableType> := [("imageCube", ImageCube), ("image1DArray", Image1DArray), ("image2DArray", Image2DArray), ("image2DMSArray", Image2DMSArray)]
  const TypeRows596To599: Table<VariableType> := [("image3DArray", Image3DArray), ("imageCubeArray", ImageCubeArray), ("imageRect", ImageRect), ("imageBuffer", ImageBuffer)]

  /** The type table, in source order. */
  const TypeTab: Table<VariableType> :=
    TypeRows529To532 + TypeRows533To535 + TypeRows537 + TypeRows539To542
    + TypeRows543To546 + TypeRows547To550 + TypeRows552To555 + TypeRows556To557
    + TypeRows559To562 + TypeRows564To567 + TypeRows569To572 + TypeRows574To577
    + TypeRows578To581 + TypeRows582To585 + TypeRows586 + TypeRows588To591
    + TypeRows592To595 + TypeRows596To599

  // imageFormatTab, lines 620-664

  const FormatRows624To627: Table<ImageFormat> := [("unknown", ImageFormatUnknown), ("rgba32f", ImageFormatRgba32f), ("rgba16", ImageFormatRgba16f), ("r32f", ImageFormatR32f)]
  const FormatRows628To631: Table<ImageFormat> := [("rgba8", ImageFormatRgba8), ("rgba8_snorm", ImageFormatRgba8Snorm), ("rg32f", ImageFormatRg32f), ("rg16f", ImageFormatRg16f)]
  const FormatRows632To635: Table<ImageFormat> := [("r11f_g11f_b10f", ImageFormatR11fG11fB10f), ("r16f", ImageFormatR16f), ("rgba16", ImageFormatRgba16), ("rgb10_a2", ImageFormatRgb10A2)]
  const FormatRows636To639: Table<ImageFormat> := [("rg16", ImageFormatRg16), ("rg8", ImageFormatRg8), ("r16", ImageFormatR16), ("r8", ImageFormatR8)]
  const FormatRows640To643: Table<ImageFormat> := [("rgba16_snorm", ImageFormatRgba16Snorm), ("rg16_snorm", ImageFormatRg16Snorm), ("rg8_snorm", ImageFormatRg8Snorm), ("r16_snorm", ImageFormatR16Snorm)]
  const FormatRows644To647: Table<ImageFormat> := [("r8_snorm", ImageFormatR8Snorm), ("rgba32i", ImageFormatRgba32i), ("rgba16i", ImageFormatRgba16i), ("rgba8i", ImageFormatRgba8i)]
  const FormatRows648To651: Table<ImageFormat> := [("r32i", ImageFormatR32i), ("rg32i", ImageFormatRg32i), ("rg16i", ImageFormatRg16i), ("rg8i", ImageFormatRg8i)]
  const FormatRows652To655: Table<ImageFormat> := [("r16i", ImageFormatR16i), ("r8i", ImageFormatR8i), ("rgba32ui", ImageFormatRgba32ui), ("rgba16ui", ImageFormatRgba16ui)]
  const FormatRows656To659: Table<ImageFormat> := [("rgba8ui", ImageFormatRgba8ui), ("r32ui", ImageFormatR32ui), ("rgb10_a2ui", ImageFormatRgb10a2ui), ("rg32ui", ImageFormatRg32ui)]
  const FormatRows660To663: Table<ImageFormat> := [("rg16ui", ImageFormatRg16ui), ("rg8ui", ImageFormatRg8ui), ("r16ui", ImageFormatR16ui), ("r8ui", ImageFormatR8ui)]

  /**
   * The image-format table as written. Rows 2 and 10 (lines 626 and 634) both
   * carry the token "rgba16", for ImageFormatRgba16f and ImageFormatRgba16.
   */
  const ImageFormatTab: Table<ImageFormat> :=
    FormatRows624To627 + FormatRows628To631 + FormatRows632To635 + FormatRows636To639
    + FormatRows640To643 + FormatRows644To647 + FormatRows648To651 + FormatRows652To655
    + FormatRows656To659 + FormatRows660To663

  /** Lines 624-627 with line 626 carrying the GLSL name "rgba16f". */
  const CorrectedFormatRows624To627: Table<ImageFormat> := FormatRows624To627[2 := ("rgba16f", ImageFormatRgba16f)]

  /** The image-format table with line 626 corrected; its 40 tokens are distinct. */
  const CorrectedImageFormatTab: Table<ImageFormat> :=
    CorrectedFormatRows624To627 + FormatRows628To631 + FormatRows632To635 + FormatRows636To639
    + FormatRows640To643 + FormatRows644To647 + FormatRows648To651 + FormatRows652To655
    + FormatRows656To659 + FormatRows660To663

  /** typeStr (lines 602-609): the token of the first row naming `t`, or "". */
  function TypeStr(t: VariableType): string
  {
    TokenOf(TypeTab, t)
  }

  /** mapType (lines 611-618): the type of the first row carrying `s`, or Unknown. */
  function MapType(s: string): VariableType
  {
    ValueOf(TypeTab, s, Unknown)
  }

  /** imageFormatStr (lines 666-673), over a given format table. */
  function ImageFormatStr(formats: Table<ImageFormat>, f: ImageFormat): string
  {
    TokenOf(formats, f)
  }

  /** mapImageFormat (lines 675-682), over a given format table. */
  function MapImageFormat(formats: Table<ImageFormat>, s: string): ImageFormat
  {
    ValueOf(formats, s, ImageFormatUnknown)
  }

  /** Over any table the type classifier names, without an Unknown row. */
  lemma TypeTokensIn(tab: Table<VariableType>, t: VariableType)
    requires NamedBy(tab, TypeTokenClass, None) && Lacks(tab, Unknown)
    requires t != Unknown ==> HasValue(tab, t)
    ensures TokenOf(tab, t) == "" <==> t == Unknown
    ensures ValueOf(tab, TokenOf(tab, t), Unknown) == t
  {
    assert TypeTokenClass("") == Unknown;
    if t == Unknown {
      TokenOfMissing(tab, t);
      if HasToken(tab, "") {
        ValueOfFound(tab, "", Unknown);
      } else {
        ValueOfMissing(tab, "", Unknown);
      }
    } else {
      TokenOfAvoids(tab, TypeTokenClass, t, "");
      RoundTrip(tab, TypeTokenClass, t, Unknown);
    }
  }

  /** typeStr yields the empty token exactly for Unknown. */
  lemma TypeStrEmptyIffUnknown(t: VariableType)
    ensures TypeStr(t) == "" <==> t == Unknown
  {
    TypeTabNamed();
    if t != Unknown {
      TypeTabCovers(t);
    }
    TypeTokensIn(TypeTab, t);
  }

  /** Every type, Unknown included, survives typeStr followed by mapType. */
  lemma TypeRoundTrip(t: VariableType)
    ensures MapType(TypeStr(t)) == t
  {
    TypeTabNamed();
    if t != Unknown {
      TypeTabCovers(t);
    }
    TypeTokensIn(TypeTab, t);
  }

  /** mapType answers Unknown exactly for strings that are not tokens of the table. */
  lemma MapTypeUnknownIff(s: string)
    ensures MapType(s) == Unknown <==> !HasToken(TypeTab, s)
  {
    TypeTabNamed();
    ValueOfAbsentIff(TypeTab, s, Unknown);
  }

  /**
   * Over any table the format classifier names except on ImageFormatRgba16f
   * rows, where both 16-bit RGBA formats are tabled under "rgba16" only and
   * "rgba16" is first found for ImageFormatRgba16f.
   */
  lemma FormatTokensIn(tab: Table<ImageFormat>, f: ImageFormat)
    requires NamedBy(tab, FormatTokenClass, Some(ImageFormatRgba16f))
    requires OnlyToken(tab, ImageFormatRgba16f, "rgba16") && OnlyToken(tab, ImageFormatRgba16, "rgba16")
    requires HasValue(tab, f) && HasValue(tab, ImageFormatRgba16) && HasValue(tab, ImageFormatRgba16f)
    requires ValueOf(tab, "rgba16", ImageFormatUnknown) == ImageFormatRgba16f
    ensures TokenOf(tab, ImageFormatRgba16) == "rgba16" && TokenOf(tab, ImageFormatRgba16f) == "rgba16"
    ensures ValueOf(tab, TokenOf(tab, f), ImageFormatUnknown) == f <==> f != ImageFormatRgba16
  {
    TokenOfOnly(tab, ImageFormatRgba16, "rgba16");
    TokenOfOnly(tab, ImageFormatRgba16f, "rgba16");
    if f != ImageFormatRgba16 && f != ImageFormatRgba16f {
      assert FormatTokenClass("rgba16") == ImageFormatRgba16;
      RoundTripAvoiding(tab, FormatTokenClass, ImageFormatRgba16f, "rgba16", f, ImageFormatUnknown);
    }
  }

  /** The token "rgba16" is first found on row 2 (line 626), which names ImageFormatRgba16f. */
  lemma Rgba16FirstRow()
    ensures MapImageFormat(ImageFormatTab, "rgba16") == ImageFormatRgba16f
  {
    assert ImageFormatTab[0].0 == "unknown" && ImageFormatTab[1].0 == "rgba32f";
    assert ImageFormatTab[2] == ("rgba16", ImageFormatRgba16f);
    ValueOfFirstRow(ImageFormatTab, 2, "rgba16", ImageFormatUnknown);
  }

  /** The token "unknown" is first found on row 0 (line 624), which names the sentinel. */
  lemma UnknownFirstRow()
    ensures MapImageFormat(ImageFormatTab, "unknown") == ImageFormatUnknown
  {
    assert ImageFormatTab[0] == ("unknown", ImageFormatUnknown);
    ValueOfFirstRow(ImageFormatTab, 0, "unknown", ImageFormatUnknown);
  }

  /**
   * With the table as written, ImageFormatRgba16 and ImageFormatRgba16f
   * share the token "rgba16", which decodes to ImageFormatRgba16f.
   */
  lemma Rgba16TokenCollision()
    ensures ImageFormatStr(ImageFormatTab, ImageFormatRgba16) == "rgba16"
    ensures ImageFormatStr(ImageFormatTab, ImageFormatRgba16f) == "rgba16"
    ensures MapImageFormat(ImageFormatTab, ImageFormatStr(ImageFormatTab, ImageFormatRgba16)) == ImageFormatRgba16f
  {
    ImageFormatTabNamed();
    ImageFormatTabCovers(ImageFormatRgba16);
    ImageFormatTabCovers(ImageFormatRgba16f);
    Rgba16FirstRow();
    FormatTokensIn(ImageFormatTab, ImageFormatRgba16);
  }

  /** With the table as written, a format survives imageFormatStr then mapImageFormat iff it is not ImageFormatRgba16. */
  lemma ImageFormatRoundTrip(f: ImageFormat)
    ensures MapImageFormat(ImageFormatTab, ImageFormatStr(ImageFormatTab, f)) == f <==> f != ImageFormatRgba16
  {
    ImageFormatTabNamed();
    ImageFormatTabCovers(f);
    ImageFormatTabCovers(ImageFormatRgba16);
    ImageFormatTabCovers(ImageFormatRgba16f);
    Rgba16FirstRow();
    FormatTokensIn(ImageFormatTab, f);
  }

  /** With the table as written, mapImageFormat answers the sentinel exactly for "unknown" and for non-tokens. */
  lemma MapImageFormatUnknownIff(s: string)
    ensures MapImageFormat(ImageFormatTab, s) == ImageFormatUnknown <==> s == "unknown" || !HasToken(ImageFormatTab, s)
  {
    ImageFormatTabNamed();
    UnknownFirstRow();
    ValueOfAbsentOnly(ImageFormatTab, s, ImageFormatUnknown, "unknown");
  }

  /** With line 626 corrected, every format survives imageFormatStr then mapImageFormat. */
  lemma CorrectedImageFormatRoundTrip(f: ImageFormat)
    ensures MapImageFormat(CorrectedImageFormatTab, ImageFormatStr(CorrectedImageFormatTab, f)) == f
  {
    ImageFormatTabNamed();
    CorrectedImageFormatTabCovers(f);
    RoundTrip(CorrectedImageFormatTab, FormatTokenClass, f, ImageFormatUnknown);
  }

  /** Tokens of the type table determine types, and no row names Unknown. */
  lemma TypeTabNamed()
    ensures NamedBy(TypeTab, TypeTokenClass, None) && Lacks(TypeTab, Unknown)
  {
    TypeRows529To532Named();
    TypeRows533To535Named();
    TypeRows537Named();
    TypeRows539To542Named();
    TypeRows543To546Named();
    TypeRows547To550Named();
    TypeRows552To555Named();
    TypeRows556To557Named();
    TypeRows559To562Named();
    TypeRows564To567Named();
    TypeRows569To572Named();
    TypeRows574To577Named();
    TypeRows578To581Named();
    TypeRows582To585Named();
    TypeRows586Named();
    TypeRows588To591Named();
    TypeRows592To595Named();
    TypeRows596To599Named();
    NamedByAppend(TypeRows529To532, TypeRows533To535, TypeTokenClass, None);
    LacksAppend(TypeRows529To532, TypeRows533To535, Unknown);
    NamedByAppend(TypeRows529To532 + TypeRows533To535, TypeRows537, TypeTokenClass, None);
    LacksAppend(TypeRows529To532 + TypeRows533To535, TypeRows537, Unknown);
    NamedByAppend(TypeRows529To532 + TypeRows533To535 + TypeRows537, TypeRows539To542, TypeTokenClass, None);
    LacksAppend(TypeRows529To532 + TypeRows533To535 + TypeRows537, TypeRows539To542, Unknown);
    NamedByAppend(TypeRows529To532 + TypeRows533To535 + TypeRows537 + TypeRows539To542, TypeRows543To546, TypeTokenClass, None);
    LacksAppend(TypeRows529To532 + TypeRows533To535 + TypeRows537 + TypeRows539To542, TypeRows543To546, Unknown);
    NamedByAppend(TypeRows529To532 + TypeRows533To535 + TypeRows537 + TypeRows539To542 + TypeRows543To546, TypeRows547To550, TypeTokenClass, None);
    LacksAppend(TypeRows529To532 + TypeRows533To535 + TypeRows537 + TypeRows539To542 + TypeRows543To546, TypeRows547To550, Unknown);
    NamedByAppend(TypeRows529To532 + TypeRows533To535 + TypeRows537 + TypeRows539To542 + TypeRows543To546 + TypeRows547To550, TypeRows552To555, TypeTokenClass, None);
    LacksAppend(TypeRows529To532 + TypeRows533To535 + TypeRows537 + TypeRows539To542 + TypeRows543To546 + TypeRows547To550, TypeRows552To555, Unknown);
    NamedByAppend(TypeRows529To532 + TypeRows533To535 + TypeRows537 + TypeRows539To542 + TypeRows543To546 + TypeRows547To550 + TypeRows552To555, TypeRows556To557, TypeTokenClass, None);
    LacksAppend(TypeRows529To532 + TypeRows533To535 + TypeRows537 + TypeRows539To542 + TypeRows543To546 + TypeRows547To550 + TypeRows552To555, TypeRows556To557, Unknown);
    NamedByAppend(TypeRows529To532 + TypeRows533To535 + TypeRows537 + TypeRows539To542 + TypeRows543To546 + TypeRows547To550 + TypeRows552To555 + TypeRows556To557, TypeRows559To562, TypeTokenClass, None);
    LacksAppend(TypeRows529To532 + TypeRows533To535 + TypeRows537 + TypeRows539To542 + TypeRows543To546 + TypeRows547To550 + TypeRows552To555 + TypeRows556To557, TypeRows559To562, Unknown);
    NamedByAppend(TypeRows529To532 + TypeRows533To535 + TypeRows537 + TypeRows539To542 + TypeRows543To546 + TypeRows547To550 + TypeRows552To555 + TypeRows556To557 + TypeRows559To562, TypeRows564To567, TypeTokenClass, None);
    LacksAppend(TypeRows529To532 + TypeRows533To535 + TypeRows537 + TypeRows539To542 + TypeRows543To546 + TypeRows547To550 + TypeRows552To555 + TypeRows556To557 + TypeRows559To562, TypeRows564To567, Unknown);
    NamedByAppend(TypeRows529To532 + TypeRows533To535 + TypeRows537 + TypeRows539To542 + TypeRows543To546 + TypeRows547To550 + TypeRows552To555 + TypeRows556To557 + TypeRows559To562 + TypeRows564To567, TypeRows569To572, TypeTokenClass, None);
    LacksAppend(TypeRows529To532 + TypeRows533To535 + TypeRows537 + TypeRows539To542 + TypeRows543To546 + TypeRows547To550 + TypeRows552To555 + TypeRows556To557 + TypeRows559To562 + TypeRows564To567, TypeRows569To572, Unknown);
    NamedByAppend(TypeRows529To532 + TypeRows533To535 + TypeRows537 + TypeRows539To542 + TypeRows543To546 + TypeRows547To550 + TypeRows552To555 + TypeRows556To557 + TypeRows559To562 + TypeRows564To567 + TypeRows569To572, TypeRows574To577, TypeTokenClass, None);
    LacksAppend(TypeRows529To532 + TypeRows533To535 + TypeRows537 + TypeRows539To542 + TypeRows543To546 + TypeRows547To550 + TypeRows552To555 + TypeRows556To557 + TypeRows559To562 + TypeRows564To567 + TypeRows569To572, TypeRows574To577, Unknown);
    NamedByAppend(TypeRows529To532 + TypeRows533To535 + TypeRows537 + TypeRows539To542 + TypeRows543To546 + TypeRows547To550 + TypeRows552To555 + TypeRows556To557 + TypeRows559To562 + TypeRows564To567 + TypeRows569To572 + TypeRows574To577, TypeRows578To581, TypeTokenClass, None);
    LacksAppend(TypeRows529To532 + TypeRows533To535 + TypeRows537 + TypeRows539To542 + TypeRows543To546 + TypeRows547To550 + TypeRows552To555 + TypeRows556To557 + TypeRows559To562 + TypeRows564To567 + TypeRows569To572 + TypeRows574To577, TypeRows578To581, Unknown);
    NamedByAppend(TypeRows529To532 + TypeRows533To535 + TypeRows537 + TypeRows539To542 + TypeRows543To546 + TypeRows547To550 + TypeRows552To555 + TypeRows556To557 + TypeRows559To562 + TypeRows564To567 + TypeRows569To572 + TypeRows574To577 + TypeRows578To581, TypeRows582To585, TypeTokenClass, None);
    LacksAppend(TypeRows529To532 + TypeRows533To535 + TypeRows537 + TypeRows539To542 + TypeRows543To546 + TypeRows547To550 + TypeRows552To555 + TypeRows556To557 + TypeRows559To562 + TypeRows564To567 + TypeRows569To572 + TypeRows574To577 + TypeRows578To581, TypeRows582To585, Unknown);
    NamedByAppend(TypeRows529To532 + TypeRows533To535 + TypeRows537 + TypeRows539To542 + TypeRows543To546 + TypeRows547To550 + TypeRows552To555 + TypeRows556To557 + TypeRows559To562 + TypeRows564To567 + TypeRows569To572 + TypeRows574To577 + TypeRows578To581 + TypeRows582To585, TypeRows586, TypeTokenClass, None);
    LacksAppend(TypeRows529To532 + TypeRows533To535 + TypeRows537 + TypeRows539To542 + TypeRows543To546 + TypeRows547To550 + TypeRows552To555 + TypeRows556To557 + TypeRows559To562 + TypeRows564To567 + TypeRows569To572 + TypeRows574To577 + TypeRows578To581 + TypeRows582To585, TypeRows586, Unknown);
    NamedByAppend(TypeRows529To532 + TypeRows533To535 + TypeRows537 + TypeRows539To542 + TypeRows543To546 + TypeRows547To550 + TypeRows552To555 + TypeRows556To557 + TypeRows559To562 + TypeRows564To567 + TypeRows569To572 + TypeRows574To577 + TypeRows578To581 + TypeRows582To585 + TypeRows586, TypeRows588To591, TypeTokenClass, None);
    LacksAppend(TypeRows529To532 + TypeRows533To535 + TypeRows537 + TypeRows539To542 + TypeRows543To546 + TypeRows547To550 + TypeRows552To555 + TypeRows556To557 + TypeRows559To562 + TypeRows564To567 + TypeRows569To572 + TypeRows574To577 + TypeRows578To581 + TypeRows582To585 + TypeRows586, TypeRows588To591, Unknown);
    NamedByAppend(TypeRows529To532 + TypeRows533To535 + TypeRows537 + TypeRows539To542 + TypeRows543To546 + TypeRows547To550 + TypeRows552To555 + TypeRows556To557 + TypeRows559To562 + TypeRows564To567 + TypeRows569To572 + TypeRows574To577 + TypeRows578To581 + TypeRows582To585 + TypeRows586 + TypeRows588To591, TypeRows592To595, TypeTokenClass, None);
    LacksAppend(TypeRows529To532 + TypeRows533To535 + TypeRows537 + TypeRows539To542 + TypeRows543To546 + TypeRows547To550 + TypeRows552To555 + TypeRows556To557 + TypeRows559To562 + TypeRows564To567 + TypeRows569To572 + TypeRows574To577 + TypeRows578To581 + TypeRows582To585 + TypeRows586 + TypeRows588To591, TypeRows592To595, Unknown);
    NamedByAppend(TypeRows529To532 + TypeRows533To535 + TypeRows537 + TypeRows539To542 + TypeRows543To546 + TypeRows547To550 + TypeRows552To555 + TypeRows556To557 + TypeRows559To562 + TypeRows564To567 + TypeRows569To572 + TypeRows574To577 + TypeRows578To581 + TypeRows582To585 + TypeRows586 + TypeRows588To591 + TypeRows592To595, TypeRows596To599, TypeTokenClass, None);
    LacksAppend(TypeRows529To532 + TypeRows533To535 + TypeRows537 + TypeRows539To542 + TypeRows543To546 + TypeRows547To550 + TypeRows552To555 + TypeRows556To557 + TypeRows559To562 + TypeRows564To567 + TypeRows569To572 + TypeRows574To577 + TypeRows578To581 + TypeRows582To585 + TypeRows586 + TypeRows588To591 + TypeRows592To595, TypeRows596To599, Unknown);
  }

  /** What the format classifier tells about the two format tables. */
  lemma ImageFormatTabNamed()
    ensures NamedBy(ImageFormatTab, FormatTokenClass, Some(ImageFormatRgba16f))
    ensures OnlyToken(ImageFormatTab, ImageFormatRgba16f, "rgba16")
    ensures OnlyToken(ImageFormatTab, ImageFormatRgba16, "rgba16")
    ensures OnlyToken(ImageFormatTab, ImageFormatUnknown, "unknown")
    ensures NamedBy(CorrectedImageFormatTab, FormatTokenClass, None)
  {
    FormatRows624To627Named();
    FormatRows628To631Named();
    FormatRows632To635Named();
    FormatRows636To639Named();
    FormatRows640To643Named();
    FormatRows644To647Named();
    FormatRows648To651Named();
    FormatRows652To655Named();
    FormatRows656To659Named();
    FormatRows660To663Named();
    CorrectedFormatRows624To627Named();
    NamedByAppend(FormatRows624To627, FormatRows628To631, FormatTokenClass, Some(ImageFormatRgba16f));
    OnlyTokenAppend(FormatRows624To627, FormatRows628To631, ImageFormatRgba16f, "rgba16");
    OnlyTokenAppend(FormatRows624To627, FormatRows628To631, ImageFormatRgba16, "rgba16");
    OnlyTokenAppend(FormatRows624To627, FormatRows628To631, ImageFormatUnknown, "unknown");
    NamedByAppend(CorrectedFormatRows624To627, FormatRows628To631, FormatTokenClass, None);
    NamedByAppend(FormatRows624To627 + FormatRows628To631, FormatRows632To635, FormatTokenClass, Some(ImageFormatRgba16f));
    OnlyTokenAppend(FormatRows624To627 + FormatRows628To631, FormatRows632To635, ImageFormatRgba16f, "rgba16");
    OnlyTokenAppend(FormatRows624To627 + FormatRows628To631, FormatRows632To635, ImageFormatRgba16, "rgba16");
    OnlyTokenAppend(FormatRows624To627 + FormatRows628To631, FormatRows632To635, ImageFormatUnknown, "unknown");
    NamedByAppend(CorrectedFormatRows624To627 + FormatRows628To631, FormatRows632To635, FormatTokenClass, None);
    NamedByAppend(FormatRows624To627 + FormatRows628To631 + FormatRows632To635, FormatRows636To639, FormatTokenClass, Some(ImageFormatRgba16f));
    OnlyTokenAppend(FormatRows624To627 + FormatRows628To631 + FormatRows632To635, FormatRows636To639, ImageFormatRgba16f, "rgba16");
    OnlyTokenAppend(FormatRows624To627 + FormatRows628To631 + FormatRows632To635, FormatRows636To639, ImageFormatRgba16, "rgba16");
    OnlyTokenAppend(FormatRows624To627 + FormatRows628To631 + FormatRows632To635, FormatRows636To639, ImageFormatUnknown, "unknown");
    NamedByAppend(CorrectedFormatRows624To627 + FormatRows628To631 + FormatRows632To635, FormatRows636To639, FormatTokenClass, None);
    NamedByAppend(FormatRows624To627 + FormatRows628To631 + FormatRows632To635 + FormatRows636To639, FormatRows640To643, FormatTokenClass, Some(ImageFormatRgba16f));
    OnlyTokenAppend(FormatRows624To627 + FormatRows628To631 + FormatRows632To635 + FormatRows636To639, FormatRows640To643, ImageFormatRgba16f, "rgba16");
    OnlyTokenAppend(FormatRows624To627 + FormatRows628To631 + FormatRows632To635 + FormatRows636To639, FormatRows640To643, ImageFormatRgba16, "rgba16");
    OnlyTokenAppend(FormatRows624To627 + FormatRows628To631 + FormatRows632To635 + FormatRows636To639, FormatRows640To643, ImageFormatUnknown, "unknown");
    NamedByAppend(CorrectedFormatRows624To627 + FormatRows628To631 + FormatRows632To635 + FormatRows636To639, FormatRows640To643, FormatTokenClass, None);
    NamedByAppend(FormatRows624To627 + FormatRows628To631 + FormatRows632To635 + FormatRows636To639 + FormatRows640To643, FormatRows644To647, FormatTokenClass, Some(ImageFormatRgba16f));
    OnlyTokenAppend(FormatRows624To627 + FormatRows628To631 + FormatRows632To635 + FormatRows636To639 + FormatRows640To643, FormatRows644To647, ImageFormatRgba16f, "rgba16");
    OnlyTokenAppend(FormatRows624To627 + FormatRows628To631 + FormatRows632To635 + FormatRows636To639 + FormatRows640To643, FormatRows644To647, ImageFormatRgba16, "rgba16");
    OnlyTokenAppend(FormatRows624To627 + FormatRows628To631 + FormatRows632To635 + FormatRows636To639 + FormatRows640To643, FormatRows644To647, ImageFormatUnknown, "unknown");
    NamedByAppend(CorrectedFormatRows624To627 + FormatRows628To631 + FormatRows632To635 + FormatRows636To639 + FormatRows640To643, FormatRows644To647, FormatTokenClass, None);
    NamedByAppend(FormatRows624To627 + FormatRows628To631 + FormatRows632To635 + FormatRows636To639 + FormatRows640To643 + FormatRows644To647, FormatRows648To651, FormatTokenClass, Some(ImageFormatRgba16f));
    OnlyTokenAppend(FormatRows624To627 + FormatRows628To631 + FormatRows632To635 + FormatRows636To639 + FormatRows640To643 + FormatRows644To647, FormatRows648To651, ImageFormatRgba16f, "rgba16");
    OnlyTokenAppend(FormatRows624To627 + FormatRows628To631 + FormatRows632To635 + FormatRows636To639 + FormatRows640To643 + FormatRows644To647, FormatRows648To651, ImageFormatRgba16, "rgba16");
    OnlyTokenAppend(FormatRows624To627 + FormatRows628To631 + FormatRows632To635 + FormatRows636To639 + FormatRows640To643 + FormatRows644To647, FormatRows648To651, ImageFormatUnknown, "unknown");
    NamedByAppend(CorrectedFormatRows624To627 + FormatRows628To631 + FormatRows632To635 + FormatRows636To639 + FormatRows640To643 + FormatRows644To647, FormatRows648To651, FormatTokenClass, None);
    NamedByAppend(FormatRows624To627 + FormatRows628To631 + FormatRows632To635 + FormatRows636To639 + FormatRows640To643 + FormatRows644To647 + FormatRows648To651, FormatRows652To655, FormatTokenClass, Some(ImageFormatRgba16f));
    OnlyTokenAppend(FormatRows624To627 + FormatRows628To631 + FormatRows632To635 + FormatRows636To639 + FormatRows640To643 + FormatRows644To647 + FormatRows648To651, FormatRows652To655, ImageFormatRgba16f, "rgba16");
    OnlyTokenAppend(FormatRows624To627 + FormatRows628To631 + FormatRows632To635 + FormatRows636To639 + FormatRows640To643 + FormatRows644To647 + FormatRows648To651, FormatRows652To655, ImageFormatRgba16, "rgba16");
    OnlyTokenAppend(FormatRows624To627 + FormatRows628To631 + FormatRows632To635 + FormatRows636To639 + FormatRows640To643 + FormatRows644To647 + FormatRows648To651, FormatRows652To655, ImageFormatUnknown, "unknown");
    NamedByAppend(CorrectedFormatRows624To627 + FormatRows628To631 + FormatRows632To635 + FormatRows636To639 + FormatRows640To643 + FormatRows644To647 + FormatRows648To651, FormatRows652To655, FormatTokenClass, None);
    NamedByAppend(FormatRows624To627 + FormatRows628To631 + FormatRows632To635 + FormatRows636To639 + FormatRows640To643 + FormatRows644To647 + FormatRows648To651 + FormatRows652To655, FormatRows656To659, FormatTokenClass, Some(ImageFormatRgba16f));
    OnlyTokenAppend(FormatRows624To627 + FormatRows628To631 + FormatRows632To635 + FormatRows636To639 + FormatRows640To643 + FormatRows644To647 + FormatRows648To651 + FormatRows652To655, FormatRows656To659, ImageFormatRgba16f, "rgba16");
    OnlyTokenAppend(FormatRows624To627 + FormatRows628To631 + FormatRows632To635 + FormatRows636To639 + FormatRows640To643 + FormatRows644To647 + FormatRows648To651 + FormatRows652To655, FormatRows656To659, ImageFormatRgba16, "rgba16");
    OnlyTokenAppend(FormatRows624To627 + FormatRows628To631 + FormatRows632To635 + FormatRows636To639 + FormatRows640To643 + FormatRows644To647 + FormatRows648To651 + FormatRows652To655, FormatRows656To659, ImageFormatUnknown, "unknown");
    NamedByAppend(CorrectedFormatRows624To627 + FormatRows628To631 + FormatRows632To635 + FormatRows636To639 + FormatRows640To643 + FormatRows644To647 + FormatRows648To651 + FormatRows652To655, FormatRows656To659, FormatTokenClass, None);
    NamedByAppend(FormatRows624To627 + FormatRows628To631 + FormatRows632To635 + FormatRows636To639 + FormatRows640To643 + FormatRows644To647 + FormatRows648To651 + FormatRows652To655 + FormatRows656To659, FormatRows660To663, FormatTokenClass, Some(ImageFormatRgba16f));
    OnlyTokenAppend(FormatRows624To627 + FormatRows628To631 + FormatRows632To635 + FormatRows636To639 + FormatRows640To643 + FormatRows644To647 + FormatRows648To651 + FormatRows652To655 + FormatRows656To659, FormatRows660To663, ImageFormatRgba16f, "rgba16");
    OnlyTokenAppend(FormatRows624To627 + FormatRows628To631 + FormatRows632To635 + FormatRows636To639 + FormatRows640To643 + FormatRows644To647 + FormatRows648To651 + FormatRows652To655 + FormatRows656To659, FormatRows660To663, ImageFormatRgba16, "rgba16");
    OnlyTokenAppend(FormatRows624To627 + FormatRows628To631 + FormatRows632To635 + FormatRows636To639 + FormatRows640To643 + FormatRows644To647 + FormatRows648To651 + FormatRows652To655 + FormatRows656To659, FormatRows660To663, ImageFormatUnknown, "unknown");
    NamedByAppend(CorrectedFormatRows624To627 + FormatRows628To631 + FormatRows632To635 + FormatRows636To639 + FormatRows640To643 + FormatRows644To647 + FormatRows648To651 + FormatRows652To655 + FormatRows656To659, FormatRows660To663, FormatTokenClass, None);
  }

  /** Every type but Unknown has a row in the type table. */
  lemma TypeTabCovers(t: VariableType)
    requires t != Unknown
    ensures HasValue(TypeTab, t)
  {
    HasValueAppend(TypeRows529To532, TypeRows533To535, t);
    HasValueAppend(TypeRows529To532 + TypeRows533To535, TypeRows537, t);
    HasValueAppend(TypeRows529To532 + TypeRows533To535 + TypeRows537, TypeRows539To542, t);
    HasValueAppend(TypeRows529To532 + TypeRows533To535 + TypeRows537 + TypeRows539To542, TypeRows543To546, t);
    HasValueAppend(TypeRows529To532 + TypeRows533To535 + TypeRows537 + TypeRows539To542 + TypeRows543To546, TypeRows547To550, t);
    HasValueAppend(TypeRows529To532 + TypeRows533To535 + TypeRows537 + TypeRows539To542 + TypeRows543To546 + TypeRows547To550, TypeRows552To555, t);
    HasValueAppend(TypeRows529To532 + TypeRows533To535 + TypeRows537 + TypeRows539To542 + TypeRows543To546 + TypeRows547To550 + TypeRows552To555, TypeRows556To557, t);
    HasValueAppend(TypeRows529To532 + TypeRows533To535 + TypeRows537 + TypeRows539To542 + TypeRows543To546 + TypeRows547To550 + TypeRows552To555 + TypeRows556To557, TypeRows559To562, t);
    HasValueAppend(TypeRows529To532 + TypeRows533To535 + TypeRows537 + TypeRows539To542 + TypeRows543To546 + TypeRows547To550 + TypeRows552To555 + TypeRows556To557 + TypeRows559To562, TypeRows564To567, t);
    HasValueAppend(TypeRows529To532 + TypeRows533To535 + TypeRows537 + TypeRows539To542 + TypeRows543To546 + TypeRows547To550 + TypeRows552To555 + TypeRows556To557 + TypeRows559To562 + TypeRows564To567, TypeRows569To572, t);
    HasValueAppend(TypeRows529To532 + TypeRows533To535 + TypeRows537 + TypeRows539To542 + TypeRows543To546 + TypeRows547To550 + TypeRows552To555 + TypeRows556To557 + TypeRows559To562 + TypeRows564To567 + TypeRows569To572, TypeRows574To577, t);
    HasValueAppend(TypeRows529To532 + TypeRows533To535 + TypeRows537 + TypeRows539To542 + TypeRows543To546 + TypeRows547To550 + TypeRows552To555 + TypeRows556To557 + TypeRows559To562 + TypeRows564To567 + TypeRows569To572 + TypeRows574To577, TypeRows578To581, t);
    HasValueAppend(TypeRows529To532 + TypeRows533To535 + TypeRows537 + TypeRows539To542 + TypeRows543To546 + TypeRows547To550 + TypeRows552To555 + TypeRows556To557 + TypeRows559To562 + TypeRows564To567 + TypeRows569To572 + TypeRows574To577 + TypeRows578To581, TypeRows582To585, t);
    HasValueAppend(TypeRows529To532 + TypeRows533To535 + TypeRows537 + TypeRows539To542 + TypeRows543To546 + TypeRows547To550 + TypeRows552To555 + TypeRows556To557 + TypeRows559To562 + TypeRows564To567 + TypeRows569To572 + TypeRows574To577 + TypeRows578To581 + TypeRows582To585, TypeRows586, t);
    HasValueAppend(TypeRows529To532 + TypeRows533To535 + TypeRows537 + TypeRows539To542 + TypeRows543To546 + TypeRows547To550 + TypeRows552To555 + TypeRows556To557 + TypeRows559To562 + TypeRows564To567 + TypeRows569To572 + TypeRows574To577 + TypeRows578To581 + TypeRows582To585 + TypeRows586, TypeRows588To591, t);
    HasValueAppend(TypeRows529To532 + TypeRows533To535 + TypeRows537 + TypeRows539To542 + TypeRows543To546 + TypeRows547To550 + TypeRows552To555 + TypeRows556To557 + TypeRows559To562 + TypeRows564To567 + TypeRows569To572 + TypeRows574To577 + TypeRows578To581 + TypeRows582To585 + TypeRows586 + TypeRows588To591, TypeRows592To595, t);
    HasValueAppend(TypeRows529To532 + TypeRows533To535 + TypeRows537 + TypeRows539To542 + TypeRows543To546 + TypeRows547To550 + TypeRows552To555 + TypeRows556To557 + TypeRows559To562 + TypeRows564To567 + TypeRows569To572 + TypeRows574To577 + TypeRows578To581 + TypeRows582To585 + TypeRows586 + TypeRows588To591 + TypeRows592To595, TypeRows596To599, t);
    match t
    case Float => RowHasValue(TypeRows529To532, 0);
    case Vec2 => RowHasValue(TypeRows529To532, 1);
    case Vec3 => RowHasValue(TypeRows529To532, 2);
    case Vec4 => RowHasValue(TypeRows529To532, 3);
    case Mat2 => RowHasValue(TypeRows533To535, 0);
    case Mat3 => RowHasValue(TypeRows533To535, 1);
    case Mat4 => RowHasValue(TypeRows533To535, 2);
    case Struct => RowHasValue(TypeRows537, 0);
    case Sampler1D => RowHasValue(TypeRows539To542, 0);
    case Sampler2D => RowHasValue(TypeRows539To542, 1);
    case Sampler2DMS => RowHasValue(TypeRows539To542, 2);
    case Sampler3D => RowHasValue(TypeRows539To542, 3);
    case SamplerCube => RowHasValue(TypeRows543To546, 0);
    case Sampler1DArray => RowHasValue(TypeRows543To546, 1);
    case Sampler2DArray => RowHasValue(TypeRows543To546, 2);
    case Sampler2DMSArray => RowHasValue(TypeRows543To546, 3);
    case Sampler3DArray => RowHasValue(TypeRows547To550, 0);
    case SamplerCubeArray => RowHasValue(TypeRows547To550, 1);
    case SamplerRect => RowHasValue(TypeRows547To550, 2);
    case SamplerBuffer => RowHasValue(TypeRows547To550, 3);
    case Mat2x3 => RowHasValue(TypeRows552To555, 0);
    case Mat2x4 => RowHasValue(TypeRows552To555, 1);
    case Mat3x2 => RowHasValue(TypeRows552To555, 2);
    case Mat3x4 => RowHasValue(TypeRows552To555, 3);
    case Mat4x2 => RowHasValue(TypeRows556To557, 0);
    case Mat4x3 => RowHasValue(TypeRows556To557, 1);
    case Int => RowHasValue(TypeRows559To562, 0);
    case Int2 => RowHasValue(TypeRows559To562, 1);
    case Int3 => RowHasValue(TypeRows559To562, 2);
    case Int4 => RowHasValue(TypeRows559To562, 3);
    case Uint => RowHasValue(TypeRows564To567, 0);
    case Uint2 => RowHasValue(TypeRows564To567, 1);
    case Uint3 => RowHasValue(TypeRows564To567, 2);
    case Uint4 => RowHasValue(TypeRows564To567, 3);
    case Bool => RowHasValue(TypeRows569To572, 0);
    case Bool2 => RowHasValue(TypeRows569To572, 1);
    case Bool3 => RowHasValue(TypeRows569To572, 2);
    case Bool4 => RowHasValue(TypeRows569To572, 3);
    case Double => RowHasValue(TypeRows574To577, 0);
    case Double2 => RowHasValue(TypeRows574To577, 1);
    case Double3 => RowHasValue(TypeRows574To577, 2);
    case Double4 => RowHasValue(TypeRows574To577, 3);
    case DMat2 => RowHasValue(TypeRows578To581, 0);
    case DMat3 => RowHasValue(TypeRows578To581, 1);
    case DMat4 => RowHasValue(TypeRows578To581, 2);
    case DMat2x3 => RowHasValue(TypeRows578To581, 3);
    case DMat2x4 => RowHasValue(TypeRows582To585, 0);
    case DMat3x2 => RowHasValue(TypeRows582To585, 1);
    case DMat3x4 => RowHasValue(TypeRows582To585, 2);
    case DMat4x2 => RowHasValue(TypeRows582To585, 3);
    case DMat4x3 => RowHasValue(TypeRows586, 0);
    case Image1D => RowHasValue(TypeRows588To591, 0);
    case Image2D => RowHasValue(TypeRows588To591, 1);
    case Image2DMS => RowHasValue(TypeRows588To591, 2);
    case Image3D => RowHasValue(TypeRows588To591, 3);
    case ImageCube => RowHasValue(TypeRows592To595, 0);
    case Image1DArray => RowHasValue(TypeRows592To595, 1);
    case Image2DArray => RowHasValue(TypeRows592To595, 2);
    case Image2DMSArray => RowHasValue(TypeRows592To595, 3);
    case Image3DArray => RowHasValue(TypeRows596To599, 0);
    case ImageCubeArray => RowHasValue(TypeRows596To599, 1);
    case ImageRect => RowHasValue(TypeRows596To599, 2);
    case ImageBuffer => RowHasValue(TypeRows596To599, 3);
  }

  /** Every image format has a row in the image-format table as written. */
  lemma ImageFormatTabCovers(f: ImageFormat)
    ensures HasValue(ImageFormatTab, f)
  {
    HasValueAppend(FormatRows624To627, FormatRows628To631, f);
    HasValueAppend(FormatRows624To627 + FormatRows628To631, FormatRows632To635, f);
    HasValueAppend(FormatRows624To627 + FormatRows628To631 + FormatRows632To635, FormatRows636To639, f);
    HasValueAppend(FormatRows624To627 + FormatRows628To631 + FormatRows632To635 + FormatRows636To639, FormatRows640To643, f);
    HasValueAppend(FormatRows624To627 + FormatRows628To631 + FormatRows632To635 + FormatRows636To639 + FormatRows640To643, FormatRows644To647, f);
    HasValueAppend(FormatRows624To627 + FormatRows628To631 + FormatRows632To635 + FormatRows636To639 + FormatRows640To643 + FormatRows644To647, FormatRows648To651, f);
    HasValueAppend(FormatRows624To627 + FormatRows628To631 + FormatRows632To635 + FormatRows636To639 + FormatRows640To643 + FormatRows644To647 + FormatRows648To651, FormatRows652To655, f);
    HasValueAppend(FormatRows624To627 + FormatRows628To631 + FormatRows632To635 + FormatRows636To639 + FormatRows640To643 + FormatRows644To647 + FormatRows648To651 + FormatRows652To655, FormatRows656To659, f);
    HasValueAppend(FormatRows624To627 + FormatRows628To631 + FormatRows632To635 + FormatRows636To639 + FormatRows640To643 + FormatRows644To647 + FormatRows648To651 + FormatRows652To655 + FormatRows656To659, FormatRows660To663, f);
    match f
    case ImageFormatUnknown => RowHasValue(FormatRows624To627, 0);
    case ImageFormatRgba32f => RowHasValue(FormatRows624To627, 1);
    case ImageFormatRgba16f => RowHasValue(FormatRows624To627, 2);
    case ImageFormatR32f => RowHasValue(FormatRows624To627, 3);
    case ImageFormatRgba8 => RowHasValue(FormatRows628To631, 0);
    case ImageFormatRgba8Snorm => RowHasValue(FormatRows628To631, 1);
    case ImageFormatRg32f => RowHasValue(FormatRows628To631, 2);
    case ImageFormatRg16f => RowHasValue(FormatRows628To631, 3);
    case ImageFormatR11fG11fB10f => RowHasValue(FormatRows632To635, 0);
    case ImageFormatR16f => RowHasValue(FormatRows632To635, 1);
    case ImageFormatRgba16 => RowHasValue(FormatRows632To635, 2);
    case ImageFormatRgb10A2 => RowHasValue(FormatRows632To635, 3);
    case ImageFormatRg16 => RowHasValue(FormatRows636To639, 0);
    case ImageFormatRg8 => RowHasValue(FormatRows636To639, 1);
    case ImageFormatR16 => RowHasValue(FormatRows636To639, 2);
    case ImageFormatR8 => RowHasValue(FormatRows636To639, 3);
    case ImageFormatRgba16Snorm => RowHasValue(FormatRows640To643, 0);
    case ImageFormatRg16Snorm => RowHasValue(FormatRows640To643, 1);
    case ImageFormatRg8Snorm => RowHasValue(FormatRows640To643, 2);
    case ImageFormatR16Snorm => RowHasValue(FormatRows640To643, 3);
    case ImageFormatR8Snorm => RowHasValue(FormatRows644To647, 0);
    case ImageFormatRgba32i => RowHasValue(FormatRows644To647, 1);
    case ImageFormatRgba16i => RowHasValue(FormatRows644To647, 2);
    case ImageFormatRgba8i => RowHasValue(FormatRows644To647, 3);
    case ImageFormatR32i => RowHasValue(FormatRows648To651, 0);
    case ImageFormatRg32i => RowHasValue(FormatRows648To651, 1);
    case ImageFormatRg16i => RowHasValue(FormatRows648To651, 2);
    case ImageFormatRg8i => RowHasValue(FormatRows648To651, 3);
    case ImageFormatR16i => RowHasValue(FormatRows652To655, 0);
    case ImageFormatR8i => RowHasValue(FormatRows652To655, 1);
    case ImageFormatRgba32ui => RowHasValue(FormatRows652To655, 2);
    case ImageFormatRgba16ui => RowHasValue(FormatRows652To655, 3);
    case ImageFormatRgba8ui => RowHasValue(FormatRows656To659, 0);
    case ImageFormatR32ui => RowHasValue(FormatRows656To659, 1);
    case ImageFormatRgb10a2ui => RowHasValue(FormatRows656To659, 2);
    case ImageFormatRg32ui => RowHasValue(FormatRows656To659, 3);
    case ImageFormatRg16ui => RowHasValue(FormatRows660To663, 0);
    case ImageFormatRg8ui => RowHasValue(FormatRows660To663, 1);
    case ImageFormatR16ui => RowHasValue(FormatRows660To663, 2);
    case ImageFormatR8ui => RowHasValue(FormatRows660To663, 3);
  }

  /** Every image format has a row in the corrected image-format table. */
  lemma CorrectedImageFormatTabCovers(f: ImageFormat)
    ensures HasValue(CorrectedImageFormatTab, f)
  {
    HasValueAppend(CorrectedFormatRows624To627, FormatRows628To631, f);
    HasValueAppend(CorrectedFormatRows624To627 + FormatRows628To631, FormatRows632To635, f);
    HasValueAppend(CorrectedFormatRows624To627 + FormatRows628To631 + FormatRows632To635, FormatRows636To639, f);
    HasValueAppend(CorrectedFormatRows624To627 + FormatRows628To631 + FormatRows632To635 + FormatRows636To639, FormatRows640To643, f);
    HasValueAppend(CorrectedFormatRows624To627 + FormatRows628To631 + FormatRows632To635 + FormatRows636To639 + FormatRows640To643, FormatRows644To647, f);
    HasValueAppend(CorrectedFormatRows624To627 + FormatRows628To631 + FormatRows632To635 + FormatRows636To639 + FormatRows640To643 + FormatRows644To647, FormatRows648To651, f);
    HasValueAppend(CorrectedFormatRows624To627 + FormatRows628To631 + FormatRows632To635 + FormatRows636To639 + FormatRows640To643 + FormatRows644To647 + FormatRows648To651, FormatRows652To655, f);
    HasValueAppend(CorrectedFormatRows624To627 + FormatRows628To631 + FormatRows632To635 + FormatRows636To639 + FormatRows640To643 + FormatRows644To647 + FormatRows648To651 + FormatRows652To655, FormatRows656To659, f);
    HasValueAppend(CorrectedFormatRows624To627 + FormatRows628To631 + FormatRows632To635 + FormatRows636To639 + FormatRows640To643 + FormatRows644To647 + FormatRows648To651 + FormatRows652To655 + FormatRows656To659, FormatRows660To663, f);
    match f
    case ImageFormatUnknown => RowHasValue(CorrectedFormatRows624To627, 0);
    case ImageFormatRgba32f => RowHasValue(CorrectedFormatRows624To627, 1);
    case ImageFormatRgba16f => RowHasValue(CorrectedFormatRows624To627, 2);
    case ImageFormatR32f => RowHasValue(CorrectedFormatRows624To627, 3);
    case ImageFormatRgba8 => RowHasValue(FormatRows628To631, 0);
    case ImageFormatRgba8Snorm => RowHasValue(FormatRows628To631, 1);
    case ImageFormatRg32f => RowHasValue(FormatRows628To631, 2);
    case ImageFormatRg16f => RowHasValue(FormatRows628To631, 3);
    case ImageFormatR11fG11fB10f => RowHasValue(FormatRows632To635, 0);
    case ImageFormatR16f => RowHasValue(FormatRows632To635, 1);
    case ImageFormatRgba16 => RowHasValue(FormatRows632To635, 2);
    case ImageFormatRgb10A2 => RowHasValue(FormatRows632To635, 3);
    case ImageFormatRg16 => RowHasValue(FormatRows636To639, 0);
    case ImageFormatRg8 => RowHasValue(FormatRows636To639, 1);
    case ImageFormatR16 => RowHasValue(FormatRows636To639, 2);
    case ImageFormatR8 => RowHasValue(FormatRows636To639, 3);
    case ImageFormatRgba16Snorm => RowHasValue(FormatRows640To643, 0);
    case ImageFormatRg16Snorm => RowHasValue(FormatRows640To643, 1);
    case ImageFormatRg8Snorm => RowHasValue(FormatRows640To643, 2);
    case ImageFormatR16Snorm => RowHasValue(FormatRows640To643, 3);
    case ImageFormatR8Snorm => RowHasValue(FormatRows644To647, 0);
    case ImageFormatRgba32i => RowHasValue(FormatRows644To647, 1);
    case ImageFormatRgba16i => RowHasValue(FormatRows644To647, 2);
    case ImageFormatRgba8i => RowHasValue(FormatRows644To647, 3);
    case ImageFormatR32i => RowHasValue(FormatRows648To651, 0);
    case ImageFormatRg32i => RowHasValue(FormatRows648To651, 1);
    case ImageFormatRg16i => RowHasValue(FormatRows648To651, 2);
    case ImageFormatRg8i => RowHasValue(FormatRows648To651, 3);
    case ImageFormatR16i => RowHasValue(FormatRows652To655, 0);
    case ImageFormatR8i => RowHasValue(FormatRows652To655, 1);
    case ImageFormatRgba32ui => RowHasValue(FormatRows652To655, 2);
    case ImageFormatRgba16ui => RowHasValue(FormatRows652To655, 3);
    case ImageFormatRgba8ui => RowHasValue(FormatRows656To659, 0);
    case ImageFormatR32ui => RowHasValue(FormatRows656To659, 1);
    case ImageFormatRgb10a2ui => RowHasValue(FormatRows656To659, 2);
    case ImageFormatRg32ui => RowHasValue(FormatRows656To659, 3);
    case ImageFormatRg16ui => RowHasValue(FormatRows660To663, 0);
    case ImageFormatRg8ui => RowHasValue(FormatRows660To663, 1);
    case ImageFormatR16ui => RowHasValue(FormatRows660To663, 2);
    case ImageFormatR8ui => RowHasValue(FormatRows660To663, 3);
  }


  lemma TypeRows529To532Named()
    ensures NamedBy(TypeRows529To532, TypeTokenClass, None) && Lacks(TypeRows529To532, Unknown)
  {
    assert TypeTokenClass("float") == Float;
    assert TypeTokenClass("vec2") == Vec2;
    assert TypeTokenClass("vec3") == Vec3;
    assert TypeTokenClass("vec4") == Vec4;
  }

  lemma TypeRows533To535Named()
    ensures NamedBy(TypeRows533To535, TypeTokenClass, None) && Lacks(TypeRows533To535, Unknown)
  {
    assert TypeTokenClass("mat2") == Mat2;
    assert TypeTokenClass("mat3") == Mat3;
    assert TypeTokenClass("mat4") == Mat4;
  }

  lemma TypeRows537Named()
    ensures NamedBy(TypeRows537, TypeTokenClass, None) && Lacks(TypeRows537, Unknown)
  {
    assert TypeTokenClass("struct") == Struct;
  }

  lemma TypeRows539To542Named()
    ensures NamedBy(TypeRows539To542, TypeTokenClass, None) && Lacks(TypeRows539To542, Unknown)
  {
    assert TypeTokenClass("sampler1D") == Sampler1D;
    assert TypeTokenClass("sampler2D") == Sampler2D;
    assert TypeTokenClass("sampler2DMS") == Sampler2DMS;
    assert TypeTokenClass("sampler3D") == Sampler3D;
  }

  lemma TypeRows543To546Named()
    ensures NamedBy(TypeRows543To546, TypeTokenClass, None) && Lacks(TypeRows543To546, Unknown)
  {
    assert TypeTokenClass("samplerCube") == SamplerCube;
    assert TypeTokenClass("sampler1DArray") == Sampler1DArray;
    assert TypeTokenClass("sampler2DArray") == Sampler2DArray;
    assert TypeTokenClass("sampler2DMSArray") == Sampler2DMSArray;
  }

  lemma TypeRows547To550Named()
    ensures NamedBy(TypeRows547To550, TypeTokenClass, None) && Lacks(TypeRows547To550, Unknown)
  {
    assert TypeTokenClass("sampler3DArray") == Sampler3DArray;
    assert TypeTokenClass("samplerCubeArray") == SamplerCubeArray;
    assert TypeTokenClass("samplerRect") == SamplerRect;
    assert TypeTokenClass("samplerBuffer") == SamplerBuffer;
  }

  lemma TypeRows552To555Named()
    ensures NamedBy(TypeRows552To555, TypeTokenClass, None) && Lacks(TypeRows552To555, Unknown)
  {
    assert TypeTokenClass("mat2x3") == Mat2x3;
    assert TypeTokenClass("mat2x4") == Mat2x4;
    assert TypeTokenClass("mat3x2") == Mat3x2;
    assert TypeTokenClass("mat3x4") == Mat3x4;
  }

  lemma TypeRows556To557Named()
    ensures NamedBy(TypeRows556To557, TypeTokenClass, None) && Lacks(TypeRows556To557, Unknown)
  {
    assert TypeTokenClass("mat4x2") == Mat4x2;
    assert TypeTokenClass("mat4x3") == Mat4x3;
  }

  lemma TypeRows559To562Named()
    ensures NamedBy(TypeRows559To562, TypeTokenClass, None) && Lacks(TypeRows559To562, Unknown)
  {
    assert TypeTokenClass("int") == Int;
    assert TypeTokenClass("ivec2") == Int2;
    assert TypeTokenClass("ivec3") == Int3;
    assert TypeTokenClass("ivec4") == Int4;
  }

  lemma TypeRows564To567Named()
    ensures NamedBy(TypeRows564To567, TypeTokenClass, None) && Lacks(TypeRows564To567, Unknown)
  {
    assert TypeTokenClass("uint") == Uint;
    assert TypeTokenClass("uvec2") == Uint2;
    assert TypeTokenClass("uvec3") == Uint3;
    assert TypeTokenClass("uvec4") == Uint4;
  }

  lemma TypeRows569To572Named()
    ensures NamedBy(TypeRows569To572, TypeTokenClass, None) && Lacks(TypeRows569To572, Unknown)
  {
    assert TypeTokenClass("bool") == Bool;
    assert TypeTokenClass("bvec2") == Bool2;
    assert TypeTokenClass("bvec3") == Bool3;
    assert TypeTokenClass("bvec4") == Bool4;
  }

  lemma TypeRows574To577Named()
    ensures NamedBy(TypeRows574To577, TypeTokenClass, None) && Lacks(TypeRows574To577, Unknown)
  {
    assert TypeTokenClass("double") == Double;
    assert TypeTokenClass("dvec2") == Double2;
    assert TypeTokenClass("dvec3") == Double3;
    assert TypeTokenClass("dvec4") == Double4;
  }

  lemma TypeRows578To581Named()
    ensures NamedBy(TypeRows578To581, TypeTokenClass, None) && Lacks(TypeRows578To581, Unknown)
  {
    assert TypeTokenClass("dmat2") == DMat2;
    assert TypeTokenClass("dmat3") == DMat3;
    assert TypeTokenClass("dmat4") == DMat4;
    assert TypeTokenClass("dmat2x3") == DMat2x3;
  }

  lemma TypeRows582To585Named()
    ensures NamedBy(TypeRows582To585, TypeTokenClass, None) && Lacks(TypeRows582To585, Unknown)
  {
    assert TypeTokenClass("dmat2x4") == DMat2x4;
    assert TypeTokenClass("dmat3x2") == DMat3x2;
    assert TypeTokenClass("dmat3x4") == DMat3x4;
    assert TypeTokenClass("dmat4x2") == DMat4x2;
  }

  lemma TypeRows586Named()
    ensures NamedBy(TypeRows586, TypeTokenClass, None) && Lacks(TypeRows586, Unknown)
  {
    assert TypeTokenClass("dmat4x3") == DMat4x3;
  }

  lemma TypeRows588To591Named()
    ensures NamedBy(TypeRows588To591, TypeTokenClass, None) && Lacks(TypeRows588To591, Unknown)
  {
    assert TypeTokenClass("image1D") == Image1D;
    assert TypeTokenClass("image2D") == Image2D;
    assert TypeTokenClass("image2DMS") == Image2DMS;
    assert TypeTokenClass("image3D") == Image3D;
  }

  lemma TypeRows592To595Named()
    ensures NamedBy(TypeRows592To595, TypeTokenClass, None) && Lacks(TypeRows592To595, Unknown)
  {
    assert TypeTokenClass("imageCube") == ImageCube;
    assert TypeTokenClass("image1DArray") == Image1DArray;
    assert TypeTokenClass("image2DArray") == Image2DArray;
    assert TypeTokenClass("image2DMSArray") == Image2DMSArray;
  }

  lemma TypeRows596To599Named()
    ensures NamedBy(TypeRows596To599, TypeTokenClass, None) && Lacks(TypeRows596To599, Unknown)
  {
    assert TypeTokenClass("image3DArray") == Image3DArray;
    assert TypeTokenClass("imageCubeArray") == ImageCubeArray;
    assert TypeTokenClass("imageRect") == ImageRect;
    assert TypeTokenClass("imageBuffer") == ImageBuffer;
  }

  lemma FormatRows624To627Named()
    ensures NamedBy(FormatRows624To627, FormatTokenClass, Some(ImageFormatRgba16f))
    ensures OnlyToken(FormatRows624To627, ImageFormatRgba16f, "rgba16")
    ensures OnlyToken(FormatRows624To627, ImageFormatRgba16, "rgba16")
    ensures OnlyToken(FormatRows624To627, ImageFormatUnknown, "unknown")
  {
    assert FormatTokenClass("unknown") == ImageFormatUnknown;
    assert FormatTokenClass("rgba32f") == ImageFormatRgba32f;
    assert FormatTokenClass("r32f") == ImageFormatR32f;
  }

  lemma FormatRows628To631Named()
    ensures NamedBy(FormatRows628To631, FormatTokenClass, None)
    ensures NamedBy(FormatRows628To631, FormatTokenClass, Some(ImageFormatRgba16f))
    ensures OnlyToken(FormatRows628To631, ImageFormatRgba16f, "rgba16")
    ensures OnlyToken(FormatRows628To631, ImageFormatRgba16, "rgba16")
    ensures OnlyToken(FormatRows628To631, ImageFormatUnknown, "unknown")
  {
    assert FormatTokenClass("rgba8") == ImageFormatRgba8;
    assert FormatTokenClass("rgba8_snorm") == ImageFormatRgba8Snorm;
    assert FormatTokenClass("rg32f") == ImageFormatRg32f;
    assert FormatTokenClass("rg16f") == ImageFormatRg16f;
  }

  lemma FormatRows632To635Named()
    ensures NamedBy(FormatRows632To635, FormatTokenClass, None)
    ensures NamedBy(FormatRows632To635, FormatTokenClass, Some(ImageFormatRgba16f))
    ensures OnlyToken(FormatRows632To635, ImageFormatRgba16f, "rgba16")
    ensures OnlyToken(FormatRows632To635, ImageFormatRgba16, "rgba16")
    ensures OnlyToken(FormatRows632To635, ImageFormatUnknown, "unknown")
  {
    assert FormatTokenClass("r11f_g11f_b10f") == ImageFormatR11fG11fB10f;
    assert FormatTokenClass("r16f") == ImageFormatR16f;
    assert FormatTokenClass("rgba16") == ImageFormatRgba16;
    assert FormatTokenClass("rgb10_a2") == ImageFormatRgb10A2;
  }

  lemma FormatRows636To639Named()
    ensures NamedBy(FormatRows636To639, FormatTokenClass, None)
    ensures NamedBy(FormatRows636To639, FormatTokenClass, Some(ImageFormatRgba16f))
    ensures OnlyToken(FormatRows636To639, ImageFormatRgba16f, "rgba16")
    ensures OnlyToken(FormatRows636To639, ImageFormatRgba16, "rgba16")
    ensures OnlyToken(FormatRows636To639, ImageFormatUnknown, "unknown")
  {
    assert FormatTokenClass("rg16") == ImageFormatRg16;
    assert FormatTokenClass("rg8") == ImageFormatRg8;
    assert FormatTokenClass("r16") == ImageFormatR16;
    assert FormatTokenClass("r8") == ImageFormatR8;
  }

  lemma FormatRows640To643Named()
    ensures NamedBy(FormatRows640To643, FormatTokenClass, None)
    ensures NamedBy(FormatRows640To643, FormatTokenClass, Some(ImageFormatRgba16f))
    ensures OnlyToken(FormatRows640To643, ImageFormatRgba16f, "rgba16")
    ensures OnlyToken(FormatRows640To643, ImageFormatRgba16, "rgba16")
    ensures OnlyToken(FormatRows640To643, ImageFormatUnknown, "unknown")
  {
    assert FormatTokenClass("rgba16_snorm") == ImageFormatRgba16Snorm;
    assert FormatTokenClass("rg16_snorm") == ImageFormatRg16Snorm;
    assert FormatTokenClass("rg8_snorm") == ImageFormatRg8Snorm;
    assert FormatTokenClass("r16_snorm") == ImageFormatR16Snorm;
  }

  lemma FormatRows644To647Named()
    ensures NamedBy(FormatRows644To647, FormatTokenClass, None)
    ensures NamedBy(FormatRows644To647, FormatTokenClass, Some(ImageFormatRgba16f))
    ensures OnlyToken(FormatRows644To647, ImageFormatRgba16f, "rgba16")
    ensures OnlyToken(FormatRows644To647, ImageFormatRgba16, "rgba16")
    ensures OnlyToken(FormatRows644To647, ImageFormatUnknown, "unknown")
  {
    assert FormatTokenClass("r8_snorm") == ImageFormatR8Snorm;
    assert FormatTokenClass("rgba32i") == ImageFormatRgba32i;
    assert FormatTokenClass("rgba16i") == ImageFormatRgba16i;
    assert FormatTokenClass("rgba8i") == ImageFormatRgba8i;
  }

  lemma FormatRows648To651Named()
    ensures NamedBy(FormatRows648To651, FormatTokenClass, None)
    ensures NamedBy(FormatRows648To651, FormatTokenClass, Some(ImageFormatRgba16f))
    ensures OnlyToken(FormatRows648To651, ImageFormatRgba16f, "rgba16")
    ensures OnlyToken(FormatRows648To651, ImageFormatRgba16, "rgba16")
    ensures OnlyToken(FormatRows648To651, ImageFormatUnknown, "unknown")
  {
    assert FormatTokenClass("r32i") == ImageFormatR32i;
    assert FormatTokenClass("rg32i") == ImageFormatRg32i;
    assert FormatTokenClass("rg16i") == ImageFormatRg16i;
    assert FormatTokenClass("rg8i") == ImageFormatRg8i;
  }

  lemma FormatRows652To655Named()
    ensures NamedBy(FormatRows652To655, FormatTokenClass, None)
    ensures NamedBy(FormatRows652To655, FormatTokenClass, Some(ImageFormatRgba16f))
    ensures OnlyToken(FormatRows652To655, ImageFormatRgba16f, "rgba16")
    ensures OnlyToken(FormatRows652To655, ImageFormatRgba16, "rgba16")
    ensures OnlyToken(FormatRows652To655, ImageFormatUnknown, "unknown")
  {
    assert FormatTokenClass("r16i") == ImageFormatR16i;
    assert FormatTokenClass("r8i") == ImageFormatR8i;
    assert FormatTokenClass("rgba32ui") == ImageFormatRgba32ui;
    assert FormatTokenClass("rgba16ui") == ImageFormatRgba16ui;
  }

  lemma FormatRows656To659Named()
    ensures NamedBy(FormatRows656To659, FormatTokenClass, None)
    ensures NamedBy(FormatRows656To659, FormatTokenClass, Some(ImageFormatRgba16f))
    ensures OnlyToken(FormatRows656To659, ImageFormatRgba16f, "rgba16")
    ensures OnlyToken(FormatRows656To659, ImageFormatRgba16, "rgba16")
    ensures OnlyToken(FormatRows656To659, ImageFormatUnknown, "unknown")
  {
    assert FormatTokenClass("rgba8ui") == ImageFormatRgba8ui;
    assert FormatTokenClass("r32ui") == ImageFormatR32ui;
    assert FormatTokenClass("rgb10_a2ui") == ImageFormatRgb10a2ui;
    assert FormatTokenClass("rg32ui") == ImageFormatRg32ui;
  }

  lemma FormatRows660To663Named()
    ensures NamedBy(FormatRows660To663, FormatTokenClass, None)
    ensures NamedBy(FormatRows660To663, FormatTokenClass, Some(ImageFormatRgba16f))
    ensures OnlyToken(FormatRows660To663, ImageFormatRgba16f, "rgba16")
    ensures OnlyToken(FormatRows660To663, ImageFormatRgba16, "rgba16")
    ensures OnlyToken(FormatRows660To663, ImageFormatUnknown, "unknown")
  {
    assert FormatTokenClass("rg16ui") == ImageFormatRg16ui;
    assert FormatTokenClass("rg8ui") == ImageFormatRg8ui;
    assert FormatTokenClass("r16ui") == ImageFormatR16ui;
    assert FormatTokenClass("r8ui") == ImageFormatR8ui;
  }

  lemma CorrectedFormatRows624To627Named()
    ensures NamedBy(CorrectedFormatRows624To627, FormatTokenClass, None)
  {
    assert FormatTokenClass("unknown") == ImageFormatUnknown;
    assert FormatTokenClass("rgba32f") == ImageFormatRgba32f;
    assert FormatTokenClass("rgba16f") == ImageFormatRgba16f;
    assert FormatTokenClass("r32f") == ImageFormatR32f;
  }

  /**
   * A decision tree on length and a few characters that names the type of
   * every token of the type table; it shows that no two rows share a token.
   */
  ghost function TypeTokenClass(s: string): VariableType
  {
    match |s|
    case 3 => Int
    case 4 => TypeTokenClass4(s)
    case 5 => TypeTokenClass5(s)
    case 6 => TypeTokenClass6(s)
    case 7 => TypeTokenClass7(s)
    case 9 => TypeTokenClass9(s)
    case 11 => TypeTokenClass11(s)
    case 12 => TypeTokenClass12(s)
    case 13 => SamplerBuffer
    case 14 => TypeTokenClass14(s)
    case 16 => TypeTokenClass16(s)
    case _ => Unknown
  }

  ghost function TypeTokenClass4(s: string): VariableType
    requires |s| == 4
  {
    if s[3] == '2' then
      if s[2] == 'c' then
        Vec2
      else
        Mat2
    else if s[3] == '3' then
      if s[2] == 'c' then
        Vec3
      else
        Mat3
    else if s[3] == '4' then
      if s[2] == 'c' then
        Vec4
      else
        Mat4
    else if s[3] == 'l' then
      Bool
    else
      Uint
  }

  ghost function TypeTokenClass5(s: string): VariableType
    requires |s| == 5
  {
    if s[0] == 'b' then
      if s[4] == '2' then
        Bool2
      else if s[4] == '3' then
        Bool3
      else
        Bool4
    else if s[0] == 'd' then
      if s[4] == '2' then
        if s[3] == 'c' then
          Double2
        else
          DMat2
      else if s[4] == '3' then
        if s[3] == 'c' then
          Double3
        else
          DMat3
      else
        if s[3] == 'c' then
          Double4
        else
          DMat4
    else if s[0] == 'f' then
      Float
    else if s[0] == 'i' then
      if s[4] == '2' then
        Int2
      else if s[4] == '3' then
        Int3
      else
        Int4
    else
      if s[4] == '2' then
        Uint2
      else if s[4] == '3' then
        Uint3
      else
        Uint4
  }

  ghost function TypeTokenClass6(s: string): VariableType
    requires |s| == 6
  {
    if s[5] == '2' then
      if s[3] == '3' then
        Mat3x2
      else
        Mat4x2
    else if s[5] == '3' then
      if s[3] == '2' then
        Mat2x3
      else
        Mat4x3
    else if s[5] == '4' then
      if s[3] == '2' then
        Mat2x4
      else
        Mat3x4
    else if s[5] == 'e' then
      Double
    else
      Struct
  }

  ghost function TypeTokenClass7(s: string): VariableType
    requires |s| == 7
  {
    if s[6] == '2' then
      if s[4] == '3' then
        DMat3x2
      else
        DMat4x2
    else if s[6] == '3' then
      if s[4] == '2' then
        DMat2x3
      else
        DMat4x3
    else if s[6] == '4' then
      if s[4] == '2' then
        DMat2x4
      else
        DMat3x4
    else
      if s[5] == '1' then
        Image1D
      else if s[5] == '2' then
        Image2D
      else
        Image3D
  }

  ghost function TypeTokenClass9(s: string): VariableType
    requires |s| == 9
  {
    if s[7] == '1' then
      Sampler1D
    else if s[7] == '2' then
      Sampler2D
    else if s[7] == '3' then
      Sampler3D
    else if s[7] == 'M' then
      Image2DMS
    else if s[7] == 'b' then
      ImageCube
    else
      ImageRect
  }

  ghost function TypeTokenClass11(s: string): VariableType
    requires |s| == 11
  {
    if s[10] == 'S' then
      Sampler2DMS
    else if s[10] == 'e' then
      SamplerCube
    else if s[10] == 'r' then
      ImageBuffer
    else
      SamplerRect
  }

  ghost function TypeTokenClass12(s: string): VariableType
    requires |s| == 12
  {
    if s[5] == '1' then
      Image1DArray
    else if s[5] == '2' then
      Image2DArray
    else
      Image3DArray
  }

  ghost function TypeTokenClass14(s: string): VariableType
    requires |s| == 14
  {
    if s[7] == '1' then
      Sampler1DArray
    else if s[7] == '2' then
      Sampler2DArray
    else if s[7] == '3' then
      Sampler3DArray
    else if s[7] == 'M' then
      Image2DMSArray
    else
      ImageCubeArray
  }

  ghost function TypeTokenClass16(s: string): VariableType
    requires |s| == 16
  {
    if s[10] == 'S' then
      Sampler2DMSArray
    else
      SamplerCubeArray
  }

  /**
   * A decision tree that names the format of every token of the corrected
   * format table. It reads "rgba16" as ImageFormatRgba16, so on the table as
   * written it misnames row 2 (line 626) only.
   */
  ghost function FormatTokenClass(s: string): ImageFormat
  {
    match |s|
    case 2 => ImageFormatR8
    case 3 => FormatTokenClass3(s)
    case 4 => FormatTokenClass4(s)
    case 5 => FormatTokenClass5(s)
    case 6 => FormatTokenClass6(s)
    case 7 => FormatTokenClass7(s)
    case 8 => FormatTokenClass8(s)
    case 9 => FormatTokenClass9(s)
    case 10 => FormatTokenClass10(s)
    case 11 => ImageFormatRgba8Snorm
    case 12 => ImageFormatRgba16Snorm
    case 14 => ImageFormatR11fG11fB10f
    case _ => ImageFormatUnknown
  }

  ghost function FormatTokenClass3(s: string): ImageFormat
    requires |s| == 3
  {
    if s[2] == '6' then
      ImageFormatR16
    else if s[2] == '8' then
      ImageFormatRg8
    else
      ImageFormatR8i
  }

  ghost function FormatTokenClass4(s: string): ImageFormat
    requires |s| == 4
  {
    if s[2] == '1' then
      ImageFormatRg16
    else if s[2] == '2' then
      if s[3] == 'f' then
        ImageFormatR32f
      else
        ImageFormatR32i
    else if s[2] == '6' then
      if s[3] == 'f' then
        ImageFormatR16f
      else
        ImageFormatR16i
    else if s[2] == '8' then
      ImageFormatRg8i
    else
      ImageFormatR8ui
  }

  ghost function FormatTokenClass5(s: string): ImageFormat
    requires |s| == 5
  {
    if s[2] == '1' then
      if s[4] == 'f' then
        ImageFormatRg16f
      else
        ImageFormatRg16i
    else if s[2] == '2' then
      ImageFormatR32ui
    else if s[2] == '3' then
      if s[4] == 'f' then
        ImageFormatRg32f
      else
        ImageFormatRg32i
    else if s[2] == '6' then
      ImageFormatR16ui
    else if s[2] == '8' then
      ImageFormatRg8ui
    else
      ImageFormatRgba8
  }

  ghost function FormatTokenClass6(s: string): ImageFormat
    requires |s| == 6
  {
    if s[4] == '1' then
      ImageFormatRgba16
    else if s[4] == '8' then
      ImageFormatRgba8i
    else
      if s[3] == '2' then
        ImageFormatRg32ui
      else
        ImageFormatRg16ui
  }

  ghost function FormatTokenClass7(s: string): ImageFormat
    requires |s| == 7
  {
    if s[5] == '2' then
      if s[6] == 'f' then
        ImageFormatRgba32f
      else
        ImageFormatRgba32i
    else if s[5] == '6' then
      if s[6] == 'f' then
        ImageFormatRgba16f
      else
        ImageFormatRgba16i
    else if s[5] == 'u' then
      ImageFormatRgba8ui
    else
      ImageFormatUnknown
  }

  ghost function FormatTokenClass8(s: string): ImageFormat
    requires |s| == 8
  {
    if s[5] == '2' then
      ImageFormatRgba32ui
    else if s[5] == '6' then
      ImageFormatRgba16ui
    else if s[5] == '_' then
      ImageFormatRgb10A2
    else
      ImageFormatR8Snorm
  }

  ghost function FormatTokenClass9(s: string): ImageFormat
    requires |s| == 9
  {
    if s[2] == '6' then
      ImageFormatR16Snorm
    else
      ImageFormatRg8Snorm
  }

  ghost function FormatTokenClass10(s: string): ImageFormat
    requires |s| == 10
  {
    if s[9] == 'i' then
      ImageFormatRgb10a2ui
    else
      ImageFormatRg16Snorm
  }
}
