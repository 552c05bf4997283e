/** The value types declared in types.ts. */
module Types {
  import opened Wrappers

  /** `Language = 'en' | 'vi'` */
  datatype Language = En | Vi

  /** `keyof StrategyData`: the eleven named fields; the open index signature
      of the source only serves keyed access, which `Get` and `With` provide. */
  datatype StrategyKey =
    | Concept | Composition | ColorPalette | Product | Background | Typography
    | TextContent | Lighting | Props | ArtStyle | TechSpecs

  /** The position of a key in the interface declaration. */
  function KeyIndex(k: StrategyKey): (i: nat) {
    match k
    case Concept => 0
    case Composition => 1
    case ColorPalette => 2
    case Product => 3
    case Background => 4
    case Typography => 5
    case TextContent => 6
    case Lighting => 7
    case Props => 8
    case ArtStyle => 9
    case TechSpecs => 10
  }

  /** The eleven keys in the order the interface declares them: each key once. */
  function Keys(): (keys: seq<StrategyKey>)
    ensures |keys| == 11
    ensures forall k :: KeyIndex(k) < |keys| && keys[KeyIndex(k)] == k
    ensures forall i, j :: 0 <= i < j < |keys| ==> keys[i] != keys[j]
  {
    [Concept, Composition, ColorPalette, Product, Background, Typography,
     TextContent, Lighting, Props, ArtStyle, TechSpecs]
  }

  /** The property name of a key, as it is spelled in the source and in JSON. */
  function KeyName(k: StrategyKey): (name: string) {
    match k
    case Concept => "concept"
    case Composition => "composition"
    case ColorPalette => "colorPalette"
    case Product => "product"
    case Background => "background"
    case Typography => "typography"
    case TextContent => "textContent"
    case Lighting => "lighting"
    case Props => "props"
    case ArtStyle => "artStyle"
    case TechSpecs => "techSpecs"
  }

  /** Distinct keys have distinct property names. */
  lemma KeyNameInjective(a: StrategyKey, b: StrategyKey)
    ensures KeyName(a) == KeyName(b) ==> a == b
  {
  }

  function KeyNames(keys: seq<StrategyKey>): (names: seq<string>)
    ensures |names| == |keys|
  {
    seq(|keys|, i requires 0 <= i < |keys| => KeyName(keys[i]))
  }

  /** `StrategyData`: eleven mandatory string fields (the empty string is allowed). */
  datatype StrategyData = StrategyData(
    concept: string,
    composition: string,
    colorPalette: string,
    product: string,
    background: string,
    typography: string,
    textContent: string,
    lighting: string,
    props: string,
    artStyle: string,
    techSpecs: string)

  /** Keyed read, `strategy[key]`. */
  function Get(s: StrategyData, k: StrategyKey): (v: string) {
    match k
    case Concept => s.concept
    case Composition => s.composition
    case ColorPalette => s.colorPalette
    case Product => s.product
    case Background => s.background
    case Typography => s.typography
    case TextContent => s.textContent
    case Lighting => s.lighting
    case Props => s.props
    case ArtStyle => s.artStyle
    case TechSpecs => s.techSpecs
  }

  /** Keyed copy-and-replace, `{ ...s, [k]: v }`: the named field takes the new
      value and every other field keeps its old one. */
  function With(s: StrategyData, k: StrategyKey, v: string): (r: StrategyData)
    ensures Get(r, k) == v
    ensures forall other :: other != k ==> Get(r, other) == Get(s, other)
  {
    match k
    case Concept => s.(concept := v)
    case Composition => s.(composition := v)
    case ColorPalette => s.(colorPalette := v)
    case Product => s.(product := v)
    case Background => s.(background := v)
    case Typography => s.(typography := v)
    case TextContent => s.(textContent := v)
    case Lighting => s.(lighting := v)
    case Props => s.(props := v)
    case ArtStyle => s.(artStyle := v)
    case TechSpecs => s.(techSpecs := v)
  }

  /** A strategy is determined by what its keyed reads return. */
  lemma StrategyExtensional(s: StrategyData, t: StrategyData)
    requires forall k :: Get(s, k) == Get(t, k)
    ensures s == t
  {
    assert Get(s, Concept) == Get(t, Concept);
    assert Get(s, Composition) == Get(t, Composition);
    assert Get(s, ColorPalette) == Get(t, ColorPalette);
    assert Get(s, Product) == Get(t, Product);
    assert Get(s, Background) == Get(t, Background);
    assert Get(s, Typography) == Get(t, Typography);
    assert Get(s, TextContent) == Get(t, TextContent);
    assert Get(s, Lighting) == Get(t, Lighting);
    assert Get(s, Props) == Get(t, Props);
    assert Get(s, ArtStyle) == Get(t, ArtStyle);
    assert Get(s, TechSpecs) == Get(t, TechSpecs);
  }

  /** `PromptResponse`: one strategy, the final prompt and the suggestions. */
  datatype PromptResponse = PromptResponse(
    strategy: StrategyData,
    finalPrompt: string,
    suggestions: seq<string>)

  /** `LoadingState.status` */
  datatype Status = Idle | Loading | Success | Error

  /** `LoadingState`: a status and an optional message. */
  datatype LoadingState = LoadingState(status: Status, message: Option<string>)
}
