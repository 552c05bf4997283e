/** The request builder and the generation client of services/geminiService.ts. */
module GeminiService {
  import opened Wrappers
  import opened Types

  // The six segments of the system instruction, verbatim (the line breaks and
  // indentation are those of the template literals).

  const ViRoleDef: string :=
    "- **Vai trò:** Bạn là một Giám đốc Sáng tạo (Creative Director) và Chuyên gia Prompt Engineering với 15 năm kinh nghiệm.\n       - **Nhiệm vụ:** Chuyển đổi ý tưởng marketing thành các PROMPT tạo ảnh chuẩn xác cho Midjourney/Stable Diffusion."

  const EnRoleDef: string :=
    "- **Role:** You are a Creative Director and Prompt Engineering Expert with 15 years of experience.\n       - **Task:** Transform marketing ideas into precise image generation PROMPTS for Midjourney/Stable Diffusion."

  const ViLogic: string :=
    "# 2. Tư duy xử lý & Phân loại phong cách\n       Bạn phải tự động xác định phong cách dựa trên ngành hàng.\n       **Yêu cầu đặc biệt:**\n       - **Bố cục (Composition):** Ưu tiên tạo khoảng trống (negative space) rộng rãi để chèn text quảng cáo. Sử dụng quy tắc 1/3 hoặc bất đối xứng.\n       - **Nội dung chữ (Text Content):** Bắt buộc viết Headline tập trung vào LỢI ÍCH (benefit-driven) và phải có một lời kêu gọi hành động (CTA) cụ thể (ví dụ: Shop Now, Mua Ngay).\n       - **Ánh sáng (Lighting):** Mô tả chi tiết hướng sáng và tâm trạng (mood), ví dụ: \"dramatic volumetric lighting from side\".\n       - **Phong cách (Art Style):** Cụ thể hóa kỹ thuật, ví dụ: \"cinematic 3D render\", \"flat vector illustration\", không dùng từ chung chung."

  const EnLogic: string :=
    "# 2. Logic & Style Classification\n       You must automatically determine the style based on the industry.\n       **Specific Requirements:**\n       - **Composition:** Prioritize ample negative space for ad copy. Use rule of thirds or asymmetry.\n       - **Text Content:** Headlines must be BENEFIT-DRIVEN and must include a specific Call-to-Action (CTA) phrase (e.g., Shop Now, Learn More).\n       - **Lighting:** Elaborate on direction and mood, e.g., \"dramatic volumetric lighting from side\".\n       - **Art Style:** Be specific about the medium/technique, e.g., \"cinematic 3D render\", \"flat vector illustration\", avoid generic terms."

  const ViStructure: string :=
    "# 3. Cấu trúc dữ liệu đầu ra (JSON)\n       Trả về JSON gồm:\n       - strategy: Object chứa 11 trường thông tin phân tích (Viết bằng Tiếng Việt).\n       - finalPrompt: Chuỗi prompt tiếng Anh chuẩn (Midjourney style).\n       - suggestions: 3 câu gợi ý (Tiếng Việt)."

  const EnStructure: string :=
    "# 3. Output Data Structure (JSON)\n       Return JSON containing:\n       - strategy: Object with 11 analysis fields (Written in English).\n       - finalPrompt: Standard English prompt string (Midjourney style).\n       - suggestions: 3 suggestions (English)."

  /** The system instruction: role, then logic, then output structure, two line
      breaks apart; Vietnamese selects all three Vietnamese segments, the other
      language all three English ones. */
  function GetSystemInstruction(language: Language): (instruction: string)
    ensures language == Vi ==> instruction == ViRoleDef + "\n\n" + ViLogic + "\n\n" + ViStructure
    ensures language != Vi ==> instruction == EnRoleDef + "\n\n" + EnLogic + "\n\n" + EnStructure
  {
    var isVietnamese := language == Vi;
    var roleDef := if isVietnamese then ViRoleDef else EnRoleDef;
    var logic := if isVietnamese then ViLogic else EnLogic;
    var structure := if isVietnamese then ViStructure else EnStructure;
    roleDef + "\n\n" + logic + "\n\n" + structure
  }

  /** The instruction is never empty, and the two languages get different
      instructions, so the instruction tells which language was asked for. */
  lemma InstructionDeterminesLanguage(a: Language, b: Language)
    ensures |GetSystemInstruction(a)| > 0
    ensures GetSystemInstruction(a) == GetSystemInstruction(b) ==> a == b
  {
    assert |GetSystemInstruction(En)| == 1110;
    assert |GetSystemInstruction(Vi)| == 1246;
  }

  // The response schema as data.

  datatype SchemaType = TypeObject | TypeString | TypeArray

  datatype Schema = Schema(
    kind: SchemaType,
    properties: seq<Property>,
    required: seq<string>,
    items: Option<Schema>,
    description: Option<string>)

  datatype Property = Property(name: string, schema: Schema)

  function PropertyNames(ps: seq<Property>): (names: seq<string>)
    ensures |names| == |ps|
  {
    seq(|ps|, i requires 0 <= i < |ps| => ps[i].name)
  }

  predicate Distinct<T(==)>(xs: seq<T>) {
    forall i, j :: 0 <= i < j < |xs| ==> xs[i] != xs[j]
  }

  function StringField(description: string): (s: Schema) {
    Schema(TypeString, [], [], None, Some(description))
  }

  /** The `strategy` part of the response schema. */
  function StrategySchema(): (s: Schema)
    ensures s.kind == TypeObject && |s.properties| == 11
  {
    Schema(TypeObject, [
        Property("concept", StringField("1. Concept / Ý tưởng")),
        Property("composition", StringField("2. Composition / Bố cục (Negative space, Rule of thirds)")),
        Property("colorPalette", StringField("3. Palette / Màu sắc")),
        Property("product", StringField("4. Product / Sản phẩm")),
        Property("background", StringField("5. Background / Bối cảnh")),
        Property("typography", StringField("6. Typography")),
        Property("textContent", StringField("7. Text Content / Nội dung chữ (Benefit + CTA)")),
        Property("lighting", StringField("8. Lighting / Ánh sáng (Direction, Mood)")),
        Property("props", StringField("9. Props / Đạo cụ")),
        Property("artStyle", StringField("10. Art Style / Phong cách (Specific technique)")),
        Property("techSpecs", StringField("11. Specs / Thông số kỹ thuật"))
      ], [
        "concept", "composition", "colorPalette", "product", "background",
        "typography", "textContent", "lighting", "props", "artStyle", "techSpecs"
      ], None, None)
  }

  /** `strategy` is an object of eleven string properties, all required: its
      required list names each declared property once, in declaration order,
      and these are the key names of `StrategyData` in the order types.ts
      declares them. */
  lemma StrategySchemaAgrees()
    ensures StrategySchema().kind == TypeObject
    ensures StrategySchema().required == PropertyNames(StrategySchema().properties)
    ensures StrategySchema().required == KeyNames(Keys())
    ensures Distinct(StrategySchema().required)
    ensures forall p :: p in StrategySchema().properties ==> p.schema.kind == TypeString
  {
    // Stated together the five facts are too costly for the solver; one at a
    // time each is immediate.
    StrategyRequiredIsDeclared();
    StrategyRequiredIsKeys();
    StrategyRequiredDistinct();
    StrategyPropertiesAreStrings();
  }

  lemma StrategyRequiredIsDeclared()
    ensures StrategySchema().required == PropertyNames(StrategySchema().properties)
  {}

  lemma StrategyRequiredIsKeys()
    ensures StrategySchema().required == KeyNames(Keys())
  {}

  lemma StrategyRequiredDistinct()
    ensures Distinct(StrategySchema().required)
  {}

  lemma StrategyPropertiesAreStrings()
    ensures forall p :: p in StrategySchema().properties ==> p.schema.kind == TypeString
  {}

  /** `RESPONSE_SCHEMA`: an object requiring exactly `strategy`, `finalPrompt`
      and `suggestions`, where `finalPrompt` is a string and `suggestions` an
      array of strings. */
  function ResponseSchema(): (s: Schema)
    ensures s.kind == TypeObject
    ensures s.required == PropertyNames(s.properties) == ["strategy", "finalPrompt", "suggestions"]
    ensures s.properties[0].schema == StrategySchema()
    ensures s.properties[1].schema.kind == TypeString
    ensures s.properties[2].schema.kind == TypeArray
    ensures s.properties[2].schema.items == Some(Schema(TypeString, [], [], None, None))
  {
    Schema(TypeObject, [
        Property("strategy", StrategySchema()),
        Property("finalPrompt", StringField("Prompt tiếng Anh chuẩn / Standard English Prompt.")),
        Property("suggestions", Schema(TypeArray, [], [], Some(Schema(TypeString, [], [], None, None)),
                                       Some("3 suggestions / 3 gợi ý.")))
      ], ["strategy", "finalPrompt", "suggestions"], None, None)
  }

  // The generation client.

  /** What is handed to the model endpoint (the model name and the sampling
      temperature are fixed configuration and are not modelled). */
  datatype Request = Request(
    contents: string,
    systemInstruction: string,
    responseMimeType: string,
    responseSchema: Schema)

  /** The endpoint's answer; its `text` may be absent. */
  datatype Reply = Reply(text: Option<string>)

  /** The errors `generateCreativePrompt` throws: its own two, and those of the
      endpoint and of JSON decoding, which it rethrows. */
  datatype ServiceError =
    | MissingApiKey
    | NoResponse
    | RequestFailed(cause: string)
    | ParseFailed(cause: string)
  {
    /** The message of the thrown `Error`: fixed for the client's own two
        checks, the cause itself for a rethrown error. */
    function Message(): (m: string)
      ensures MissingApiKey? ==> m == "API Key is missing."
      ensures NoResponse? ==> m == "No response from Gemini"
      ensures RequestFailed? || ParseFailed? ==> m == cause
    {
      match this
      case MissingApiKey => "API Key is missing."
      case NoResponse => "No response from Gemini"
      case RequestFailed(cause) => cause
      case ParseFailed(cause) => cause
    }
  }

  /** `if (!apiKey)` rejects an absent key and also an empty one. */
  predicate HasApiKey(apiKey: Option<string>) {
    apiKey.Some? && apiKey.value != ""
  }

  /** `if (!text)` rejects an absent text and also an empty one. */
  predicate HasText(reply: Reply) {
    reply.text.Some? && reply.text.value != ""
  }

  /** The request the client sends: the user's text untouched, the
      language's instruction, JSON output mode and the response schema. */
  function BuildRequest(userInput: string, language: Language): (r: Request)
    ensures r.contents == userInput
    ensures r.systemInstruction == GetSystemInstruction(language)
    ensures r.responseMimeType == "application/json"
    ensures r.responseSchema == ResponseSchema()
  {
    Request(userInput, GetSystemInstruction(language), "application/json", ResponseSchema())
  }

  /** What one `generateCreativePrompt` call yields, in the order of its
      checks: the key, the endpoint, the text, the decoder. */
  function Outcome(
    userInput: string,
    language: Language,
    apiKey: Option<string>,
    send: Request -> Result<Reply, string>,
    parse: string -> Result<PromptResponse, string>): (result: Result<PromptResponse, ServiceError>)
    ensures !HasApiKey(apiKey) ==> result == Err(MissingApiKey)
    ensures result.Ok? ==> HasApiKey(apiKey)
    ensures result.Ok? ==> send(BuildRequest(userInput, language)).Ok?
    ensures result.Ok? ==> HasText(send(BuildRequest(userInput, language)).value)
    ensures result.Ok? ==> parse(send(BuildRequest(userInput, language)).value.text.value) == Ok(result.value)
  {
    if !HasApiKey(apiKey) then Err(MissingApiKey)
    else
      var reply := send(BuildRequest(userInput, language));
      if reply.Err? then Err(RequestFailed(reply.error))
      else if !HasText(reply.value) then Err(NoResponse)
      else
        var decoded := parse(reply.value.text.value);
        if decoded.Ok? then Ok(decoded.value) else Err(ParseFailed(decoded.error))
  }

  /** An absent or empty reply text is an error, whatever the decoder would
      have made of it. */
  lemma EmptyTextIsNoResponse(
    userInput: string,
    language: Language,
    apiKey: Option<string>,
    send: Request -> Result<Reply, string>,
    parse: string -> Result<PromptResponse, string>)
    requires HasApiKey(apiKey)
    requires send(BuildRequest(userInput, language)).Ok?
    requires !HasText(send(BuildRequest(userInput, language)).value)
    ensures Outcome(userInput, language, apiKey, send, parse) == Err(NoResponse)
  {}

  /** `generateCreativePrompt`. The key read from the environment, the endpoint
      and `JSON.parse` are parameters. A missing key fails before any request
      is built; otherwise the request built is `BuildRequest(userInput,
      language)` (`sent` records it); a failure of the endpoint or of decoding is passed on unchanged,
      and an absent or empty text is an error, never a result. */
  method GenerateCreativePrompt(
    userInput: string,
    language: Language,
    apiKey: Option<string>,
    send: Request -> Result<Reply, string>,
    parse: string -> Result<PromptResponse, string>)
    returns (result: Result<PromptResponse, ServiceError>, ghost sent: seq<Request>)
    ensures !HasApiKey(apiKey) ==> result == Err(MissingApiKey) && sent == []
    ensures HasApiKey(apiKey) ==> sent == [BuildRequest(userInput, language)]
    ensures HasApiKey(apiKey) ==>
      var reply := send(BuildRequest(userInput, language));
      if reply.Err? then result == Err(RequestFailed(reply.error))
      else if !HasText(reply.value) then result == Err(NoResponse)
      else
        var decoded := parse(reply.value.text.value);
        result == if decoded.Ok? then Ok(decoded.value) else Err(ParseFailed(decoded.error))
    ensures result.Ok? ==> exists text :: text != "" && parse(text) == Ok(result.value)
    ensures result == Outcome(userInput, language, apiKey, send, parse)
  {
    if !HasApiKey(apiKey) {
      return Err(MissingApiKey), [];
    }
    var request := BuildRequest(userInput, language);
    sent := [request];
    var response := send(request);
    if response.Err? {
      return Err(RequestFailed(response.error)), sent;
    }
    var text := response.value.text;
    if text.None? || text.value == "" {
      return Err(NoResponse), sent;
    }
    var decoded := parse(text.value);
    if decoded.Err? {
      return Err(ParseFailed(decoded.error)), sent;
    }
    result := Ok(decoded.value);
  }
}
