/**
  The POST /generate handler of backend/routes/generate.js: the truthiness
  check on the four request fields, the template, the three-way switch on the
  model token, the vendor call, and the shaping of the JSON response. The
  vendor SDKs are one function parameter that maps an adapter's outgoing call
  to the text it returns or the error it throws; the clock is a parameter too.
*/
module Generate {
  import opened Wrappers
  import opened Text
  import opened Template

  /** The three supported model tokens. */
  datatype Provider = Claude | Gemini | Gpt4oMini

  function Token(p: Provider): (token: string)
    ensures token in SupportedModels
  {
    match p
    case Claude => "claude"
    case Gemini => "gemini"
    case Gpt4oMini => "gpt4o-mini"
  }

  /** The `supported` list of the unsupported-model response. */
  const SupportedModels: seq<string> := ["claude", "gemini", "gpt4o-mini"]

  /** The `required` list of the missing-field response. */
  const RequiredFields: seq<string> := ["model", "sceneCount", "scenes", "description"]

  /** The `switch (model)`: which adapter a token selects, if any. */
  function SelectProvider(model: string): (p: Option<Provider>)
    ensures p.Some? <==> model in SupportedModels
    ensures p.Some? ==> Token(p.value) == model
  {
    if model == "claude" then Some(Claude)
    else if model == "gemini" then Some(Gemini)
    else if model == "gpt4o-mini" then Some(Gpt4oMini)
    else None
  }

  /** Each token selects its own provider, and only that one. */
  lemma SelectProviderToken(p: Provider, model: string)
    ensures SelectProvider(model) == Some(p) <==> model == Token(p)
  {
  }

  /** generateWithGemini's single prompt: no separate system role, so the two texts are glued. */
  function GeminiPrompt(systemPrompt: string, description: string): (prompt: string)
    ensures |prompt| == |systemPrompt| + 10 + |description|
    ensures prompt[..|systemPrompt|] == systemPrompt
    ensures prompt[|systemPrompt|..|systemPrompt| + 10] == "\n\n사용자 요청:\n"
    ensures prompt[|prompt| - |description|..] == description
  {
    systemPrompt + "\n\n사용자 요청:\n" + description
  }

  /**
    The Gemini prompt is the system prompt's lines, a blank line, the
    request heading, then the description's lines: both texts reach the
    model whole and in that order.
  */
  lemma GeminiPromptLines(systemPrompt: string, description: string)
    ensures Split(GeminiPrompt(systemPrompt, description))
         == Split(systemPrompt) + ["", "사용자 요청:"] + Split(description)
  {
    var heading := "사용자 요청:";
    assert GeminiPrompt(systemPrompt, description) == systemPrompt + "\n" + ("" + "\n" + (heading + "\n" + description));
    SplitLine(heading, description);
    SplitLine("", heading + "\n" + description);
    SplitAppend(systemPrompt, "" + "\n" + (heading + "\n" + description));
  }

  /** The one outgoing call an adapter makes. */
  datatype AdapterCall =
    | ClaudeMessages(system: string, user: string)
    | GeminiContent(prompt: string)
    | GptCompletion(system: string, user: string)

  /** What a vendor call gives back: the generated text, or the error it throws. */
  datatype AdapterResult = Generated(text: string) | Threw(message: string)

  /** The call each provider's adapter makes for a system prompt and a description. */
  function AdapterRequest(p: Provider, systemPrompt: string, description: string): (call: AdapterCall)
    ensures call.ClaudeMessages? <==> p == Claude
    ensures call.GeminiContent? <==> p == Gemini
    ensures call.GptCompletion? <==> p == Gpt4oMini
    ensures !call.GeminiContent? ==> call.system == systemPrompt && call.user == description
    ensures call.GeminiContent? ==> call.prompt == GeminiPrompt(systemPrompt, description)
  {
    match p
    case Claude => ClaudeMessages(systemPrompt, description)
    case Gemini => GeminiContent(GeminiPrompt(systemPrompt, description))
    case Gpt4oMini => GptCompletion(systemPrompt, description)
  }

  /** `req.body`; None stands for a field that is absent or null. */
  datatype Request = Request(
    model: Option<string>,
    sceneCount: Option<int>,
    scenes: Option<seq<Scene>>,
    description: Option<string>)

  /** JavaScript truthiness of a string field: present and not empty. */
  predicate TruthyString(field: Option<string>) {
    field.Some? && field.value != ""
  }

  /** JavaScript truthiness of a number field: present and not zero. */
  predicate TruthyNumber(field: Option<int>) {
    field.Some? && field.value != 0
  }

  /** JavaScript truthiness of an array field: present; even an empty array is truthy. */
  predicate TruthyArray<T>(field: Option<seq<T>>) {
    field.Some?
  }

  /** The negation of `!model || !sceneCount || !scenes || !description`. */
  predicate HasRequiredFields(req: Request) {
    TruthyString(req.model) && TruthyNumber(req.sceneCount)
    && TruthyArray(req.scenes) && TruthyString(req.description)
  }

  /** `scenes.reduce((sum, scene) => sum + scene.duration, sum)`, a left fold. */
  function ReduceDurations(sum: int, scenes: seq<Scene>): (total: int)
    ensures total == sum + SumDurations(scenes)
    decreases |scenes|
  {
    if |scenes| == 0 then sum
    else
      SumDurationsAppend([scenes[0]], scenes[1..]);
      assert [scenes[0]] + scenes[1..] == scenes;
      ReduceDurations(sum + scenes[0].duration, scenes[1..])
  }

  /** Reference definition of the sum of the durations, from the last scene backwards. */
  function SumDurations(scenes: seq<Scene>): int {
    if |scenes| == 0 then 0
    else SumDurations(scenes[..|scenes| - 1]) + scenes[|scenes| - 1].duration
  }

  /** `metadata.totalDuration`: the reduce started at 0. */
  function TotalDuration(scenes: seq<Scene>): (total: int)
    ensures total == SumDurations(scenes)
  {
    ReduceDurations(0, scenes)
  }

  lemma {:induction false} SumDurationsAppend(a: seq<Scene>, b: seq<Scene>)
    ensures SumDurations(a + b) == SumDurations(a) + SumDurations(b)
  {
    if |b| > 0 {
      assert (a + b)[..|a + b| - 1] == a + b[..|b| - 1];
      SumDurationsAppend(a, b[..|b| - 1]);
    } else {
      assert a + b == a;
    }
  }

  /** With durations of at least one second each, the total is at least the number of scenes. */
  lemma {:induction false} TotalDurationAtLeastSceneCount(scenes: seq<Scene>)
    requires forall k :: 0 <= k < |scenes| ==> scenes[k].duration >= 1
    ensures TotalDuration(scenes) >= |scenes|
  {
    if |scenes| > 0 {
      TotalDurationAtLeastSceneCount(scenes[..|scenes| - 1]);
    }
  }

  /** Durations 15, 20 and 10 give a total of 45. */
  lemma TotalDurationExample()
    ensures TotalDuration([Scene(1, 15), Scene(2, 20), Scene(3, 10)]) == 45
  {
  }

  /** `metadata` of the success response; `generatedAt` is the caller's clock reading. */
  datatype Metadata = Metadata(sceneCount: int, totalDuration: int, generatedAt: string)

  /** The four kinds of JSON response the handler sends. */
  datatype Response =
    | MissingFields(required: seq<string>)
    | UnsupportedModel(supported: seq<string>)
    | GenerationFailed(message: string)
    | Succeeded(model: string, prompt: string, metadata: Metadata)

  /** The HTTP status sent with each response; `res.json` alone sends 200. */
  function Status(r: Response): (status: int)
    ensures status in {200, 400, 500}
    ensures status == 400 <==> r.MissingFields? || r.UnsupportedModel?
    ensures status == 500 <==> r.GenerationFailed?
  {
    match r
    case MissingFields(_) => 400
    case UnsupportedModel(_) => 400
    case GenerationFailed(_) => 500
    case Succeeded(_, _, _) => 200
  }

  /** The `error` text of an error response. */
  function ErrorText(r: Response): (error: Option<string>)
    ensures error.Some? <==> Status(r) != 200
  {
    match r
    case MissingFields(_) => Some("필수 입력값이 누락되었습니다.")
    case UnsupportedModel(_) => Some("지원하지 않는 AI 모델입니다.")
    case GenerationFailed(_) => Some("AI 프롬프트 생성 중 오류가 발생했습니다.")
    case Succeeded(_, _, _) => None
  }

  /** The `prompt` field, present only in the success response. */
  function PromptField(r: Response): (prompt: Option<string>)
    ensures prompt.Some? <==> Status(r) == 200
    ensures prompt.Some? <==> ErrorText(r).None?
  {
    if r.Succeeded? then Some(r.prompt) else None
  }

  /** What one request produces: the response, and the adapter calls made on the way. */
  datatype Exchange = Exchange(response: Response, calls: seq<AdapterCall>)

  /**
    The POST /generate handler. `vendor` stands for the three SDK calls and
    `now` for `new Date().toISOString()`.
  */
  function Handle(req: Request, vendor: AdapterCall -> AdapterResult, now: string): (x: Exchange)
    ensures x.response.MissingFields? <==> !HasRequiredFields(req)
    ensures |x.calls| == 1 <==>
              HasRequiredFields(req) && |req.scenes.value| > 0 && req.model.value in SupportedModels
    ensures |x.calls| <= 1
  {
    HandleWith(Fixed, req, vendor, now)
  }

  /**
    The handler over any fixed template text; Handle uses the one
    createSystemPrompt has. A throw from the template or from the vendor
    call lands in the catch block: status 500, no prompt.
  */
  function HandleWith(text: FixedText, req: Request, vendor: AdapterCall -> AdapterResult, now: string): (x: Exchange)
    ensures x.response.MissingFields? <==> !HasRequiredFields(req)
    ensures x.response.MissingFields? ==> x.response.required == RequiredFields && x.calls == []
    ensures x.response.UnsupportedModel? <==>
              HasRequiredFields(req) && |req.scenes.value| > 0 && req.model.value !in SupportedModels
    ensures x.response.UnsupportedModel? ==> x.response.supported == SupportedModels && x.calls == []
    ensures HasRequiredFields(req) && |req.scenes.value| == 0 ==>
              x.response == GenerationFailed(EmptyScenesError) && x.calls == []
    ensures |x.calls| <= 1
    ensures |x.calls| == 1 <==>
              HasRequiredFields(req) && |req.scenes.value| > 0 && req.model.value in SupportedModels
    ensures x.response.Succeeded? ==> |x.calls| == 1 && vendor(x.calls[0]) == Generated(x.response.prompt)
    ensures x.response.GenerationFailed? && |x.calls| == 1 ==> vendor(x.calls[0]) == Threw(x.response.message)
  {
    if !HasRequiredFields(req) then
      Exchange(MissingFields(RequiredFields), [])
    else
      var model, sceneCount, scenes, description :=
        req.model.value, req.sceneCount.value, req.scenes.value, req.description.value;
      match Render(text, sceneCount, scenes)
      case Failure(message) => Exchange(GenerationFailed(message), [])
      case Success(systemPrompt) =>
        match SelectProvider(model)
        case None => Exchange(UnsupportedModel(SupportedModels), [])
        case Some(p) =>
          var call := AdapterRequest(p, systemPrompt, description);
          match vendor(call)
          case Threw(message) => Exchange(GenerationFailed(message), [call])
          case Generated(text) =>
            Exchange(Succeeded(model, text, Metadata(sceneCount, TotalDuration(scenes), now)), [call])
  }

  /**
    A supported token calls its own adapter exactly once, with the system
    prompt built from the request and the request's description.
  */
  lemma HandleDispatch(text: FixedText, req: Request, vendor: AdapterCall -> AdapterResult, now: string, p: Provider)
    requires HasRequiredFields(req) && |req.scenes.value| > 0 && req.model.value == Token(p)
    ensures var x := HandleWith(text, req, vendor, now);
      && |x.calls| == 1
      && x.calls[0] == AdapterRequest(p, Render(text, req.sceneCount.value, req.scenes.value).value, req.description.value)
  {
    SelectProviderToken(p, req.model.value);
    var prompt := Render(text, req.sceneCount.value, req.scenes.value);
    assert prompt.Success?;
    var call := AdapterRequest(p, prompt.value, req.description.value);
    assert HandleWith(text, req, vendor, now).calls == [call];
  }

  /**
    The success response echoes the model token and the scene count, carries
    the vendor's text as the prompt, and totals the durations.
  */
  lemma HandleSuccessMetadata(text: FixedText, req: Request, vendor: AdapterCall -> AdapterResult, now: string)
    requires HandleWith(text, req, vendor, now).response.Succeeded?
    ensures var r := HandleWith(text, req, vendor, now).response;
      && HasRequiredFields(req)
      && r.model == req.model.value
      && r.metadata.sceneCount == req.sceneCount.value
      && r.metadata.totalDuration == SumDurations(req.scenes.value)
      && r.metadata.generatedAt == now
      && Status(r) == 200
  {
  }

  /**
    Every outcome is one of 400, 500 or 200. A 500 comes exactly from a
    request that passes the field check and then either has no scenes, or
    names a supported model whose vendor call throws; a 200 exactly from a
    supported model whose vendor call returns. Only a 200 carries a prompt.
  */
  lemma HandleOutcomes(text: FixedText, req: Request, vendor: AdapterCall -> AdapterResult, now: string)
    ensures var r := HandleWith(text, req, vendor, now).response;
      && Status(r) in {200, 400, 500}
      && (Status(r) == 500 <==>
            HasRequiredFields(req)
            && (|req.scenes.value| == 0
                || (SelectProvider(req.model.value).Some?
                    && vendor(AdapterRequest(SelectProvider(req.model.value).value,
                                             Render(text, req.sceneCount.value, req.scenes.value).value,
                                             req.description.value)).Threw?)))
      && (Status(r) == 200 <==>
            HasRequiredFields(req) && |req.scenes.value| > 0
            && SelectProvider(req.model.value).Some?
            && vendor(AdapterRequest(SelectProvider(req.model.value).value,
                                     Render(text, req.sceneCount.value, req.scenes.value).value,
                                     req.description.value)).Generated?)
      && (Status(r) == 500 ==> PromptField(r).None? && ErrorText(r).Some?)
      && (PromptField(r).Some? <==> Status(r) == 200)
  {
  }

  /** A vendor failure on a valid request is a 500 carrying the vendor's message and no prompt. */
  lemma HandleVendorFailure(text: FixedText, req: Request, vendor: AdapterCall -> AdapterResult, now: string, p: Provider, message: string)
    requires HasRequiredFields(req) && |req.scenes.value| > 0 && req.model.value == Token(p)
    requires vendor(AdapterRequest(p, Render(text, req.sceneCount.value, req.scenes.value).value, req.description.value))
          == Threw(message)
    ensures HandleWith(text, req, vendor, now).response == GenerationFailed(message)
    ensures PromptField(HandleWith(text, req, vendor, now).response).None?
  {
  }

  /**
    An empty `scenes` array passes the field check but makes the template
    throw, so even an unsupported token gets a 500 rather than a 400.
  */
  lemma EmptyScenesBeatUnsupportedModel(text: FixedText, vendor: AdapterCall -> AdapterResult, now: string)
    ensures HandleWith(text, Request(Some("unknown-model"), Some(1), Some([]), Some("x")), vendor, now).response
         == GenerationFailed(EmptyScenesError)
  {
  }

  /**
    A request without a description is refused with the `required` list
    before any template is built or any adapter is called.
  */
  lemma MissingDescriptionRefused(vendor: AdapterCall -> AdapterResult, now: string)
    ensures Handle(Request(Some("claude"), Some(3), Some([Scene(1, 15), Scene(2, 20), Scene(3, 10)]), None), vendor, now)
         == Exchange(MissingFields(["model", "sceneCount", "scenes", "description"]), [])
  {
  }

  /** An unknown model token is refused with the `supported` list and no adapter call. */
  lemma UnknownModelRefused(vendor: AdapterCall -> AdapterResult, now: string)
    ensures Handle(Request(Some("unknown-model"), Some(1), Some([Scene(1, 10)]), Some("x")), vendor, now)
         == Exchange(UnsupportedModel(["claude", "gemini", "gpt4o-mini"]), [])
  {
  }
}
