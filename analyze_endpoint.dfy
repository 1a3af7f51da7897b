/** The `POST /api/analyze-currency` handler of backend/server.js as a pure
    function from the request body to the response it writes.

    The vision-model call and `JSON.parse` are parameters: `provider` answers
    the one request the handler sends with a reply or a thrown API error, and
    `parse` turns the extracted text into a value of the opaque type `J` or
    fails with a syntax error. The handler checks nothing about the parsed
    value, and neither does this model. */
module AnalyzeEndpoint {
  import opened Common
  import opened Prompts
  import opened Extraction

  /** What the handler writes with `res.json`: `{ success: true, data }` or `{ error }`. */
  datatype Body<J> = Succeeded(data: J) | Failed(error: string)

  datatype Response<J> = Response(status: int, body: Body<J>)

  /** An error as the catch block sees it: `error.status`, absent for the
      errors the handler throws itself and for `JSON.parse` failures, and
      `error.message`. */
  datatype Thrown = Thrown(status: Option<int>, message: string)

  /** The chat-completion request: model, the template whose `PromptText` is
      the text part of the user message, image URL, token cap. */
  datatype ModelRequest = ModelRequest(model: string, template: Template, imageUrl: string, maxTokens: nat)

  /** What the call to the model comes back with: the first choice's message
      content, or a thrown API error. */
  datatype ModelOutcome = Completion(content: string) | ApiError(error: Thrown)

  /** `JSON.parse`: a value, or a `SyntaxError` with its message. */
  datatype Parsed<J> = Parsed(value: J) | SyntaxError(message: string)

  const ImagePrefix := "data:image/"
  const NoImageMessage := "No image data provided"
  const InvalidFormatMessage := "Invalid image format. Please provide a base64 encoded image."
  const UnparseableMessage := "Could not parse AI response"
  const AuthMessage := "Invalid OpenAI API key"
  const RateLimitMessage := "Rate limit exceeded. Please try again later."
  const ApiErrorPrefix := "API Error: "
  const DefaultFailureMessage := "Failed to analyze coin. Please try again."
  const VisionModel := "gpt-4o"
  const MaxTokens := 2000

  /** The two guards before any model call: `imageData` must be truthy, then
      it must start with `data:image/`. `Ok` carries the image on to the call;
      `Err` carries the message of the 400 response. */
  function ValidateImageData(imageData: Option<string>): (r: Result<string, string>)
    ensures r.Ok? <==> imageData.Some? && StartsWith(imageData.value, ImagePrefix)
    ensures r.Ok? ==> r.value == imageData.value
    ensures imageData == None || imageData == Some("") ==> r == Err(NoImageMessage)
    ensures imageData.Some? && imageData.value != "" && !StartsWith(imageData.value, ImagePrefix) ==>
              r == Err(InvalidFormatMessage)
  {
    if imageData.None? || imageData.value == "" then Err(NoImageMessage)
    else if !StartsWith(imageData.value, ImagePrefix) then Err(InvalidFormatMessage)
    else Ok(imageData.value)
  }

  /** The request the handler sends to the model, or `None` when validation
      answers first and no call is made. */
  function SentRequest(imageData: Option<string>, currencyType: Option<string>): (r: Option<ModelRequest>)
    ensures r.Some? <==> ValidateImageData(imageData).Ok?
    ensures r.Some? ==> r.value.imageUrl == imageData.value
    ensures r.Some? ==> r.value.template == SelectTemplate(currencyType)
    ensures r.Some? ==> r.value.model == VisionModel && r.value.maxTokens == MaxTokens
  {
    match ValidateImageData(imageData)
    case Err(_) => None
    case Ok(image) => Some(ModelRequest(VisionModel, SelectTemplate(currencyType), image, MaxTokens))
  }

  /** The catch block: what a thrown error turns into. */
  function ErrorResponse<J>(e: Thrown): (r: Response<J>)
    ensures r.body.Failed? && r.body.error != ""
    ensures r.status == 401 <==> e.status == Some(401)
    ensures r.status == 429 <==> e.status == Some(429)
    ensures r.status == 400 <==>
              e.status.Some? && 400 <= e.status.value < 500 && e.status.value != 401 && e.status.value != 429
    ensures r.status == 500 <==> e.status.None? || e.status.value < 400 || 500 <= e.status.value
    ensures r.status == 401 ==> r.body.error == AuthMessage
    ensures r.status == 429 ==> r.body.error == RateLimitMessage
    ensures r.status == 400 ==> r.body.error == ApiErrorPrefix + e.message
    ensures r.status == 500 ==> r.body.error == if e.message != "" then e.message else DefaultFailureMessage
  {
    if e.status == Some(401) then Response(401, Failed(AuthMessage))
    else if e.status == Some(429) then Response(429, Failed(RateLimitMessage))
    else if e.status.Some? && 400 <= e.status.value < 500 then Response(400, Failed(ApiErrorPrefix + e.message))
    else Response(500, Failed(if e.message != "" then e.message else DefaultFailureMessage))
  }

  /** What the handler makes of the model's reply: extract the JSON text,
      parse it, answer with the parsed value. */
  function RespondToReply<J>(content: string, parse: string -> Parsed<J>): (r: Response<J>)
    ensures ExtractJson(content).None? ==> r == Response(500, Failed(UnparseableMessage))
    ensures ExtractJson(content).Some? && parse(ExtractJson(content).value).Parsed? ==>
              r == Response(200, Succeeded(parse(ExtractJson(content).value).value))
    ensures ExtractJson(content).Some? && parse(ExtractJson(content).value).SyntaxError? ==>
              var message := parse(ExtractJson(content).value).message;
              r == Response(500, Failed(if message != "" then message else DefaultFailureMessage))
  {
    match ExtractJson(content)
    case None => ErrorResponse(Thrown(None, UnparseableMessage))
    case Some(text) =>
      match parse(text)
      case SyntaxError(message) => ErrorResponse(Thrown(None, message))
      case Parsed(value) => Response(200, Succeeded(value))
  }

  /** The handler: validate, select the prompt, call the model, extract and
      parse its reply, and map every thrown error to a status. */
  function Analyze<J>(imageData: Option<string>, currencyType: Option<string>,
                      provider: ModelRequest -> ModelOutcome, parse: string -> Parsed<J>): (r: Response<J>)
    ensures r.status == 200 || r.status == 400 || r.status == 401 || r.status == 429 || r.status == 500
    ensures r.status == 200 <==> r.body.Succeeded?
    ensures r.body.Failed? ==> r.body.error != ""
    ensures imageData == None || imageData == Some("") ==> r == Response(400, Failed(NoImageMessage))
    ensures imageData.Some? && imageData.value != "" && !StartsWith(imageData.value, ImagePrefix) ==>
              r == Response(400, Failed(InvalidFormatMessage))
  {
    match SentRequest(imageData, currencyType)
    case None => Response(400, Failed(ValidateImageData(imageData).error))
    case Some(request) =>
      match provider(request)
      case ApiError(e) => ErrorResponse(e)
      case Completion(content) => RespondToReply(content, parse)
  }

  /** The model is consulted only through the one request the handler sends,
      and not at all when validation fails: two providers that agree on that
      request, or any two providers when there is none, give the same response. */
  lemma ProviderSeesOnlySentRequest<J>(imageData: Option<string>, currencyType: Option<string>,
                                       p1: ModelRequest -> ModelOutcome, p2: ModelRequest -> ModelOutcome,
                                       parse: string -> Parsed<J>)
    requires SentRequest(imageData, currencyType).Some? ==>
               p1(SentRequest(imageData, currencyType).value) == p2(SentRequest(imageData, currencyType).value)
    ensures Analyze(imageData, currencyType, p1, parse) == Analyze(imageData, currencyType, p2, parse)
  {
  }

  /** A mode other than `coin` and `bill` is not an error: it is answered
      exactly as the default `auto` mode is. */
  lemma UnknownModeIsAuto<J>(imageData: Option<string>, currencyType: Option<string>,
                             provider: ModelRequest -> ModelOutcome, parse: string -> Parsed<J>)
    requires currencyType != Some("coin") && currencyType != Some("bill")
    ensures Analyze(imageData, currencyType, provider, parse) == Analyze(imageData, None, provider, parse)
    ensures Analyze(imageData, currencyType, provider, parse) == Analyze(imageData, Some("auto"), provider, parse)
  {
  }

  /** The handler answers 200 exactly when the image passes validation, the
      model replies, some JSON text can be extracted from the reply and it
      parses; the data is then the parsed value. */
  lemma SucceedsExactlyWhenParsed<J>(imageData: Option<string>, currencyType: Option<string>,
                                     provider: ModelRequest -> ModelOutcome, parse: string -> Parsed<J>)
    ensures var r := Analyze(imageData, currencyType, provider, parse);
            var req := SentRequest(imageData, currencyType);
            r.body.Succeeded? <==>
              && req.Some?
              && provider(req.value).Completion?
              && ExtractJson(provider(req.value).content).Some?
              && parse(ExtractJson(provider(req.value).content).value).Parsed?
    ensures var r := Analyze(imageData, currencyType, provider, parse);
            var req := SentRequest(imageData, currencyType);
            r.body.Succeeded? ==>
              r.body.data == parse(ExtractJson(provider(req.value).content).value).value
  {
  }

  /** A reply with neither a fenced block nor a `{` before a `}` is answered
      with 500 "Could not parse AI response". */
  lemma UnparseableReplyIs500<J>(imageData: Option<string>, currencyType: Option<string>,
                                 provider: ModelRequest -> ModelOutcome, parse: string -> Parsed<J>)
    requires SentRequest(imageData, currencyType).Some?
    requires provider(SentRequest(imageData, currencyType).value).Completion?
    requires var content := provider(SentRequest(imageData, currencyType).value).content;
             (forall i, j :: !FenceAt(content, i, j)) && (forall p, q :: !BracePair(content, p, q))
    ensures Analyze(imageData, currencyType, provider, parse) == Response(500, Failed(UnparseableMessage))
  {
  }

  /** The same JSON object, whether the model fences it or sends it bare,
      yields the same response. */
  lemma FencedOrBareSameResponse<J>(imageData: Option<string>, currencyType: Option<string>,
                                    t: string, parse: string -> Parsed<J>)
    requires 2 <= |t| && t[0] == '{' && t[|t| - 1] == '}'
    requires !Occurs(t, FenceOpen) && !Occurs(t, FenceClose)
    ensures Analyze(imageData, currencyType, _ => Completion(FenceOpen + t + FenceClose), parse)
         == Analyze(imageData, currencyType, _ => Completion(t), parse)
  {
    FencedAndBareAgree(t);
  }

  /** Errors the model call throws are mapped by their status: 401 and 429
      keep their status, other 4xx become 400, anything else becomes 500. */
  lemma ProviderErrorStatus<J>(imageData: Option<string>, currencyType: Option<string>,
                               provider: ModelRequest -> ModelOutcome, parse: string -> Parsed<J>)
    requires SentRequest(imageData, currencyType).Some?
    requires provider(SentRequest(imageData, currencyType).value).ApiError?
    ensures var e := provider(SentRequest(imageData, currencyType).value).error;
            var r := Analyze(imageData, currencyType, provider, parse);
            && r.body.Failed?
            && (e.status == Some(401) ==> r == Response(401, Failed(AuthMessage)))
            && (e.status == Some(429) ==> r == Response(429, Failed(RateLimitMessage)))
            && (e.status.Some? && 400 <= e.status.value < 500 && e.status.value != 401 && e.status.value != 429 ==>
                  r == Response(400, Failed(ApiErrorPrefix + e.message)))
            && (e.status.None? || e.status.value < 400 || 500 <= e.status.value ==>
                  r == Response(500, Failed(if e.message != "" then e.message else DefaultFailureMessage)))
  {
  }

  /** Text that is extracted from the reply but that `JSON.parse` rejects is
      answered with 500 and the parser's message, or the default message when
      that is empty. */
  lemma ParseFailureIs500<J>(imageData: Option<string>, currencyType: Option<string>,
                             provider: ModelRequest -> ModelOutcome, parse: string -> Parsed<J>)
    requires SentRequest(imageData, currencyType).Some?
    requires provider(SentRequest(imageData, currencyType).value).Completion?
    requires ExtractJson(provider(SentRequest(imageData, currencyType).value).content).Some?
    requires parse(ExtractJson(provider(SentRequest(imageData, currencyType).value).content).value).SyntaxError?
    ensures var message := parse(ExtractJson(provider(SentRequest(imageData, currencyType).value).content).value).message;
            Analyze(imageData, currencyType, provider, parse) ==
              Response(500, Failed(if message != "" then message else DefaultFailureMessage))
  {
  }
}
