/** The `generate-ai-image` function: check the key and the prompt, ask the
    image model for one picture of the decorated prompt, and answer its
    location, inline as a data URL when the model sends base64. */
module AiImage {
  import opened JsValues

  /** The JSON body the handler destructures. */
  datatype ImageBody = ImageBody(prompt: Option<string>)

  /** A CORS preflight, or a POST whose body is JSON (`Some`) or not (`None`). */
  datatype Request = Request(preflight: bool, body: Option<ImageBody>)

  /** `data[0]` of the image model's answer. */
  datatype ImageData = ImageData(b64_json: Option<string>, url: Option<string>)

  /** Which thrown error reached the catch block. */
  datatype Failure =
    | KeyMissing                        // 'OpenAI API key not configured'
    | BodyUnreadable(message: string)   // the request body is not JSON
    | Upstream(message: string)         // a non-ok answer, or the request rejected
    | MalformedAnswer(message: string)  // an ok answer with no `data[0]`

  datatype Response =
    | Preflight                            // CORS headers, no body
    | PromptRequired                       // 400 'Prompt is required'
    | Generated(imageUrl: Option<string>)  // 200 `{ imageUrl }`
    | GenerationFailed(details: Failure)   // 500 'Failed to generate image'

  function StatusCode(r: Response): nat {
    match r
    case Preflight => 200
    case PromptRequired => 400
    case Generated(_) => 200
    case GenerationFailed(_) => 500
  }

  /** The `error` field of a response body. */
  function ErrorText(r: Response): (e: Option<string>)
    ensures e.Some? <==> StatusCode(r) != 200
  {
    match r
    case PromptRequired => Some("Prompt is required")
    case GenerationFailed(_) => Some(DefaultMessage)
    case _ => None
  }

  const DefaultMessage := "Failed to generate image"

  /** The `details` field of a 500: the thrown error's message, whoever
      threw it (the handler itself, or the engine on a body that is not JSON
      or an answer without `data[0]`). */
  function Details(f: Failure): (d: string)
    ensures f.KeyMissing? ==> d == "OpenAI API key not configured"
    ensures !f.KeyMissing? ==> d == f.message
  {
    match f
    case KeyMissing => "OpenAI API key not configured"
    case BodyUnreadable(m) => m
    case Upstream(m) => m
    case MalformedAnswer(m) => m
  }

  const Decoration := ", high quality digital art, vibrant colors, detailed, ultra high resolution"

  /** The prompt sent upstream: the user's prompt, then the fixed style
      suffix. */
  function Decorated(prompt: string): (r: string)
    ensures |r| == |prompt| + |Decoration|
    ensures r[..|prompt|] == prompt && r[|prompt|..] == Decoration
  {
    prompt + Decoration
  }

  /** Different prompts are sent as different upstream prompts. */
  lemma DecoratedInjective(p: string, q: string)
    requires Decorated(p) == Decorated(q)
    ensures p == q
  {
    assert |p| == |q|;
    assert p == Decorated(p)[..|p|];
  }

  const DataUrlPrefix := "data:image/webp;base64,"

  /** `b64_json ? 'data:image/webp;base64,' + b64_json : url` */
  function ImageUrl(d: ImageData): (r: Option<string>)
    ensures Truthy(d.b64_json) ==> r == Some(DataUrlPrefix + d.b64_json.value)
    ensures !Truthy(d.b64_json) ==> r == d.url
  {
    if Truthy(d.b64_json) then Some(DataUrlPrefix + d.b64_json.value) else d.url
  }

  /** The base64 payload of a data URL, if the string is one. */
  function DataUrlPayload(s: string): (r: Option<string>)
    ensures r.Some? ==> s == DataUrlPrefix + r.value
  {
    if |DataUrlPrefix| <= |s| && s[..|DataUrlPrefix|] == DataUrlPrefix
    then Some(s[|DataUrlPrefix|..]) else None
  }

  /** An inline image hands back exactly the base64 the model sent. */
  lemma InlineImageRoundTrip(d: ImageData)
    requires Truthy(d.b64_json)
    ensures ImageUrl(d).Some? && DataUrlPayload(ImageUrl(d).value) == d.b64_json
  {
    var s := DataUrlPrefix + d.b64_json.value;
    assert s[..|DataUrlPrefix|] == DataUrlPrefix;
    assert s[|DataUrlPrefix|..] == d.b64_json.value;
  }

  /** The request reaches the image model. */
  predicate Asked(apiKey: Option<string>, req: Request) {
    !req.preflight && Truthy(apiKey) && req.body.Some? && Truthy(req.body.value.prompt)
  }

  /** What one run answers, and the prompt sent upstream if the model was
      asked at all. */
  datatype ImageRun = ImageRun(response: Response, upstreamPrompt: Option<string>)

  /** One run of the handler. `thrown` is the message of the error the
      engine raises when the body is not JSON (`req.json()`) or an ok answer
      has no `data[0]`; at most one of the two happens in a run. */
  function GenerateImage(apiKey: Option<string>, req: Request, answer: Reply<ImageData>,
                         thrown: string): (r: ImageRun)
    ensures r.response == Preflight <==> req.preflight
    ensures !req.preflight && !Truthy(apiKey) ==> r.response == GenerationFailed(KeyMissing)
    ensures !req.preflight && Truthy(apiKey) && req.body.None? ==>
      r.response == GenerationFailed(BodyUnreadable(thrown))
    // A falsy prompt is refused before the model is asked.
    ensures r.response == PromptRequired <==>
      !req.preflight && Truthy(apiKey) && req.body.Some? && !Truthy(req.body.value.prompt)
    ensures r.upstreamPrompt.Some? <==> Asked(apiKey, req)
    ensures Asked(apiKey, req) ==> r.upstreamPrompt == Some(Decorated(req.body.value.prompt.value))
    // Only an ok answer with an image gives 200.
    ensures r.response.Generated? <==> Asked(apiKey, req) && answer.Answered? && answer.content.Some?
    ensures r.response.Generated? ==> r.response.imageUrl == ImageUrl(answer.content.value)
    ensures Asked(apiKey, req) && answer.Refused? ==>
      r.response == GenerationFailed(Upstream(OrElse(answer.message, DefaultMessage)))
    ensures Asked(apiKey, req) && answer.Unreachable? ==>
      r.response == GenerationFailed(Upstream(answer.reason))
    ensures Asked(apiKey, req) && answer.Answered? && answer.content.None? ==>
      r.response == GenerationFailed(MalformedAnswer(thrown))
  {
    if req.preflight then ImageRun(Preflight, None)
    else if !Truthy(apiKey) then ImageRun(GenerationFailed(KeyMissing), None)
    else if req.body.None? then ImageRun(GenerationFailed(BodyUnreadable(thrown)), None)
    else if !Truthy(req.body.value.prompt) then ImageRun(PromptRequired, None)
    else
      var upstream := Some(Decorated(req.body.value.prompt.value));
      match answer
      case Refused(message) => ImageRun(GenerationFailed(Upstream(OrElse(message, DefaultMessage))), upstream)
      case Unreachable(reason) => ImageRun(GenerationFailed(Upstream(reason)), upstream)
      case Answered(content) =>
        if content.None? then ImageRun(GenerationFailed(MalformedAnswer(thrown)), upstream)
        else ImageRun(Generated(ImageUrl(content.value)), upstream)
  }
}
