/** The `generate-ai-metadata` function: check the key and the prompt, ask the
    language model for the asset's metadata (falling back to a fixed record
    when its answer does not parse), then ask it for a price (falling back to
    a fixed range), and answer the metadata with the price merged in. */
module AiMetadata {
  import opened JsValues
  import opened Assets

  /** The JSON body the handler destructures; `imageUrl` is read but unused. */
  datatype MetadataBody = MetadataBody(prompt: Option<string>, imageUrl: Option<string>)

  /** A CORS preflight, or a POST whose body is JSON (`Some`) or not (`None`). */
  datatype Request = Request(preflight: bool, body: Option<MetadataBody>)

  /** Which thrown error reached the catch block. */
  datatype Failure =
    | KeyMissing                 // 'OpenAI API key not configured'
    | BodyUnreadable             // the request body is not JSON
    | Upstream(message: string)  // a non-ok metadata answer, or a rejected request

  datatype Response =
    | Preflight                           // CORS headers, no body
    | PromptRequired                      // 400 'Prompt is required'
    | Described(metadata: Metadata)       // 200 `{ ...metadata, price_suggestion }`
    | GenerationFailed(details: Failure)  // 500 'Failed to generate metadata'

  function StatusCode(r: Response): nat {
    match r
    case Preflight => 200
    case PromptRequired => 400
    case Described(_) => 200
    case GenerationFailed(_) => 500
  }

  /** The two requests to the language model. */
  datatype ModelCall =
    | Describe(userContent: string)  // the metadata request
    | Appraise(metadata: Metadata)   // the price request, over the metadata as sent

  const DefaultMessage := "Failed to generate metadata"

  /** The user message of the metadata request: the prompt, quoted. */
  function DescribeContent(prompt: string): (c: string)
    ensures |c| == |DescribeLead| + |prompt| + 2
    ensures c[..|DescribeLead|] == DescribeLead
    ensures c[|DescribeLead|..] == [ '"' ] + prompt + [ '"' ]
  {
    DescribeLead + [ '"' ] + prompt + [ '"' ]
  }

  const DescribeLead := "Generate NFT metadata for this prompt: "

  const FallbackLead := "Created with AI from the prompt: "

  /** The metadata used when the model's content does not parse: a fixed
      name, a description ending in the prompt, and three attributes. */
  function FallbackMetadata(prompt: string): (m: Metadata)
    ensures m.name == "AI Generated Art"
    ensures |m.description| == |FallbackLead| + |prompt|
    ensures m.description[..|FallbackLead|] == FallbackLead
    ensures m.description[|FallbackLead|..] == prompt
    ensures m.attributes.Some? && |m.attributes.value| == 3
    ensures m.attributes.value[0] == Attribute("Style", "AI Generated")
    ensures m.attributes.value[1] == Attribute("Rarity", "Common")
    ensures m.attributes.value[2] == Attribute("Theme", "Digital Art")
    ensures m.price_suggestion.None?
  {
    Metadata("AI Generated Art", FallbackLead + prompt,
             Some([Attribute("Style", "AI Generated"),
                   Attribute("Rarity", "Common"),
                   Attribute("Theme", "Digital Art")]),
             None)
  }

  /** Different prompts give different fallback descriptions. */
  lemma FallbackKeepsPrompt(p: string, q: string)
    requires FallbackMetadata(p) == FallbackMetadata(q)
    ensures p == q
  {
    assert p == FallbackMetadata(p).description[|FallbackLead|..];
  }

  /** The price range used unless a priced answer parses. */
  const FallbackPrice := Price(0.01, 0.05, 0.1, "MATIC")

  /** The fallback range is ordered (a parsed one is not checked). */
  lemma FallbackPriceOrdered()
    ensures Ordered(FallbackPrice) && FallbackPrice.currency == "MATIC"
  {
  }

  /** The request reaches the language model. */
  predicate Asked(apiKey: Option<string>, req: Request) {
    !req.preflight && Truthy(apiKey) && req.body.Some? && Truthy(req.body.value.prompt)
  }

  /** The metadata after the parse-or-fallback step. */
  function Settled(prompt: string, content: Option<Metadata>): (m: Metadata)
    ensures content.Some? ==> m == content.value
    ensures content.None? ==> m == FallbackMetadata(prompt)
  {
    if content.Some? then content.value else FallbackMetadata(prompt)
  }

  /** What one run answers and which model calls it made. */
  datatype MetadataRun = MetadataRun(response: Response, calls: seq<ModelCall>)

  /** One run of the handler. */
  function Generate(apiKey: Option<string>, req: Request,
                    describe: Reply<Metadata>, appraise: Reply<Price>): (r: MetadataRun)
    ensures r.response == Preflight <==> req.preflight
    ensures !req.preflight && !Truthy(apiKey) ==> r.response == GenerationFailed(KeyMissing)
    ensures !req.preflight && Truthy(apiKey) && req.body.None? ==> r.response == GenerationFailed(BodyUnreadable)
    // A falsy prompt is refused before any model call.
    ensures r.response == PromptRequired <==>
      !req.preflight && Truthy(apiKey) && req.body.Some? && !Truthy(req.body.value.prompt)
    ensures !Asked(apiKey, req) ==> r.calls == []
    ensures Asked(apiKey, req) ==>
      && 1 <= |r.calls| <= 2
      && r.calls[0] == Describe(DescribeContent(req.body.value.prompt.value))
    // A non-ok metadata answer is fatal: no fallback, no price request.
    ensures Asked(apiKey, req) && describe.Refused? ==>
      r == MetadataRun(GenerationFailed(Upstream(OrElse(describe.message, DefaultMessage))), r.calls) && |r.calls| == 1
    ensures Asked(apiKey, req) && describe.Unreachable? ==>
      r.response == GenerationFailed(Upstream(describe.reason)) && |r.calls| == 1
    // An ok answer settles the metadata, and the price request carries it.
    ensures Asked(apiKey, req) && describe.Answered? ==>
      && |r.calls| == 2
      && r.calls[1] == Appraise(Settled(req.body.value.prompt.value, describe.content))
    // Only a rejected price request is fatal; otherwise the price is the
    // parsed one or the fallback, written over the metadata's own.
    ensures Asked(apiKey, req) && describe.Answered? && appraise.Unreachable? ==>
      r.response == GenerationFailed(Upstream(appraise.reason))
    ensures Asked(apiKey, req) && describe.Answered? && !appraise.Unreachable? ==>
      && r.response.Described?
      && r.response.metadata.(price_suggestion := None)
         == Settled(req.body.value.prompt.value, describe.content).(price_suggestion := None)
      && r.response.metadata.price_suggestion ==
         Some(if appraise.Answered? && appraise.content.Some? then appraise.content.value else FallbackPrice)
    ensures r.response.Described? ==> Asked(apiKey, req) && describe.Answered? && !appraise.Unreachable?
  {
    if req.preflight then MetadataRun(Preflight, [])
    else if !Truthy(apiKey) then MetadataRun(GenerationFailed(KeyMissing), [])
    else if req.body.None? then MetadataRun(GenerationFailed(BodyUnreadable), [])
    else if !Truthy(req.body.value.prompt) then MetadataRun(PromptRequired, [])
    else
      var prompt := req.body.value.prompt.value;
      var describeCall := Describe(DescribeContent(prompt));
      match describe
      case Refused(message) => MetadataRun(GenerationFailed(Upstream(OrElse(message, DefaultMessage))), [describeCall])
      case Unreachable(reason) => MetadataRun(GenerationFailed(Upstream(reason)), [describeCall])
      case Answered(content) =>
        var metadata := Settled(prompt, content);
        var calls := [describeCall, Appraise(metadata)];
        match appraise
        case Unreachable(reason) => MetadataRun(GenerationFailed(Upstream(reason)), calls)
        case Refused(_) => MetadataRun(Described(metadata.(price_suggestion := Some(FallbackPrice))), calls)
        case Answered(priced) =>
          var price := if priced.Some? then priced.value else FallbackPrice;
          MetadataRun(Described(metadata.(price_suggestion := Some(price))), calls)
  }

  /** However the price request goes, short of being rejected, the run
      succeeds with the same name, description and attributes. */
  lemma PriceNeverDecidesOutcome(apiKey: Option<string>, req: Request, describe: Reply<Metadata>,
                                 a: Reply<Price>, b: Reply<Price>)
    requires !a.Unreachable? && !b.Unreachable?
    ensures Generate(apiKey, req, describe, a).response.Described?
        <==> Generate(apiKey, req, describe, b).response.Described?
    ensures Generate(apiKey, req, describe, a).response.Described? ==>
      Generate(apiKey, req, describe, a).response.metadata.(price_suggestion := None)
      == Generate(apiKey, req, describe, b).response.metadata.(price_suggestion := None)
  {
  }

  /** The handler, step by step: `metadata` is settled in a try/catch and
      `priceSuggestion` starts at the fallback and is overwritten only by a
      parsed answer. */
  method GenerateMetadata(apiKey: Option<string>, req: Request,
                          describe: Reply<Metadata>, appraise: Reply<Price>)
    returns (response: Response, calls: seq<ModelCall>)
    ensures MetadataRun(response, calls) == Generate(apiKey, req, describe, appraise)
  {
    calls := [];
    if req.preflight {
      return Preflight, calls;
    }
    if !Truthy(apiKey) {
      return GenerationFailed(KeyMissing), calls;
    }
    if req.body.None? {
      return GenerationFailed(BodyUnreadable), calls;
    }
    var prompt := req.body.value.prompt;
    if !Truthy(prompt) {
      return PromptRequired, calls;
    }

    calls := calls + [Describe(DescribeContent(prompt.value))];
    if describe.Refused? {
      return GenerationFailed(Upstream(OrElse(describe.message, DefaultMessage))), calls;
    }
    if describe.Unreachable? {
      return GenerationFailed(Upstream(describe.reason)), calls;
    }
    var metadata: Metadata;
    if describe.content.Some? {
      metadata := describe.content.value;
    } else {
      metadata := FallbackMetadata(prompt.value);
    }

    calls := calls + [Appraise(metadata)];
    if appraise.Unreachable? {
      return GenerationFailed(Upstream(appraise.reason)), calls;
    }
    var priceSuggestion := FallbackPrice;
    if appraise.Answered? && appraise.content.Some? {
      priceSuggestion := appraise.content.value;
    }
    response := Described(metadata.(price_suggestion := Some(priceSuggestion)));
  }
}
