/** POST /chatbot/chat: rejects a blank message, initialises the chatbot,
    fills in the request's defaults with `or` and runs the inference, mapping
    any failure to 500. */
module ChatbotRoutes {
  import opened Wrappers
  import opened Strings
  import opened ChatbotService

  /** A request field as pydantic sees it: left out of the JSON body, given as
      null, or given a value. */
  datatype Field<T> = Absent | Null | Given(value: T)

  datatype ChatRequest = ChatRequest(message: string, topK: Field<int>, scoreThreshold: Field<real>)

  const DefaultTopK: int := 6
  const DefaultThreshold: real := 0.18

  /** `req.top_k or 6`, where an absent field already holds the default 6. */
  function EffectiveTopK(f: Field<int>): (r: int)
    ensures r != 0
    ensures !(f.Given? && f.value != 0) ==> r == DefaultTopK
    ensures f.Given? && f.value != 0 ==> r == f.value
  {
    match f
    case Given(v) => if v != 0 then v else DefaultTopK
    case _ => DefaultTopK
  }

  /** `req.score_threshold or 0.18`: None and 0.0 are falsy. */
  function EffectiveThreshold(f: Field<real>): (r: real)
    ensures r != 0.0
    ensures f.Given? && f.value != 0.0 ==> r == f.value
    ensures !(f.Given? && f.value != 0.0) ==> r == DefaultThreshold
  {
    match f
    case Given(v) => if v != 0.0 then v else DefaultThreshold
    case _ => DefaultThreshold
  }

  /** `not message or not message.strip()`. */
  predicate BlankMessage(message: string) {
    message == [] || Strip(message) == []
  }

  /** What the endpoint answers for a request, given the environment. */
  function ChatResponse(env: Environment, req: ChatRequest): Result<Inference, Failure> {
    if BlankMessage(req.message) then Err(Http(400))
    else match InferenceOutcome(env, req.message, EffectiveTopK(req.topK), EffectiveThreshold(req.scoreThreshold))
      case Err(_) => Err(Http(500))
      case Ok(result) => Ok(result)
  }

  /** The endpoint fails only with 400, exactly for a blank message, or with
      500, exactly when the inference fails; otherwise it returns the
      inference's own result, bare string or answer, unchanged. */
  lemma ChatResponseSpec(env: Environment, req: ChatRequest)
    ensures var r := ChatResponse(env, req);
            (r == Err(Http(400)) <==> Strip(req.message) == []) &&
            (r.Err? ==> r.error == Http(400) || r.error == Http(500)) &&
            (!BlankMessage(req.message) ==>
               var inference := InferenceOutcome(env, req.message, EffectiveTopK(req.topK), EffectiveThreshold(req.scoreThreshold));
               (r == Err(Http(500)) <==> inference.Err?) && (inference.Ok? ==> r == Ok(inference.value)))
  {
    if req.message == [] {
      assert Strip(req.message) == [] by {
        StripSpec(req.message);
      }
    }
  }

  /** chat_endpoint. The initialize call cannot fail: initialize catches every
      exception of its own loads, so its 500 branch is never taken. */
  method ChatEndpoint(bot: Chatbot, req: ChatRequest) returns (r: Result<Inference, Failure>)
    requires bot.Valid()
    modifies bot
    ensures bot.Valid()
    ensures BlankMessage(req.message) ==> unchanged(bot)
    ensures !BlankMessage(req.message) ==> bot.Loaded()
    ensures r == ChatResponse(bot.env, req)
  {
    if req.message == [] || Strip(req.message) == [] {
      return Err(Http(400));
    }
    bot.Initialize();
    var result := bot.RunInference(req.message, EffectiveTopK(req.topK), EffectiveThreshold(req.scoreThreshold));
    if result.Err? {
      return Err(Http(500));
    }
    return result;
  }
}
