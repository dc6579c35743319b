/**
 * gemini_api.py, the older single-provider variant: a fixed list of four
 * Gemini models, an inline prompt asking for one `mapping` key, and a
 * fallback loop in which the JSON decoding happens inside the same `try` as
 * the network call, so only errors mentioning "404" move on to the next model.
 */
module GeminiApi {
  import opened Wrappers
  import opened Text
  import opened Json
  import opened Chain
  import LlmApi

  const KEY_REQUIRED := "API Key is required."

  /** The models tried, in this order. */
  const MODELS_TO_TRY: seq<string> := ["gemini-1.5-flash", "gemini-1.5-flash-8b", "gemini-1.5-pro", "gemini-1.0-pro"]

  // The long texts are written in short pieces, which keeps facts about their characters cheap to check.
  const CONVERT_LINE := "\nConvert the following" + " Japanese request" + " into Stable Diffusion" + " prompts (Positive" + " and Negative).\n"
  const FORMAT_LINE := "Return the result" + " in JSON format" + " with the following" + " keys:\n"
  const PROMPT_INTRO := CONVERT_LINE + FORMAT_LINE
  const MAPPING_MEANING :=
    "A list of objects with \"word\"" + " (English tag from positive/negative)" + " and \"translation\"" + " (Japanese meaning)."
  const KEY_LINES :=
    LlmApi.KeyLine("positive", LlmApi.POSITIVE_MEANING) + LlmApi.KeyLine("negative", LlmApi.NEGATIVE_MEANING)
    + LlmApi.KeyLine("mapping", MAPPING_MEANING)

  /** Everything before the request: the instructions, the key list and the request header. */
  const PROMPT_HEAD := PROMPT_INTRO + KEY_LINES + "\nJapanese Request: "

  /** The prompt built inside the loop; it ends like the one of llm_api.py. */
  function Prompt(userInput: string): string
  {
    PROMPT_HEAD + userInput + LlmApi.PROMPT_TAIL
  }

  /**
   * The prompt embeds the request verbatim and asks for a single `mapping`
   * key: apart from the request itself, nothing in it labels a `pos_mapping`
   * or `neg_mapping` key.
   */
  lemma PromptContents(userInput: string)
    ensures Contains(Prompt(userInput), userInput)
    ensures Contains(Prompt(userInput), LlmApi.KeyLabel("mapping"))
    ensures Contains(Prompt(userInput), LlmApi.RESPONSE_RULE)
    ensures !Contains(PROMPT_HEAD, LlmApi.KeyLabel("pos_mapping")) && !Contains(LlmApi.PROMPT_TAIL, LlmApi.KeyLabel("pos_mapping"))
    ensures !Contains(PROMPT_HEAD, LlmApi.KeyLabel("neg_mapping")) && !Contains(LlmApi.PROMPT_TAIL, LlmApi.KeyLabel("neg_mapping"))
  {
    NoSplitMappingKeys();
    ContainsMiddle(PROMPT_HEAD, userInput, LlmApi.PROMPT_TAIL);
    ContainsMiddle("\n\n", LlmApi.RESPONSE_RULE, "\n");
    ContainsWithinLeft(PROMPT_HEAD + userInput, LlmApi.PROMPT_TAIL, LlmApi.RESPONSE_RULE);
    var mappingLabel := LlmApi.KeyLabel("mapping");
    LlmApi.LineNamesKey("mapping", MAPPING_MEANING);
    var keys := LlmApi.KeyLine("positive", LlmApi.POSITIVE_MEANING) + LlmApi.KeyLine("negative", LlmApi.NEGATIVE_MEANING);
    ContainsWithinLeft(keys, LlmApi.KeyLine("mapping", MAPPING_MEANING), mappingLabel);
    ContainsWithin(PROMPT_INTRO, KEY_LINES, "\nJapanese Request: ", mappingLabel);
    ContainsWithinRight(PROMPT_HEAD, userInput, mappingLabel);
    ContainsWithinRight(PROMPT_HEAD + userInput, LlmApi.PROMPT_TAIL, mappingLabel);
  }

  /** The fixed parts of the prompt contain no underscore, so no `pos_mapping` or `neg_mapping` label. */
  lemma NoSplitMappingKeys()
    ensures !Contains(PROMPT_HEAD, LlmApi.KeyLabel("pos_mapping")) && !Contains(LlmApi.PROMPT_TAIL, LlmApi.KeyLabel("pos_mapping"))
    ensures !Contains(PROMPT_HEAD, LlmApi.KeyLabel("neg_mapping")) && !Contains(LlmApi.PROMPT_TAIL, LlmApi.KeyLabel("neg_mapping"))
  {
    HeadHasNoUnderscore();
    TailHasNoUnderscore();
    assert LlmApi.KeyLabel("pos_mapping")[5] == '_' && LlmApi.KeyLabel("neg_mapping")[5] == '_';
    MissingCharNotContained(PROMPT_HEAD, LlmApi.KeyLabel("pos_mapping"), '_');
    MissingCharNotContained(LlmApi.PROMPT_TAIL, LlmApi.KeyLabel("pos_mapping"), '_');
    MissingCharNotContained(PROMPT_HEAD, LlmApi.KeyLabel("neg_mapping"), '_');
    MissingCharNotContained(LlmApi.PROMPT_TAIL, LlmApi.KeyLabel("neg_mapping"), '_');
  }

  lemma HeadHasNoUnderscore()
    ensures Avoids(PROMPT_HEAD, '_')
  {
    ConvertLineHasNoUnderscore();
    FormatLineHasNoUnderscore();
    AvoidsJoin(CONVERT_LINE, FORMAT_LINE, '_');
    KeyLinesHaveNoUnderscore();
    AvoidsJoin(PROMPT_INTRO, KEY_LINES, '_');
    assert Avoids("\nJapanese Request: ", '_');
    AvoidsJoin(PROMPT_INTRO + KEY_LINES, "\nJapanese Request: ", '_');
  }

  lemma TailHasNoUnderscore()
    ensures Avoids(LlmApi.PROMPT_TAIL, '_')
  {
    assert Avoids(LlmApi.RESPONSE_RULE, '_');
    AvoidsJoin("\n\n", LlmApi.RESPONSE_RULE, '_');
    AvoidsJoin("\n\n" + LlmApi.RESPONSE_RULE, "\n", '_');
  }

  lemma ConvertLineHasNoUnderscore()
    ensures Avoids(CONVERT_LINE, '_')
  {
    assert Avoids("\nConvert the following" + " Japanese request", '_');
    assert Avoids(" into Stable Diffusion" + " prompts (Positive", '_');
    assert Avoids(" and Negative).\n", '_');
    AvoidsJoin("\nConvert the following" + " Japanese request", " into Stable Diffusion" + " prompts (Positive", '_');
    AvoidsJoin("\nConvert the following" + " Japanese request" + (" into Stable Diffusion" + " prompts (Positive"), " and Negative).\n", '_');
  }

  lemma FormatLineHasNoUnderscore()
    ensures Avoids(FORMAT_LINE, '_')
  {
    assert Avoids("Return the result" + " in JSON format", '_');
    assert Avoids(" with the following" + " keys:\n", '_');
    AvoidsJoin("Return the result" + " in JSON format", " with the following" + " keys:\n", '_');
  }

  lemma KeyLinesHaveNoUnderscore()
    ensures Avoids(KEY_LINES, '_')
  {
    KeyLineHasNoUnderscore("positive", LlmApi.POSITIVE_MEANING);
    KeyLineHasNoUnderscore("negative", LlmApi.NEGATIVE_MEANING);
    MappingMeaningHasNoUnderscore();
    KeyLineHasNoUnderscore("mapping", MAPPING_MEANING);
    AvoidsJoin(LlmApi.KeyLine("positive", LlmApi.POSITIVE_MEANING), LlmApi.KeyLine("negative", LlmApi.NEGATIVE_MEANING), '_');
    AvoidsJoin(LlmApi.KeyLine("positive", LlmApi.POSITIVE_MEANING) + LlmApi.KeyLine("negative", LlmApi.NEGATIVE_MEANING),
      LlmApi.KeyLine("mapping", MAPPING_MEANING), '_');
  }

  lemma KeyLineHasNoUnderscore(key: string, meaning: string)
    requires key in {"positive", "negative", "mapping"}
    requires Avoids(meaning, '_')
    ensures Avoids(LlmApi.KeyLine(key, meaning), '_')
  {
    assert Avoids(LlmApi.KeyLabel(key), '_');
    AvoidsJoin(LlmApi.KeyLabel(key), meaning, '_');
    AvoidsJoin(LlmApi.KeyLabel(key) + meaning, "\n", '_');
  }

  lemma MappingMeaningHasNoUnderscore()
    ensures Avoids(MAPPING_MEANING, '_')
  {
    assert Avoids("A list of objects with \"word\"", '_');
    assert Avoids(" (English tag from positive/negative)", '_');
    assert Avoids(" and \"translation\"" + " (Japanese meaning).", '_');
    AvoidsJoin("A list of objects with \"word\"", " (English tag from positive/negative)", '_');
    AvoidsJoin("A list of objects with \"word\"" + " (English tag from positive/negative)", " and \"translation\"" + " (Japanese meaning).", '_');
  }

  /** Only a "not found" error sends the loop on to the next model. */
  predicate NotFound(error: string)
  {
    Contains(error, "404")
  }

  /** What the `try` block does for one model: end the function with a reply, or raise. */
  datatype Step = Stop(reply: Reply) | Fail(error: string)

  function AttemptStep(model: string, prompt: string, call: Oracle, decode: Decoder): Step
  {
    match call(model, prompt)
    case Raised(e) => Fail(e)
    case Responded(text) =>
      match ObjectSpan(text)
      case None => Stop(Failure("Failed to parse JSON from Gemini response (" + model + ")."))
      case Some(span) =>
        match decode(span)
        case Decoded(data) => Stop(Success(data))
        case DecodeFailed(message) => Fail(message)
  }

  /** For each model, whether its attempt raises an error mentioning "404". */
  function Advances(models: seq<string>, prompt: string, call: Oracle, decode: Decoder): (advance: seq<bool>)
    ensures |advance| == |models|
    ensures forall j :: 0 <= j < |models| ==>
              (advance[j] <==> AttemptStep(models[j], prompt, call, decode).Fail?
                               && NotFound(AttemptStep(models[j], prompt, call, decode).error))
  {
    seq(|models|, j requires 0 <= j < |models| =>
      AttemptStep(models[j], prompt, call, decode).Fail? && NotFound(AttemptStep(models[j], prompt, call, decode).error))
  }

  /** The reply of the loop over `models`. */
  function ChainReply(models: seq<string>, prompt: string, call: Oracle, decode: Decoder): Reply
  {
    var k := FirstStop(Advances(models, prompt, call, decode), 0);
    if k < |models| then
      match AttemptStep(models[k], prompt, call, decode)
      case Stop(reply) => reply
      case Fail(e) => Failure("Error with " + models[k] + ": " + e)
    else
      Failure("All models failed. Last error: "
              + ErrorText(if models == [] then None else Some(AttemptStep(models[|models| - 1], prompt, call, decode).error)))
  }

  /** `generate_prompts` as a value. */
  function GeneratedReply(apiKey: string, userInput: string, call: Oracle, decode: Decoder): Reply
  {
    if apiKey == "" then Failure(KEY_REQUIRED)
    else ChainReply(MODELS_TO_TRY, Prompt(userInput), call, decode)
  }

  /** The models `generate_prompts` calls, in order. */
  function Attempts(apiKey: string, userInput: string, call: Oracle, decode: Decoder): seq<string>
  {
    if apiKey == "" then []
    else Attempted(MODELS_TO_TRY, Advances(MODELS_TO_TRY, Prompt(userInput), call, decode))
  }

  /** gemini_api.py:5-53: `generate_prompts`. */
  method GeneratePrompts(apiKey: string, userInput: string, call: Oracle, decode: Decoder)
    returns (r: Reply, ghost tried: seq<string>)
    ensures r == GeneratedReply(apiKey, userInput, call, decode)
    ensures tried == Attempts(apiKey, userInput, call, decode)
    ensures apiKey == "" ==> r == Failure(KEY_REQUIRED) && tried == []
    ensures tried <= MODELS_TO_TRY
  {
    tried := [];
    if apiKey == "" {
      r := Failure(KEY_REQUIRED);
      return;
    }
    r, tried := TryModels(MODELS_TO_TRY, Prompt(userInput), call, decode);
  }

  /**
   * gemini_api.py:19-53: the loop, for any list of models and any prompt.
   * The source rebuilds the same prompt on every pass; here the caller
   * builds it once.
   */
  method TryModels(models: seq<string>, prompt: string, call: Oracle, decode: Decoder)
    returns (r: Reply, ghost tried: seq<string>)
    ensures r == ChainReply(models, prompt, call, decode)
    ensures tried == Attempted(models, Advances(models, prompt, call, decode))
  {
    ghost var advance := Advances(models, prompt, call, decode);
    var lastError: Option<string> := None;
    tried := [];
    for i := 0 to |models|
      invariant FirstStop(advance, i) == FirstStop(advance, 0)
      invariant tried == models[..i]
      invariant i == 0 ==> lastError == None
      invariant i > 0 ==> lastError == Some(AttemptStep(models[i - 1], prompt, call, decode).error)
    {
      tried := tried + [models[i]];
      var step := Attempt(models[i], prompt, call, decode);
      assert advance[i] <==> step.Fail? && NotFound(step.error);
      match step {
        case Stop(reply) =>
          StopsHere(advance, i);
          ChainStopsAt(models, prompt, call, decode, i);
          r := reply;
          return;
        case Fail(caught) =>
          lastError := Some(caught);
          if NotFound(caught) {
            continue;
          }
          StopsHere(advance, i);
          ChainStopsAt(models, prompt, call, decode, i);
          r := Failure("Error with " + models[i] + ": " + caught);
          return;
      }
    }
    ChainExhausted(models, prompt, call, decode);
    assert tried == models;
    r := Failure("All models failed. Last error: " + ErrorText(lastError));
  }

  /** Where the loop stops at model `i`, that model's attempt decides the reply. */
  lemma ChainStopsAt(models: seq<string>, prompt: string, call: Oracle, decode: Decoder, i: nat)
    requires i < |models| && FirstStop(Advances(models, prompt, call, decode), 0) == i
    ensures Attempted(models, Advances(models, prompt, call, decode)) == models[..i + 1]
    ensures ChainReply(models, prompt, call, decode)
            == match AttemptStep(models[i], prompt, call, decode)
               case Stop(reply) => reply
               case Fail(e) => Failure("Error with " + models[i] + ": " + e)
  {
  }

  /** When every model's attempt raises a "404" error, all are tried and the last error is reported. */
  lemma ChainExhausted(models: seq<string>, prompt: string, call: Oracle, decode: Decoder)
    requires FirstStop(Advances(models, prompt, call, decode), 0) == |models|
    ensures Attempted(models, Advances(models, prompt, call, decode)) == models
    ensures ChainReply(models, prompt, call, decode)
            == Failure("All models failed. Last error: "
                       + ErrorText(if models == [] then None else Some(AttemptStep(models[|models| - 1], prompt, call, decode).error)))
  {
  }

  /**
   * gemini_api.py:21-44: the `try` block for one model. It ends the function
   * with a reply, or gives the text of the exception that reaches `except`.
   */
  method Attempt(model: string, prompt: string, call: Oracle, decode: Decoder) returns (step: Step)
    ensures step == AttemptStep(model, prompt, call, decode)
  {
    match call(model, prompt) {
      case Raised(e) =>
        return Fail(e);
      case Responded(text) =>
        match ObjectSpan(text) {
          case None =>
            return Stop(Failure("Failed to parse JSON from Gemini response (" + model + ")."));
          case Some(span) =>
            match decode(span) {
              case Decoded(data) =>
                return Stop(Success(data));
              case DecodeFailed(message) =>
                return Fail(message);
            }
        }
    }
  }

  /** An error without "404" (one that only mentions "429", say) ends the loop at once. */
  lemma OtherErrorEndsChain(models: seq<string>, prompt: string, call: Oracle, decode: Decoder, j: nat)
    requires j < |models|
    requires forall i :: 0 <= i < j ==> Advances(models, prompt, call, decode)[i]
    requires call(models[j], prompt).Raised? && !NotFound(call(models[j], prompt).error)
    ensures ChainReply(models, prompt, call, decode) == Failure("Error with " + models[j] + ": " + call(models[j], prompt).error)
    ensures Attempted(models, Advances(models, prompt, call, decode)) == models[..j + 1]
  {
    FirstStopAt(Advances(models, prompt, call, decode), j);
  }

  /** A response with no `{...}` span ends the loop: no later model is tried. */
  lemma MissingSpanEndsChain(models: seq<string>, prompt: string, call: Oracle, decode: Decoder, j: nat)
    requires j < |models|
    requires forall i :: 0 <= i < j ==> Advances(models, prompt, call, decode)[i]
    requires call(models[j], prompt).Responded? && !HasBracePair(call(models[j], prompt).text)
    ensures ChainReply(models, prompt, call, decode) == Failure("Failed to parse JSON from Gemini response (" + models[j] + ").")
    ensures Attempted(models, Advances(models, prompt, call, decode)) == models[..j + 1]
  {
    FirstStopAt(Advances(models, prompt, call, decode), j);
  }

  /**
   * A decoding error is caught by the same `except` as a network error, so a
   * decoding message that mentions "404" moves the loop on to the next model,
   * and reaches the final report when it came from the last one.
   */
  lemma DecodeErrorWith404Advances(models: seq<string>, prompt: string, call: Oracle, decode: Decoder, j: nat, message: string)
    requires j < |models|
    requires forall i :: 0 <= i < j ==> Advances(models, prompt, call, decode)[i]
    requires call(models[j], prompt).Responded?
    requires HasBracePair(call(models[j], prompt).text)
    requires decode(ObjectSpan(call(models[j], prompt).text).value) == DecodeFailed(message)
    requires NotFound(message)
    ensures j + 1 < |models| ==> models[..j + 2] <= Attempted(models, Advances(models, prompt, call, decode))
    ensures j + 1 == |models| ==> ChainReply(models, prompt, call, decode) == Failure("All models failed. Last error: " + message)
  {
    var advance := Advances(models, prompt, call, decode);
    assert advance[j];
    var k := FirstStop(advance, 0);
    assert k > j;
    if j + 1 < |models| && k < |models| {
      assert models[..k + 1][..j + 2] == models[..j + 2];
    }
  }

  /** When every model fails with a "404" error, the report carries the last model's error. */
  lemma ExhaustedChain(models: seq<string>, prompt: string, call: Oracle, decode: Decoder)
    requires models != []
    requires forall i :: 0 <= i < |models| ==> Advances(models, prompt, call, decode)[i]
    ensures AttemptStep(models[|models| - 1], prompt, call, decode).Fail?
    ensures ChainReply(models, prompt, call, decode)
            == Failure("All models failed. Last error: " + AttemptStep(models[|models| - 1], prompt, call, decode).error)
    ensures Attempted(models, Advances(models, prompt, call, decode)) == models
  {
    FirstStopAt(Advances(models, prompt, call, decode), |models|);
  }
}
