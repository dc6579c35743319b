/**
 * The LLM orchestration layer of llm_api.py: the prompt template, the
 * tolerant JSON reply parser, the Gemini candidate list (three preferred
 * models followed by the discovered ones, duplicates dropped), the ordered
 * fallback over that list, the single-model OpenAI path and the dispatch
 * between the two providers.
 */
module LlmApi {
  import opened Wrappers
  import opened Text
  import opened Json
  import opened Chain

  // ---------------------------------------------------------------------
  // Prompt template
  // ---------------------------------------------------------------------

  const PROMPT_INTRO := "\nConvert the following request into Stable Diffusion prompts (Positive and Negative).\nReturn the result in JSON format with the following keys:\n"
  const REQUEST_LEAD := "Stable Diffusion で利用するプロンプトを生成してください。\n要望: "
  const RESPONSE_RULE := "Response MUST be ONLY the JSON object."

  /** The four keys the prompt asks the model for. */
  const RESULT_KEYS: seq<string> := ["positive", "negative", "pos_mapping", "neg_mapping"]

  /** The label that introduces a key in the prompt's key list. */
  function KeyLabel(key: string): string
  {
    "- " + key + ": "
  }

  function KeyLine(key: string, meaning: string): string
  {
    KeyLabel(key) + meaning + "\n"
  }

  const POSITIVE_MEANING := "The English positive prompt" + " (comma-separated tags)."
  const NEGATIVE_MEANING := "The English negative prompt" + " (comma-separated tags)."
  const POS_MAPPING_MEANING := "A list of objects with \"word\" (English tag from positive) and \"translation\" (Japanese meaning)."
  const NEG_MAPPING_MEANING := "A list of objects with \"word\" (English tag from negative) and \"translation\" (Japanese meaning)."

  const KEY_LINES :=
    KeyLine("positive", POSITIVE_MEANING) + KeyLine("negative", NEGATIVE_MEANING)
    + KeyLine("pos_mapping", POS_MAPPING_MEANING) + KeyLine("neg_mapping", NEG_MAPPING_MEANING)

  /** Everything before the request: the instructions, the key list and the request header. */
  const PROMPT_HEAD := PROMPT_INTRO + KEY_LINES + ("\nRequest: " + REQUEST_LEAD)

  /** Everything after the request. */
  const PROMPT_TAIL := "\n\n" + RESPONSE_RULE + "\n"

  /** `create_system_prompt`: the instruction text sent to every model. */
  function CreateSystemPrompt(userInput: string): string
  {
    PROMPT_HEAD + userInput + PROMPT_TAIL
  }

  /**
   * The prompt embeds the request verbatim, names the four result keys and
   * demands a reply made of the JSON object only, whatever the request is.
   */
  lemma SystemPromptContents(userInput: string)
    ensures Contains(CreateSystemPrompt(userInput), userInput)
    ensures Contains(CreateSystemPrompt(userInput), RESPONSE_RULE)
    ensures forall key :: key in RESULT_KEYS ==> Contains(CreateSystemPrompt(userInput), KeyLabel(key))
  {
    ContainsMiddle(PROMPT_HEAD, userInput, PROMPT_TAIL);
    ContainsMiddle("\n\n", RESPONSE_RULE, "\n");
    ContainsWithinLeft(PROMPT_HEAD + userInput, PROMPT_TAIL, RESPONSE_RULE);
    forall key | key in RESULT_KEYS
      ensures Contains(CreateSystemPrompt(userInput), KeyLabel(key))
    {
      KeyLinesNameKey(key);
      ContainsWithin(PROMPT_INTRO, KEY_LINES, "\nRequest: " + REQUEST_LEAD, KeyLabel(key));
      ContainsWithinRight(PROMPT_HEAD, userInput, KeyLabel(key));
      ContainsWithinRight(PROMPT_HEAD + userInput, PROMPT_TAIL, KeyLabel(key));
    }
  }

  lemma LineNamesKey(key: string, meaning: string)
    ensures Contains(KeyLine(key, meaning), KeyLabel(key))
  {
    ContainsPrefix(KeyLabel(key), meaning + "\n");
    assert KeyLine(key, meaning) == KeyLabel(key) + (meaning + "\n");
  }
  lemma KeyLinesNameKey(key: string)
    requires key in RESULT_KEYS
    ensures Contains(KEY_LINES, KeyLabel(key))
  {
    LineNamesKey(key, POSITIVE_MEANING);
    LineNamesKey(key, NEGATIVE_MEANING);
    LineNamesKey(key, POS_MAPPING_MEANING);
    LineNamesKey(key, NEG_MAPPING_MEANING);
    ContainsInFour(KeyLine("positive", POSITIVE_MEANING), KeyLine("negative", NEGATIVE_MEANING),
      KeyLine("pos_mapping", POS_MAPPING_MEANING), KeyLine("neg_mapping", NEG_MAPPING_MEANING), KeyLabel(key));
  }

  // ---------------------------------------------------------------------
  // Reply parser
  // ---------------------------------------------------------------------

  /**
   * `parse_json_response`: decode the span from the first `{` to the last
   * `}`; no such span and a decoding failure are reported with the model name.
   */
  function ParseJsonResponse(text: string, modelName: string, decode: Decoder): (r: Reply)
    ensures r.Success? <==> HasBracePair(text) && decode(ObjectSpan(text).value).Decoded?
    ensures r.Success? ==> r.data == decode(ObjectSpan(text).value).value
    ensures !HasBracePair(text) ==> r == Failure("Failed to parse JSON response from " + modelName + ".")
    ensures HasBracePair(text) && r.Failure? ==>
              r == Failure("JSON parse error from " + modelName + ": " + decode(ObjectSpan(text).value).message)
  {
    match ObjectSpan(text)
    case None => Failure("Failed to parse JSON response from " + modelName + ".")
    case Some(span) =>
      match decode(span)
      case Decoded(data) => Success(data)
      case DecodeFailed(message) => Failure("JSON parse error from " + modelName + ": " + message)
  }

  // ---------------------------------------------------------------------
  // Gemini candidate list
  // ---------------------------------------------------------------------

  /** The models tried first, in this order. */
  const PREFERRED_MODELS: seq<string> := ["gemini-1.5-flash", "gemini-2.0-flash", "gemini-1.5-pro"]
  const MODELS_PREFIX := "models/"
  const GENERATE_CONTENT := "generateContent"

  /** One entry of `genai.list_models()`. */
  datatype ListedModel = ListedModel(name: string, supportedGenerationMethods: seq<string>)

  /** The names of the listed models that support content generation, in listing order. */
  function GenerateContentNames(listed: seq<ListedModel>): (names: seq<string>)
    ensures |names| <= |listed|
    ensures forall n :: n in names <==>
              exists k :: 0 <= k < |listed| && listed[k].name == n && GENERATE_CONTENT in listed[k].supportedGenerationMethods
  {
    if listed == [] then []
    else
      var rest := GenerateContentNames(listed[1..]);
      assert forall k :: 1 <= k < |listed| ==> listed[k] == listed[1..][k - 1];
      (if GENERATE_CONTENT in listed[0].supportedGenerationMethods then [listed[0].name] else []) + rest
  }

  /** Listing one more model adds its name at the end exactly when it supports `generateContent`. */
  lemma {:induction false} GenerateContentNamesAppend(listed: seq<ListedModel>, m: ListedModel)
    ensures GenerateContentNames(listed + [m])
            == GenerateContentNames(listed) + (if GENERATE_CONTENT in m.supportedGenerationMethods then [m.name] else [])
  {
    if listed == [] {
      assert [] + [m] == [m];
      assert [m][1..] == [];
    } else {
      assert (listed + [m])[1..] == listed[1..] + [m];
      GenerateContentNamesAppend(listed[1..], m);
    }
  }

  /** Each name with every `models/` removed, as `m.replace('models/', '')` does. */
  function CleanNames(names: seq<string>): (clean: seq<string>)
    ensures |clean| == |names|
    ensures forall i :: 0 <= i < |names| ==> clean[i] == RemoveAll(names[i], MODELS_PREFIX)
  {
    seq(|names|, i requires 0 <= i < |names| => RemoveAll(names[i], MODELS_PREFIX))
  }

  /** The discovered model names; none when listing the models raised. */
  function Discovered(listing: Option<seq<ListedModel>>): seq<string>
  {
    match listing
    case None => []
    case Some(listed) => CleanNames(GenerateContentNames(listed))
  }

  predicate NoDuplicates<T(==)>(s: seq<T>)
  {
    forall i, j :: 0 <= i < j < |s| ==> s[i] != s[j]
  }

  /** Reference definition of "duplicates removed, first-seen order kept": keep an element iff it does not occur earlier. */
  function FirstOccurrences<T(==)>(s: seq<T>): seq<T>
  {
    if s == [] then []
    else FirstOccurrences(s[..|s| - 1]) + (if s[|s| - 1] in s[..|s| - 1] then [] else [s[|s| - 1]])
  }

  lemma {:induction false} FirstOccurrencesMembers<T>(s: seq<T>)
    ensures forall x :: x in FirstOccurrences(s) <==> x in s
  {
    if s != [] {
      FirstOccurrencesMembers(s[..|s| - 1]);
      assert s == s[..|s| - 1] + [s[|s| - 1]];
    }
  }

  lemma {:induction false} FirstOccurrencesDistinct<T>(s: seq<T>)
    ensures NoDuplicates(FirstOccurrences(s))
  {
    if s != [] {
      FirstOccurrencesDistinct(s[..|s| - 1]);
      FirstOccurrencesMembers(s[..|s| - 1]);
    }
  }

  lemma {:induction false} FirstOccurrencesOfDistinct<T>(s: seq<T>)
    requires NoDuplicates(s)
    ensures FirstOccurrences(s) == s
  {
    if s != [] {
      var init := s[..|s| - 1];
      FirstOccurrencesOfDistinct(init);
      assert s[|s| - 1] !in init by {
        forall i | 0 <= i < |init| ensures init[i] != s[|s| - 1] {
          assert init[i] == s[i];
        }
      }
      assert s == init + [s[|s| - 1]];
    }
  }

  /** Appending one element: it is kept iff it is not already in the deduplicated list. */
  lemma FirstOccurrencesAppend<T>(s: seq<T>, x: T)
    ensures FirstOccurrences(s + [x]) == FirstOccurrences(s) + (if x in FirstOccurrences(s) then [] else [x])
  {
    FirstOccurrencesMembers(s);
    assert (s + [x])[..|s + [x]| - 1] == s;
  }

  /** Deduplicating `p + t` keeps a duplicate-free `p` as its prefix. */
  lemma {:induction false} FirstOccurrencesKeepsPrefix<T>(p: seq<T>, t: seq<T>)
    requires NoDuplicates(p)
    ensures p <= FirstOccurrences(p + t)
  {
    if t == [] {
      FirstOccurrencesOfDistinct(p);
      assert p + t == p;
    } else {
      var init := t[..|t| - 1];
      FirstOccurrencesKeepsPrefix(p, init);
      assert (p + t)[..|p + t| - 1] == p + init;
    }
  }

  /** The candidate list `models_to_try` once discovery is done. */
  function Candidates(listing: Option<seq<ListedModel>>): seq<string>
  {
    FirstOccurrences(PREFERRED_MODELS + Discovered(listing))
  }

  lemma PreferredDistinct()
    ensures NoDuplicates(PREFERRED_MODELS)
  {
    assert PREFERRED_MODELS[0][7] != PREFERRED_MODELS[1][7];
    assert PREFERRED_MODELS[0][11] != PREFERRED_MODELS[2][11];
    assert PREFERRED_MODELS[1][7] != PREFERRED_MODELS[2][7];
  }

  /**
   * llm_api.py:13-27: start from the preferred models and append each
   * discovered name, with `models/` removed, unless it is already present.
   */
  method AssembleCandidates(listing: Option<seq<ListedModel>>) returns (models: seq<string>)
    ensures models == Candidates(listing)
    ensures PREFERRED_MODELS <= models && NoDuplicates(models)
    ensures listing.None? ==> models == PREFERRED_MODELS
    ensures forall m :: m in models <==> m in PREFERRED_MODELS || m in Discovered(listing)
  {
    models := PREFERRED_MODELS;
    PreferredDistinct();
    match listing {
      case None =>
        MergeStart(PREFERRED_MODELS, []);
        assert Discovered(listing) == CleanNames([][..0]);
      case Some(listed) =>
        var available := GenerateContentNames(listed);
        MergeStart(PREFERRED_MODELS, available);
        for i := 0 to |available|
          invariant models == FirstOccurrences(PREFERRED_MODELS + CleanNames(available[..i]))
        {
          var cleanName := RemoveAll(available[i], MODELS_PREFIX);
          MergeStep(PREFERRED_MODELS, available, i);
          if cleanName !in models {
            models := models + [cleanName];
          }
        }
        assert available[..|available|] == available;
    }
    CandidatesShape(listing);
  }

  lemma MergeStart(preferred: seq<string>, names: seq<string>)
    requires NoDuplicates(preferred)
    ensures FirstOccurrences(preferred + CleanNames(names[..0])) == preferred
  {
    FirstOccurrencesOfDistinct(preferred);
    assert preferred + CleanNames(names[..0]) == preferred;
  }

  lemma MergeStep(preferred: seq<string>, names: seq<string>, i: nat)
    requires i < |names|
    ensures var before := FirstOccurrences(preferred + CleanNames(names[..i]));
            var cleanName := RemoveAll(names[i], MODELS_PREFIX);
            FirstOccurrences(preferred + CleanNames(names[..i + 1]))
            == before + (if cleanName in before then [] else [cleanName])
  {
    var cleanName := RemoveAll(names[i], MODELS_PREFIX);
    FirstOccurrencesAppend(preferred + CleanNames(names[..i]), cleanName);
    assert preferred + CleanNames(names[..i + 1]) == (preferred + CleanNames(names[..i])) + [cleanName];
  }

  /**
   * The candidate list starts with the preferred models, has no duplicates,
   * holds exactly the preferred and the discovered names, and is the
   * preferred list alone when listing the models failed.
   */
  lemma CandidatesShape(listing: Option<seq<ListedModel>>)
    ensures PREFERRED_MODELS <= Candidates(listing) && NoDuplicates(Candidates(listing))
    ensures listing.None? ==> Candidates(listing) == PREFERRED_MODELS
    ensures forall m :: m in Candidates(listing) <==> m in PREFERRED_MODELS || m in Discovered(listing)
  {
    PreferredDistinct();
    FirstOccurrencesKeepsPrefix(PREFERRED_MODELS, Discovered(listing));
    FirstOccurrencesDistinct(PREFERRED_MODELS + Discovered(listing));
    FirstOccurrencesMembers(PREFERRED_MODELS + Discovered(listing));
    if listing.None? {
      FirstOccurrencesOfDistinct(PREFERRED_MODELS);
      assert PREFERRED_MODELS + Discovered(listing) == PREFERRED_MODELS;
    }
  }

  /** A name listed as `models/<x>`, with no further `models/` inside, is tried as `<x>`. */
  lemma ModelsPrefixStripped(x: string)
    requires !Contains(x, MODELS_PREFIX)
    ensures RemoveAll(MODELS_PREFIX + x, MODELS_PREFIX) == x
  {
    assert (MODELS_PREFIX + x)[|MODELS_PREFIX|..] == x;
  }

  // ---------------------------------------------------------------------
  // Gemini fallback loop
  // ---------------------------------------------------------------------

  /** An error that sends the loop on to the next model: not found (404) or rate limited (429). */
  predicate Retryable(error: string)
  {
    Contains(error, "404") || Contains(error, "429")
  }

  /** For each candidate, whether calling it raises a retryable error. */
  function Advances(models: seq<string>, prompt: string, call: Oracle): (advance: seq<bool>)
    ensures |advance| == |models|
    ensures forall j :: 0 <= j < |models| ==>
              (advance[j] <==> call(models[j], prompt).Raised? && Retryable(call(models[j], prompt).error))
  {
    seq(|models|, j requires 0 <= j < |models| =>
      call(models[j], prompt).Raised? && Retryable(call(models[j], prompt).error))
  }

  function ExhaustedMessage(count: nat, lastError: Option<string>): string
  {
    "All Gemini models (" + DecimalDigits(count) + ") failed. Please try ChatGPT instead. Last error: " + ErrorText(lastError)
  }

  /**
   * The reply of the loop over `models`: the first model whose call does not
   * raise a retryable error decides it (its parsed response, or its fatal
   * error); when every call raises a retryable error, the count and the last
   * error are reported.
   */
  function ChainReply(models: seq<string>, prompt: string, call: Oracle, decode: Decoder): Reply
  {
    var k := FirstStop(Advances(models, prompt, call), 0);
    if k < |models| then
      match call(models[k], prompt)
      case Responded(text) => ParseJsonResponse(text, models[k], decode)
      case Raised(e) => Failure("Error with " + models[k] + ": " + e)
    else
      Failure(ExhaustedMessage(|models|, if models == [] then None else Some(call(models[|models| - 1], prompt).error)))
  }

  /**
   * llm_api.py:29-46: try the candidates in order until one answers or fails
   * fatally. The prompt the loop body builds is the same on every iteration,
   * so it is passed in.
   */
  method TryCandidates(models: seq<string>, prompt: string, call: Oracle, decode: Decoder)
    returns (r: Reply, ghost tried: seq<string>)
    ensures r == ChainReply(models, prompt, call, decode)
    ensures tried == Attempted(models, Advances(models, prompt, call))
  {
    ghost var advance := Advances(models, prompt, call);
    var lastError: Option<string> := None;
    tried := [];
    for i := 0 to |models|
      invariant FirstStop(advance, i) == FirstStop(advance, 0)
      invariant tried == models[..i]
      invariant i == 0 ==> lastError == None
      invariant i > 0 ==> lastError.Some? && call(models[i - 1], prompt) == Raised(lastError.value)
    {
      var response := call(models[i], prompt);
      tried := tried + [models[i]];
      match response {
        case Responded(text) =>
          StopsHere(advance, i);
          ChainStopsAt(models, prompt, call, decode, i);
          r := ParseJsonResponse(text, models[i], decode);
          return;
        case Raised(e) =>
          lastError := Some(e);
          if Retryable(e) {
            continue;
          }
          StopsHere(advance, i);
          ChainStopsAt(models, prompt, call, decode, i);
          r := Failure("Error with " + models[i] + ": " + lastError.value);
          return;
      }
    }
    ChainExhausted(models, prompt, call, decode);
    assert tried == models;
    r := Failure(ExhaustedMessage(|models|, lastError));
  }

  /** Where the loop stops at candidate `i`, that candidate's call decides the reply. */
  lemma ChainStopsAt(models: seq<string>, prompt: string, call: Oracle, decode: Decoder, i: nat)
    requires i < |models| && FirstStop(Advances(models, prompt, call), 0) == i
    ensures Attempted(models, Advances(models, prompt, call)) == models[..i + 1]
    ensures ChainReply(models, prompt, call, decode)
            == match call(models[i], prompt)
               case Responded(text) => ParseJsonResponse(text, models[i], decode)
               case Raised(e) => Failure("Error with " + models[i] + ": " + e)
  {
  }

  /** When every call raises a retryable error, all candidates are tried and the count and last error are reported. */
  lemma ChainExhausted(models: seq<string>, prompt: string, call: Oracle, decode: Decoder)
    requires FirstStop(Advances(models, prompt, call), 0) == |models|
    ensures Attempted(models, Advances(models, prompt, call)) == models
    ensures ChainReply(models, prompt, call, decode)
            == Failure(ExhaustedMessage(|models|, if models == [] then None else Some(call(models[|models| - 1], prompt).error)))
  {
  }

  /** A model that answers ends the loop with its parsed reply, even when parsing fails. */
  lemma FirstResponseEndsChain(models: seq<string>, prompt: string, call: Oracle, decode: Decoder, j: nat)
    requires j < |models|
    requires forall i :: 0 <= i < j ==>
               call(models[i], prompt).Raised?
               && Retryable(call(models[i], prompt).error)
    requires call(models[j], prompt).Responded?
    ensures ChainReply(models, prompt, call, decode)
            == ParseJsonResponse(call(models[j], prompt).text, models[j], decode)
    ensures Attempted(models, Advances(models, prompt, call)) == models[..j + 1]
  {
    FirstStopAt(Advances(models, prompt, call), j);
  }

  /** An error without "404" or "429" ends the loop at once and names the model. */
  lemma FatalErrorEndsChain(models: seq<string>, prompt: string, call: Oracle, decode: Decoder, j: nat)
    requires j < |models|
    requires forall i :: 0 <= i < j ==>
               call(models[i], prompt).Raised?
               && Retryable(call(models[i], prompt).error)
    requires call(models[j], prompt).Raised?
    requires !Retryable(call(models[j], prompt).error)
    ensures ChainReply(models, prompt, call, decode)
            == Failure("Error with " + models[j] + ": " + call(models[j], prompt).error)
    ensures Attempted(models, Advances(models, prompt, call)) == models[..j + 1]
  {
    FirstStopAt(Advances(models, prompt, call), j);
  }

  /**
   * When every candidate raises a retryable error, all are tried and the
   * failure names how many there were and the last error.
   */
  lemma ExhaustedChain(models: seq<string>, prompt: string, call: Oracle, decode: Decoder)
    requires models != []
    requires forall i :: 0 <= i < |models| ==>
               call(models[i], prompt).Raised?
               && Retryable(call(models[i], prompt).error)
    ensures ChainReply(models, prompt, call, decode).Failure?
    ensures Contains(ChainReply(models, prompt, call, decode).message, DecimalDigits(|models|))
    ensures Contains(ChainReply(models, prompt, call, decode).message,
                     call(models[|models| - 1], prompt).error)
    ensures Attempted(models, Advances(models, prompt, call)) == models
  {
    FirstStopAt(Advances(models, prompt, call), |models|);
    ExhaustedMessageNames(|models|, call(models[|models| - 1], prompt).error);
  }

  lemma ExhaustedMessageNames(count: nat, e: string)
    ensures Contains(ExhaustedMessage(count, Some(e)), DecimalDigits(count))
    ensures Contains(ExhaustedMessage(count, Some(e)), e)
  {
    var head := "All Gemini models (";
    var rest := ") failed. Please try ChatGPT instead. Last error: ";
    ContainsMiddle(head, DecimalDigits(count), rest + e);
    assert ExhaustedMessage(count, Some(e)) == head + DecimalDigits(count) + (rest + e);
    ContainsSuffix(head + DecimalDigits(count) + rest, e);
  }

  // ---------------------------------------------------------------------
  // Providers and dispatch
  // ---------------------------------------------------------------------

  const GEMINI_KEY_REQUIRED := "Gemini API Key is required."
  const OPENAI_KEY_REQUIRED := "OpenAI API Key is required."
  const OPENAI_MODEL := "gpt-4o-mini"

  /** `generate_prompts_gemini` as a value: no key, or the fallback over the candidate list. */
  function GeminiReply(apiKey: string, userInput: string, listing: Option<seq<ListedModel>>, call: Oracle, decode: Decoder): Reply
  {
    if apiKey == "" then Failure(GEMINI_KEY_REQUIRED)
    else ChainReply(Candidates(listing), CreateSystemPrompt(userInput), call, decode)
  }

  /** The models `generate_prompts_gemini` calls, in order. */
  function GeminiAttempts(apiKey: string, userInput: string, listing: Option<seq<ListedModel>>, call: Oracle): seq<string>
  {
    if apiKey == "" then []
    else Attempted(Candidates(listing), Advances(Candidates(listing), CreateSystemPrompt(userInput), call))
  }

  /** llm_api.py:6-46: `generate_prompts_gemini`. */
  method GeneratePromptsGemini(apiKey: string, userInput: string, listing: Option<seq<ListedModel>>, call: Oracle, decode: Decoder)
    returns (r: Reply, ghost tried: seq<string>)
    ensures r == GeminiReply(apiKey, userInput, listing, call, decode)
    ensures tried == GeminiAttempts(apiKey, userInput, listing, call)
    ensures apiKey == "" ==> r == Failure(GEMINI_KEY_REQUIRED) && tried == []
    ensures tried <= Candidates(listing) && NoDuplicates(tried)
  {
    if apiKey == "" {
      return Failure(GEMINI_KEY_REQUIRED), [];
    }
    var models := AssembleCandidates(listing);
    r, tried := TryCandidates(models, CreateSystemPrompt(userInput), call, decode);
  }

  /** llm_api.py:48-65: `generate_prompts_openai`, one `gpt-4o-mini` call. */
  function GeneratePromptsOpenAi(apiKey: string, userInput: string, call: Oracle, decode: Decoder): Reply
  {
    if apiKey == "" then Failure(OPENAI_KEY_REQUIRED)
    else
      match call(OPENAI_MODEL, CreateSystemPrompt(userInput))
      case Responded(text) => ParseJsonResponse(text, OPENAI_MODEL, decode)
      case Raised(e) => Failure("OpenAI Error: " + e)
  }

  /**
   * The OpenAI reply depends on the provider only through its answer for
   * `gpt-4o-mini` and this prompt, and every failure is one of the four kinds
   * the path produces.
   */
  lemma OpenAiSingleAttempt(apiKey: string, userInput: string, call: Oracle, other: Oracle, decode: Decoder)
    requires call(OPENAI_MODEL, CreateSystemPrompt(userInput)) == other(OPENAI_MODEL, CreateSystemPrompt(userInput))
    ensures GeneratePromptsOpenAi(apiKey, userInput, call, decode) == GeneratePromptsOpenAi(apiKey, userInput, other, decode)
    ensures apiKey == "" ==> GeneratePromptsOpenAi(apiKey, userInput, call, decode) == Failure(OPENAI_KEY_REQUIRED)
    ensures var r := GeneratePromptsOpenAi(apiKey, userInput, call, decode);
            r.Failure? ==>
              r.message == OPENAI_KEY_REQUIRED
              || "OpenAI Error: " <= r.message
              || "Failed to parse JSON response from " <= r.message
              || "JSON parse error from " <= r.message
  {
  }

  /** `generate_prompts` as a value: "ChatGPT" selects OpenAI, anything else Gemini. */
  function Dispatch(llmType: string, apiKey: string, userInput: string, listing: Option<seq<ListedModel>>,
                    gemini: Oracle, openAi: Oracle, decode: Decoder): Reply
  {
    if llmType == "ChatGPT" then GeneratePromptsOpenAi(apiKey, userInput, openAi, decode)
    else GeminiReply(apiKey, userInput, listing, gemini, decode)
  }

  /** llm_api.py:93-97: `generate_prompts`. */
  method GeneratePrompts(llmType: string, apiKey: string, userInput: string, listing: Option<seq<ListedModel>>,
                         gemini: Oracle, openAi: Oracle, decode: Decoder)
    returns (r: Reply, ghost tried: seq<string>)
    ensures r == Dispatch(llmType, apiKey, userInput, listing, gemini, openAi, decode)
    ensures llmType == "ChatGPT" ==> tried == (if apiKey == "" then [] else [OPENAI_MODEL])
    ensures llmType != "ChatGPT" ==> tried == GeminiAttempts(apiKey, userInput, listing, gemini)
  {
    if llmType == "ChatGPT" {
      r := GeneratePromptsOpenAi(apiKey, userInput, openAi, decode);
      tried := if apiKey == "" then [] else [OPENAI_MODEL];
    } else {
      r, tried := GeneratePromptsGemini(apiKey, userInput, listing, gemini, decode);
    }
  }
}
