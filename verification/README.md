# AIPI prompt generator: a Dafny model of its core

AIPI is a Stable Diffusion WebUI extension. It turns a Japanese request into a
positive prompt, a negative prompt and two word-by-word translation lists. An
LLM does the translation, either Gemini or OpenAI's `gpt-4o-mini`. This
project models the parts of the extension that decide things:

- `llm_api.py`:
  - building the instruction text;
  - the lenient JSON extraction from a model reply;
  - assembling the Gemini candidate list: a preferred list plus discovered
    models, with `models/` stripped and duplicates removed in first-seen order;
  - the ordered fallback loop, where an error mentioning "404" or "429" moves on
    to the next model and any other error ends the loop;
  - the single OpenAI call and the provider dispatch.
- `gemini_api.py`: the older Gemini-only variant, with a fixed list of four
  models and a loop in which only "404" moves on.
- `javascript/script.js`:
  - the word under the caret, or the trimmed selection, that is passed to the
    highlighter;
  - the highlight loop over the translation items;
  - choosing between the `txt2img` and `img2img` tabs.
- `scripts/main.py`:
  - which API key goes with the selected provider;
  - how a reply becomes the five outputs of the Generate button;
  - `create_mapping_html`;
  - the dictionary handling of `load_config` and `save_config`.

## Modelling conventions

- **Outside calls are parameters.**
  - A provider's network call is an `Oracle`, a function from model name and
    prompt to `Responded(text)` or `Raised(error)`.
  - `json.loads` is a `Decoder`, a function from text to `Decoded(value)` or
    `DecodeFailed(message)`.
  - `genai.list_models()` is an `Option<seq<ListedModel>>`. `None` stands for a
    listing that raised.
- **Replies.** The Python `(data, error)` pair is the datatype `Reply`:
  `Success(data)` or `Failure(message)`.
- **Fallback loops.** `Chain.FirstStop` is a declarative description of the
  fallback: the first candidate whose attempt does not move on. Each loop is a
  method proved equal to a specification function built on it. A ghost result
  `tried` records the models that were called, in order. The source rebuilds
  the same prompt on every pass; the loops receive it once from their caller.
- **Regex search.** The greedy `re.search(r'\{.*\}', text, re.DOTALL)` is
  `Json.SearchObjectSpan`. It covers the span from the first `{` to the last
  `}` that follows it.
- **Browser items.** The translation items in the browser are objects of class
  `Script.TranslationItem`. `Script.HighlightMapping` updates their two style
  fields in place.

## Model

| member | source | states |
|---|---|---|
| Text.ContainsIffOccurs | llm_api.py:41 | the substring test behind Python's `in` and JavaScript's `includes` holds iff the pattern occurs at some position |
| Text.RemoveAll | llm_api.py:23 | `str.replace(pat, '')` never lengthens the name, and leaves a name in which the pattern does not occur unchanged |
| Text.RemoveAllFirstOccurrence | llm_api.py:23 | the scan runs left to right: it keeps the text before the first occurrence, deletes that occurrence and carries on after it |
| Text.DecimalDigits | llm_api.py:46 | the candidate count renders as a non-empty string of decimal digits, without a leading zero, whose decimal value is the count |
| Text.TrimStart | javascript/script.js:17 | strips exactly the leading JavaScript white space and line terminators; the result is a suffix |
| Text.TrimEnd | javascript/script.js:17 | strips exactly the trailing JavaScript white space and line terminators; the result is a prefix |
| Text.Trim | javascript/script.js:17 | the trimmed text is the input with exactly its leading and trailing white space removed: a contiguous slice with only white space before and after it, neither starting nor ending with white space |
| Text.TrimWord | javascript/script.js:14 | trimming the caret word changes nothing, since `\w` characters are never white space |
| Json.Get | scripts/main.py:137-140 | `dict.get` gives the stored value when the key is present and the default otherwise |
| Json.Display | scripts/main.py:146 | f-string rendering of a string is the string itself; only lists and objects are left unrendered |
| Json.SearchObjectSpan | llm_api.py:84 | the greedy, DOTALL `\{.*\}` search finds a match iff some `{` precedes some `}`; the match starts at the first `{`, ends after the last `}`, and no `{` comes before it and no `}` after it |
| Json.ObjectSpan | llm_api.py:84-86 | `group(0)` is absent iff there is no brace pair, and otherwise starts with `{` and ends with `}` |
| Json.ObjectSpanFirstToLast | llm_api.py:84-86 | `group(0)` is the reply text from its first `{` to its last `}` |
| Json.SpanCoversEveryPair | llm_api.py:84 | every `{`…`}` pair in the reply lies inside the matched span |
| Chain.FirstStop | llm_api.py:30-44 | the loop stops at the first candidate whose attempt does not move on, and every earlier one moved on |
| Chain.FirstStopAt | llm_api.py:30-44 | the stopping point is determined: any index before which all attempts move on and at which one does not is the stopping point |
| Chain.Attempted | llm_api.py:30-44 | the models called are a prefix of the candidates, ending at the stopping model, or all candidates when none stops |
| LlmApi.SystemPromptContents | llm_api.py:67-80 | the instruction text contains the user's request verbatim, labels all four result keys and demands the JSON object only |
| LlmApi.ParseJsonResponse | llm_api.py:82-91 | success iff a brace span exists and decodes, with the decoded value as data; otherwise "Failed to parse JSON response from {model}." or "JSON parse error from {model}: {message}" |
| LlmApi.GenerateContentNames | llm_api.py:21 | a name is kept iff some listed model with that name supports `generateContent` |
| LlmApi.GenerateContentNamesAppend | llm_api.py:21 | the names keep listing order: one more listed model appends its name iff it supports `generateContent` |
| LlmApi.CleanNames | llm_api.py:22-23 | each discovered name with every `models/` removed, position by position |
| LlmApi.FirstOccurrencesMembers | llm_api.py:22-25 | deduplication keeps exactly the names that occur |
| LlmApi.FirstOccurrencesDistinct | llm_api.py:24 | the deduplicated list has no duplicates |
| LlmApi.FirstOccurrencesOfDistinct | llm_api.py:13-17 | a list without duplicates is its own deduplication |
| LlmApi.FirstOccurrencesAppend | llm_api.py:24-25 | appending a name extends the list iff the name is not already in it |
| LlmApi.FirstOccurrencesKeepsPrefix | llm_api.py:13-25 | a duplicate-free preferred list stays the prefix of the merged list |
| LlmApi.PreferredDistinct | llm_api.py:13-17 | the three preferred models are distinct |
| LlmApi.MergeStart | llm_api.py:13-22 | before any discovered name is merged, the list is the preferred list |
| LlmApi.MergeStep | llm_api.py:22-25 | merging one more cleaned name appends it iff it is not yet in the list |
| LlmApi.AssembleCandidates | llm_api.py:13-27 | the list is the first-seen deduplication of the preferred list plus the cleaned discovered names; the preferred models come first, nothing repeats, a failed listing gives exactly the preferred list, and a name is a candidate iff it is preferred or discovered |
| LlmApi.CandidatesShape | llm_api.py:13-27 | the same properties, stated of the candidate list itself |
| LlmApi.ModelsPrefixStripped | llm_api.py:23 | a model listed as `models/x` is tried as `x` |
| LlmApi.Advances | llm_api.py:39-42 | a candidate's attempt moves on iff the call raises an error containing "404" or "429" |
| LlmApi.TryCandidates | llm_api.py:29-46 | the loop's reply equals the fallback specification, and the models called are those up to and including the stopping one |
| LlmApi.ChainStopsAt | llm_api.py:30-44 | when the loop stops at a candidate, the models called end with it, and its answer is parsed or its error gives "Error with {model}: {error}" |
| LlmApi.ChainExhausted | llm_api.py:41-46 | when no candidate stops the loop, all are called and the failure is the exhaustion message with the count and the last error, or "None" without candidates |
| LlmApi.FirstResponseEndsChain | llm_api.py:30-37 | the first model that answers ends the loop with its parsed reply, even when parsing fails; no later model is called |
| LlmApi.FatalErrorEndsChain | llm_api.py:39-44 | an error containing neither "404" nor "429" gives "Error with {model}: {error}", and no later model is called |
| LlmApi.ExhaustedChain | llm_api.py:41-46 | when every candidate fails retryably, each is called once, in order, and the failure names the candidate count and the last error |
| LlmApi.ExhaustedMessageNames | llm_api.py:46 | the exhaustion message contains the count and the error text |
| LlmApi.GeneratePromptsGemini | llm_api.py:6-46 | an empty key fails with "Gemini API Key is required." before any call; otherwise the reply is the fallback over the assembled candidates, which are called in order, each at most once |
| LlmApi.OpenAiSingleAttempt | llm_api.py:48-65 | the reply depends only on the one `gpt-4o-mini` call; an empty key gives "OpenAI API Key is required."; every failure is a key, parse or "OpenAI Error: " message |
| LlmApi.GeneratePrompts | llm_api.py:93-97 | "ChatGPT" goes to OpenAI with at most one call, and any other name goes to the Gemini fallback |
| GeminiApi.PromptContents | gemini_api.py:24-34 | the prompt contains the request verbatim, labels the `mapping` key, and its fixed text around the request labels no `pos_mapping` or `neg_mapping` key; it demands the JSON object only |
| GeminiApi.NoSplitMappingKeys | gemini_api.py:24-34 | the fixed text before and after the request contains no `pos_mapping` or `neg_mapping` label |
| GeminiApi.Attempt | gemini_api.py:21-44 | one pass of the `try` block ends with the decoded data or the "Failed to parse JSON from Gemini response ({model})." failure, or yields the text of the exception the `except` clause catches |
| GeminiApi.Advances | gemini_api.py:46-49 | a model's attempt moves on iff it raises, or its decode fails, with a message containing "404" |
| GeminiApi.GeneratePrompts | gemini_api.py:5-53 | an empty key fails with "API Key is required." before any call; otherwise the reply is the fallback over the four fixed models, called in that order, each at most once |
| GeminiApi.TryModels | gemini_api.py:19-53 | the loop's reply equals the fallback specification, and the models called are those up to and including the stopping one |
| GeminiApi.ChainStopsAt | gemini_api.py:40-51 | when the loop stops at a model, the models called end with it, and its attempt's reply or "Error with {model}: {error}" is the result |
| GeminiApi.ChainExhausted | gemini_api.py:46-53 | when no model stops the loop, all are called and the failure is "All models failed. Last error: " followed by the last error, or "None" without models |
| GeminiApi.OtherErrorEndsChain | gemini_api.py:46-51 | an error without "404", even one mentioning "429", gives "Error with {model}: {error}" and ends the loop |
| GeminiApi.MissingSpanEndsChain | gemini_api.py:39-44 | a reply with no brace span ends the loop with "Failed to parse JSON from Gemini response ({model})." |
| GeminiApi.DecodeErrorWith404Advances | gemini_api.py:39-49 | a decode error whose message contains "404" is caught like a network error and moves on to the next model |
| GeminiApi.ExhaustedChain | gemini_api.py:46-53 | when every model fails with "404", all four are called and the failure is "All models failed. Last error: " followed by the last error |
| Script.WordAroundUnique | javascript/script.js:10-13 | the word around the caret is unique, and it is non-empty iff a word character touches the caret |
| Script.WordBounds | javascript/script.js:9-13 | the scan stops at `s <= start <= e`; every character in between is a word character, and none lies just outside |
| Script.CaretWord | javascript/script.js:14-15 | the lower-cased caret word is non-empty iff a word character touches the caret |
| Script.NonEmpty | javascript/script.js:15 | the highlighter is called iff the text is non-empty, and with that text |
| Script.HighlightQuery | javascript/script.js:9-19 | at the caret, the lower-cased caret word is passed iff a word character touches the caret; with a selection, the trimmed, lower-cased selection is passed iff it is non-empty |
| Script.TranslationItem.constructor | javascript/script.js:36-39 | an item keeps the `data-word` it was rendered with |
| Script.HighlightMapping | javascript/script.js:35-52 | every matching item is highlighted in `#ffff0033` bold, every other item is transparent and normal, and only the first matching item in document order is scrolled into view |
| Script.MatchesIffContains | javascript/script.js:39-40 | an item matches iff either word contains the other, which is symmetric |
| Script.PreferredTab | javascript/script.js:127-137 | `img2img` iff the selected tab's lower-cased text contains "img2img", and `txt2img` otherwise, including when no tab is selected |
| AipiTab.LoadConfig | scripts/main.py:13-33 | stored settings that decode to a dict are used as they are; anything else gives `{}` |
| AipiTab.SaveConfig | scripts/main.py:35-40 | sets exactly `llm_type`, `gemini_key` and `openai_key`, and keeps every other loaded setting |
| AipiTab.CreateMappingHtml | scripts/main.py:142-148 | a falsy mapping gives ""; a truthy non-list, or a non-dict entry, raises `TypeError`; an entry without `word` or `translation` raises `KeyError`; otherwise the markup is the container around the entries' divs |
| AipiTab.RenderItems | scripts/main.py:145-146 | the loop's accumulated divs equal the entries' divs in order, or the first entry's failure |
| AipiTab.ItemsHtmlExtend | scripts/main.py:145-146 | one more well-formed entry appends its div |
| AipiTab.ItemsHtmlFailsFrom | scripts/main.py:145-146 | the first entry that cannot be formatted decides the error |
| AipiTab.ItemsHtmlOfEntries | scripts/main.py:145-146 | for string entries, the body is the concatenation of their divs in input order |
| AipiTab.MappingHtmlOfEntries | scripts/main.py:143-148 | a non-empty list of string entries gives the container open tag, one item div per entry in input order, then `</div>` |
| AipiTab.ItemDivShowsEntry | scripts/main.py:146 | each item div carries `data-word='{word}'` and the text "{word}: {translation}", without escaping |
| AipiTab.OnGenerate | scripts/main.py:126-153 | the outputs are those of the reply from the provider selected, called with the matching key |
| AipiTab.ErrorOutputs | scripts/main.py:133-135 | an error shows the message in a visible red box, leaves both prompts unchanged and clears both translation lists |
| AipiTab.MissingFieldsDefault | scripts/main.py:137-140 | a missing `positive` or `negative` gives "", a missing mapping gives no markup, and the error box is hidden |
| AipiTab.KeyFollowsProvider | scripts/main.py:130-131 | "Gemini" uses the Gemini key with the Gemini fallback; "ChatGPT" uses the OpenAI key with OpenAI; any other name uses the OpenAI key with the Gemini fallback |

## Left out

- Network clients and `genai.configure`, in both `llm_api.py` and
  `gemini_api.py`, are not modelled.
  - `genai.configure` (llm_api.py:10, gemini_api.py:9) and
    `openai.OpenAI(...)` (llm_api.py:52) can raise outside any `try`. The model
    assumes they return.
  - `GenerativeModel(...)` construction is folded into the `Oracle` call.
  - The OpenAI message content is assumed to be a string, never `None`.
- `json.loads` is a `Decoder` parameter; JSON syntax is not modelled.
- Decoded numbers are integers only, with no floats.
- AipiTab.CreateMappingHtml and Json.Display: the f-string rendering of a list
  or dict inside a mapping entry uses Python's `repr`. It is reported as
  `ReprNotModelled` instead of being rendered.
- Script.HighlightQuery: lower-casing is ASCII only. The caret word holds only
  ASCII `\w` characters, so that path is exact; a selected text with non-ASCII
  letters is lowered only in its ASCII part. Positions are counted in
  characters, not UTF-16 code units.
- Script.HighlightMapping: the item's `data-word` is lower-cased in its ASCII
  letters only. JavaScript's `toLowerCase` also lowers other letters, so
  `CAFÉ` becomes `café` in the browser but `cafÉ` in the model, and such an
  item can match differently.
- AipiTab.LoadConfig and AipiTab.SaveConfig: file existence, reading, writing,
  directory creation and the swallowed exceptions become the `stored` parameter
  and the returned dictionary. Dictionary key order in the written file is not
  modelled.
- `print` diagnostics are not modelled.
- The Gradio layout, event wiring, `update_api_visibility`, `refresh_settings`
  and the initial field values (scripts/main.py:52-125, 155-163) are UI
  plumbing, not decisions. The `save_config` call at the start of
  `on_generate` is one of these.
- DOM event listeners are not modelled.
- The accordion relocation (javascript/script.js:54-121) and the copying into
  other tabs (`transferToSD`, "send both", javascript/script.js:139-177) are
  browser side effects.
- No modelled file implements quality-tag allow-listing, mandatory bottom-tag
  appending or a quality clause in the prompt. The code has two providers,
  Gemini and OpenAI.
