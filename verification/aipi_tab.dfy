/**
 * The pure logic of scripts/main.py, the AIPI tab: choosing the API key for
 * the selected provider, shaping a reply into the five outputs of the
 * Generate button (error box, two prompts, two translation lists),
 * `create_mapping_html`, and the dictionary side of `load_config` and
 * `save_config`.
 */
module AipiTab {
  import opened Wrappers
  import opened Text
  import opened Json
  import opened Chain
  import LlmApi

  // ---------------------------------------------------------------------
  // Settings
  // ---------------------------------------------------------------------

  const CONFIG_KEYS: set<string> := {"llm_type", "gemini_key", "openai_key"}

  /**
   * scripts/main.py:13-33, `load_config` without its file handling: the
   * stored settings decode to a dict, or the result is empty. `stored` is
   * None when the file is missing or cannot be read.
   */
  function LoadConfig(stored: Option<Decoded>): (config: map<string, Json>)
    ensures stored.Some? && stored.value.Decoded? && stored.value.value.JObj? ==> config == stored.value.value.fields
    ensures !(stored.Some? && stored.value.Decoded? && stored.value.value.JObj?) ==> config == map[]
  {
    match stored
    case Some(Decoded(JObj(fields))) => fields
    case _ => map[]
  }

  /**
   * scripts/main.py:35-40, `save_config` without its file handling: the
   * settings as they are written back, the three provider settings set and
   * every other loaded setting kept.
   */
  method SaveConfig(stored: Option<Decoded>, llmType: string, geminiKey: string, openAiKey: string)
    returns (config: map<string, Json>)
    ensures config.Keys == LoadConfig(stored).Keys + CONFIG_KEYS
    ensures config["llm_type"] == JStr(llmType)
    ensures config["gemini_key"] == JStr(geminiKey)
    ensures config["openai_key"] == JStr(openAiKey)
    ensures forall k :: k in LoadConfig(stored) && k !in CONFIG_KEYS ==> config[k] == LoadConfig(stored)[k]
  {
    config := LoadConfig(stored);
    config := config["llm_type" := JStr(llmType)];
    config := config["gemini_key" := JStr(geminiKey)];
    config := config["openai_key" := JStr(openAiKey)];
  }

  // ---------------------------------------------------------------------
  // Translation lists
  // ---------------------------------------------------------------------

  /** Why `on_generate` raises instead of returning, or a rendering the model does not cover. */
  datatype Abort =
    | TypeError       // iterating or subscripting a value that does not allow it
    | KeyError        // a mapping entry without "word" or "translation"
    | AttributeError  // `.get` on a reply that is not a dict
    | ReprNotModelled // a list or dict inside an entry, which Python renders with `repr`

  const CONTAINER_OPEN := "<div class='translation-container'>"
  const CONTAINER_CLOSE := "</div>"

  const ITEM_OPEN := "<div class='translation-item' "

  /** The attribute that lets the highlighter find an entry by its word. */
  function DataWord(word: string): string
  {
    "data-word='" + word + "'"
  }

  /** The visible text of an entry. */
  function Shown(word: string, translation: string): string
  {
    word + ": " + translation
  }

  /** The markup of one entry, with no escaping of the word or the translation. */
  function ItemDiv(word: string, translation: string): string
  {
    ITEM_OPEN + DataWord(word) + (">" + Shown(word, translation) + "</div>")
  }

  /** The item div of one decoded entry, or what goes wrong formatting it. */
  function EntryDiv(item: Json): Result<string, Abort>
  {
    match item
    case JObj(fields) =>
      if "word" !in fields || "translation" !in fields then Err(KeyError)
      else
        (match (Display(fields["word"]), Display(fields["translation"]))
         case (Some(word), Some(translation)) => Ok(ItemDiv(word, translation))
         case _ => Err(ReprNotModelled))
    case _ => Err(TypeError)
  }

  /** The item divs of `items` in order, or the failure of the first entry that cannot be formatted. */
  function ItemsHtml(items: seq<Json>): Result<string, Abort>
  {
    if items == [] then Ok("")
    else
      match ItemsHtml(items[..|items| - 1])
      case Err(e) => Err(e)
      case Ok(body) =>
        match EntryDiv(items[|items| - 1])
        case Err(e) => Err(e)
        case Ok(div) => Ok(body + div)
  }

  /** `create_mapping_html` as a value. */
  function MappingHtml(mapping: Json): Result<string, Abort>
  {
    if !Truthy(mapping) then Ok("")
    else
      match mapping
      case JArr(items) =>
        (match ItemsHtml(items)
         case Ok(body) => Ok(CONTAINER_OPEN + body + CONTAINER_CLOSE)
         case Err(e) => Err(e))
      case _ => Err(TypeError)
  }

  /** scripts/main.py:142-148: `create_mapping_html`, appending one item div per entry. */
  method CreateMappingHtml(mapping: Json) returns (html: Result<string, Abort>)
    ensures html == MappingHtml(mapping)
    ensures !Truthy(mapping) ==> html == Ok("")
  {
    if !Truthy(mapping) {
      return Ok("");
    }
    if !mapping.JArr? {
      return Err(TypeError);
    }
    var body := RenderItems(mapping.items);
    if body.Err? {
      return Err(body.error);
    }
    html := Ok(CONTAINER_OPEN + body.value + CONTAINER_CLOSE);
  }

  /** The loop of `create_mapping_html`: the item divs in entry order, stopping at the first entry that fails. */
  method RenderItems(items: seq<Json>) returns (body: Result<string, Abort>)
    ensures body == ItemsHtml(items)
  {
    var text := "";
    for i := 0 to |items|
      invariant ItemsHtml(items[..i]) == Ok(text)
    {
      var entry := EntryDiv(items[i]);
      if entry.Err? {
        ItemsHtmlFailsFrom(items, i);
        return Err(entry.error);
      }
      ItemsHtmlExtend(items, i);
      text := text + entry.value;
    }
    assert items[..|items|] == items;
    body := Ok(text);
  }

  /** One more formatted entry appends its div. */
  lemma ItemsHtmlExtend(items: seq<Json>, i: nat)
    requires i < |items|
    requires ItemsHtml(items[..i]).Ok? && EntryDiv(items[i]).Ok?
    ensures ItemsHtml(items[..i + 1]) == Ok(ItemsHtml(items[..i]).value + EntryDiv(items[i]).value)
  {
    assert items[..i + 1][..i] == items[..i];
  }

  /** Once an entry fails, the whole list fails with the same error. */
  lemma {:induction false} ItemsHtmlFailsFrom(items: seq<Json>, i: nat)
    requires i < |items|
    requires ItemsHtml(items[..i]).Ok? && EntryDiv(items[i]).Err?
    ensures ItemsHtml(items) == Err(EntryDiv(items[i]).error)
    decreases |items|
  {
    assert items[..i + 1][..i] == items[..i];
    if i + 1 < |items| {
      var init := items[..|items| - 1];
      assert init[..i] == items[..i] && init[i] == items[i];
      ItemsHtmlFailsFrom(init, i);
    } else {
      assert items[..i + 1] == items;
    }
  }

  /** A mapping entry whose word and translation are both strings. */
  predicate IsEntry(item: Json)
  {
    item.JObj? && "word" in item.fields && "translation" in item.fields
    && item.fields["word"].JStr? && item.fields["translation"].JStr?
  }

  function EntryItemDiv(item: Json): string
    requires IsEntry(item)
  {
    ItemDiv(item.fields["word"].s, item.fields["translation"].s)
  }

  function ConcatAll(parts: seq<string>): string
  {
    if parts == [] then "" else ConcatAll(parts[..|parts| - 1]) + parts[|parts| - 1]
  }

  /**
   * For a non-empty list of entries the markup is the container, then one
   * item div per entry in input order, then the closing tag.
   */
  lemma {:induction false} MappingHtmlOfEntries(items: seq<Json>)
    requires items != []
    requires forall k :: 0 <= k < |items| ==> IsEntry(items[k])
    ensures MappingHtml(JArr(items))
            == Ok(CONTAINER_OPEN + ConcatAll(seq(|items|, k requires 0 <= k < |items| => EntryItemDiv(items[k]))) + CONTAINER_CLOSE)
  {
    ItemsHtmlOfEntries(items);
  }

  lemma {:induction false} ItemsHtmlOfEntries(items: seq<Json>)
    requires forall k :: 0 <= k < |items| ==> IsEntry(items[k])
    ensures ItemsHtml(items) == Ok(ConcatAll(seq(|items|, k requires 0 <= k < |items| => EntryItemDiv(items[k]))))
  {
    var divs := seq(|items|, k requires 0 <= k < |items| => EntryItemDiv(items[k]));
    if items != [] {
      var init := items[..|items| - 1];
      ItemsHtmlOfEntries(init);
      assert divs[..|divs| - 1] == seq(|init|, k requires 0 <= k < |init| => EntryItemDiv(init[k]));
    }
  }

  /** Each item div carries the word as its `data-word` and shows "word: translation". */
  lemma ItemDivShowsEntry(word: string, translation: string)
    ensures Contains(ItemDiv(word, translation), DataWord(word))
    ensures Contains(ItemDiv(word, translation), Shown(word, translation))
  {
    var tail := ">" + Shown(word, translation) + "</div>";
    ContainsMiddle(ITEM_OPEN, DataWord(word), tail);
    ContainsMiddle(">", Shown(word, translation), "</div>");
    ContainsWithin(ITEM_OPEN + DataWord(word), tail, "", Shown(word, translation));
    assert ITEM_OPEN + DataWord(word) + tail + "" == ItemDiv(word, translation);
  }

  // ---------------------------------------------------------------------
  // The Generate button
  // ---------------------------------------------------------------------

  /** A Gradio component update: leave as is, set the value, or set visibility and value. */
  datatype Update<T> = Unchanged | SetValue(value: T) | SetShown(visible: bool, value: T)

  /** The outputs of `on_generate`, in the order the click handler wires them. */
  datatype Outputs = Outputs(
    errorDisplay: Update<string>,
    positive: Update<Json>,
    negative: Update<Json>,
    posTranslation: Update<string>,
    negTranslation: Update<string>)

  /** scripts/main.py:130: the Gemini key for "Gemini", the OpenAI key for anything else. */
  function SelectApiKey(llm: string, geminiKey: string, openAiKey: string): string
  {
    if llm == "Gemini" then geminiKey else openAiKey
  }

  function ErrorHtml(error: string): string
  {
    "<div style='color: red; padding: 10px; border: 1px solid red; border-radius: 5px;'>" + error + "</div>"
  }

  /** What `on_generate` returns for a reply (scripts/main.py:133-153). */
  function OutputsFor(reply: Reply): Result<Outputs, Abort>
  {
    match reply
    case Failure(error) =>
      if error != "" then Ok(Outputs(SetShown(true, ErrorHtml(error)), Unchanged, Unchanged, SetValue(""), SetValue("")))
      else Err(AttributeError)
    case Success(JObj(fields)) =>
      var positive := Get(fields, "positive", JStr(""));
      var negative := Get(fields, "negative", JStr(""));
      var posMapping := Get(fields, "pos_mapping", JArr([]));
      var negMapping := Get(fields, "neg_mapping", JArr([]));
      (match (MappingHtml(posMapping), MappingHtml(negMapping))
       case (Err(e), _) => Err(e)
       case (Ok(_), Err(e)) => Err(e)
       case (Ok(posHtml), Ok(negHtml)) =>
         Ok(Outputs(SetShown(false, ""), SetValue(positive), SetValue(negative), SetValue(posHtml), SetValue(negHtml))))
    case Success(_) => Err(AttributeError)
  }

  /**
   * scripts/main.py:126-153: `on_generate` without its call to `save_config`:
   * ask the selected provider with the matching key and shape the reply.
   */
  method OnGenerate(llm: string, geminiKey: string, openAiKey: string, text: string,
                    listing: Option<seq<LlmApi.ListedModel>>, gemini: Oracle, openAi: Oracle, decode: Decoder)
    returns (outputs: Result<Outputs, Abort>)
    ensures outputs == OutputsFor(LlmApi.Dispatch(llm, SelectApiKey(llm, geminiKey, openAiKey), text, listing, gemini, openAi, decode))
  {
    var apiKey := SelectApiKey(llm, geminiKey, openAiKey);
    var reply;
    ghost var tried;
    reply, tried := LlmApi.GeneratePrompts(llm, apiKey, text, listing, gemini, openAi, decode);
    if reply.Failure? && reply.message != "" {
      var errorHtml := ErrorHtml(reply.message);
      return Ok(Outputs(SetShown(true, errorHtml), Unchanged, Unchanged, SetValue(""), SetValue("")));
    }
    if !reply.Success? || !reply.data.JObj? {
      return Err(AttributeError);
    }
    var fields := reply.data.fields;
    var positive := Get(fields, "positive", JStr(""));
    var negative := Get(fields, "negative", JStr(""));
    var posMapping := Get(fields, "pos_mapping", JArr([]));
    var negMapping := Get(fields, "neg_mapping", JArr([]));
    var posHtml := CreateMappingHtml(posMapping);
    if posHtml.Err? {
      return Err(posHtml.error);
    }
    var negHtml := CreateMappingHtml(negMapping);
    if negHtml.Err? {
      return Err(negHtml.error);
    }
    outputs := Ok(Outputs(SetShown(false, ""), SetValue(positive), SetValue(negative), SetValue(posHtml.value), SetValue(negHtml.value)));
  }

  /**
   * An error reply shows the message in a visible error box, leaves both
   * prompts as they are and clears both translation lists.
   */
  lemma ErrorOutputs(error: string)
    requires error != ""
    ensures OutputsFor(Failure(error)).Ok?
    ensures var out := OutputsFor(Failure(error)).value;
            && out.errorDisplay.SetShown? && out.errorDisplay.visible
            && Contains(out.errorDisplay.value, error)
            && out.positive == Unchanged && out.negative == Unchanged
            && out.posTranslation == SetValue("") && out.negTranslation == SetValue("")
  {
    ContainsMiddle("<div style='color: red; padding: 10px; border: 1px solid red; border-radius: 5px;'>", error, "</div>");
  }

  /**
   * A missing field takes its default: an empty prompt for positive and
   * negative, an empty list, hence no markup, for the two mappings.
   */
  lemma MissingFieldsDefault(fields: map<string, Json>)
    requires "pos_mapping" in fields ==> MappingHtml(fields["pos_mapping"]).Ok?
    requires "neg_mapping" in fields ==> MappingHtml(fields["neg_mapping"]).Ok?
    ensures OutputsFor(Success(JObj(fields))).Ok?
    ensures var out := OutputsFor(Success(JObj(fields))).value;
            && out.errorDisplay == SetShown(false, "")
            && ("positive" !in fields ==> out.positive == SetValue(JStr("")))
            && ("negative" !in fields ==> out.negative == SetValue(JStr("")))
            && ("pos_mapping" !in fields ==> out.posTranslation == SetValue(""))
            && ("neg_mapping" !in fields ==> out.negTranslation == SetValue(""))
  {
  }

  /**
   * The key matches the provider for the two offered choices; any other
   * selection goes to Gemini with the OpenAI key.
   */
  lemma KeyFollowsProvider(llm: string, geminiKey: string, openAiKey: string, text: string,
                           listing: Option<seq<LlmApi.ListedModel>>, gemini: Oracle, openAi: Oracle, decode: Decoder)
    ensures llm == "Gemini" ==>
              LlmApi.Dispatch(llm, SelectApiKey(llm, geminiKey, openAiKey), text, listing, gemini, openAi, decode)
              == LlmApi.GeminiReply(geminiKey, text, listing, gemini, decode)
    ensures llm == "ChatGPT" ==>
              LlmApi.Dispatch(llm, SelectApiKey(llm, geminiKey, openAiKey), text, listing, gemini, openAi, decode)
              == LlmApi.GeneratePromptsOpenAi(openAiKey, text, openAi, decode)
    ensures llm != "Gemini" && llm != "ChatGPT" ==>
              LlmApi.Dispatch(llm, SelectApiKey(llm, geminiKey, openAiKey), text, listing, gemini, openAi, decode)
              == LlmApi.GeminiReply(openAiKey, text, listing, gemini, decode)
  {
  }
}
