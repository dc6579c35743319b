/**
 * Decoded JSON values, the decoder interface that stands for Python's
 * `json.loads`, and the search `re.search(r'\{.*\}', text, re.DOTALL)` that
 * both LLM modules use to cut a JSON object out of a model's free-form reply.
 */
module Json {
  import opened Wrappers
  import opened Text

  /** A value as `json.loads` returns it (numbers restricted to integers). */
  datatype Json =
    | JNull
    | JBool(b: bool)
    | JNum(n: int)
    | JStr(s: string)
    | JArr(items: seq<Json>)
    | JObj(fields: map<string, Json>)

  /** What `json.loads` does with a text: a value, or the message of the exception it raises. */
  datatype Decoded = Decoded(value: Json) | DecodeFailed(message: string)

  /** `json.loads` itself is not modelled: every caller receives it as this function. */
  type Decoder = string -> Decoded

  /** Python truthiness of a decoded value (`if not mapping`). */
  predicate Truthy(v: Json)
  {
    match v
    case JNull => false
    case JBool(b) => b
    case JNum(n) => n != 0
    case JStr(s) => s != ""
    case JArr(items) => items != []
    case JObj(fields) => fields != map[]
  }

  /** Python's `dict.get(key, default)` on a decoded object. */
  function Get(fields: map<string, Json>, key: string, default: Json): (v: Json)
    ensures key in fields ==> v == fields[key]
    ensures key !in fields ==> v == default
  {
    if key in fields then fields[key] else default
  }

  /**
   * Python's `str(v)` as an f-string renders it, for scalar values; lists and
   * dicts (rendered through `repr`) are outside the model and give None.
   */
  function Display(v: Json): (r: Option<string>)
    ensures v.JStr? ==> r == Some(v.s)
    ensures r.None? <==> v.JArr? || v.JObj?
  {
    match v
    case JNull => Some("None")
    case JBool(b) => Some(if b then "True" else "False")
    case JNum(n) => Some(IntToString(n))
    case JStr(s) => Some(s)
    case JArr(_) => None
    case JObj(_) => None
  }

  /** The span `[start, end)` of a regular-expression match, as `Match.span()` gives it. */
  datatype Match = Match(start: nat, end: nat)

  /** Some `{` comes before some `}`. */
  predicate HasBracePair(text: string)
  {
    exists i, j :: 0 <= i < j < |text| && text[i] == '{' && text[j] == '}'
  }

  /** Index of the first `c` in `s[from..]`. */
  function FirstIndexOf(s: string, c: char, from: nat): (r: Option<nat>)
    requires from <= |s|
    ensures r.Some? ==> from <= r.value < |s| && s[r.value] == c
    ensures r.Some? ==> forall k :: from <= k < r.value ==> s[k] != c
    ensures r.None? ==> forall k :: from <= k < |s| ==> s[k] != c
    decreases |s| - from
  {
    if from == |s| then None
    else if s[from] == c then Some(from)
    else FirstIndexOf(s, c, from + 1)
  }

  /** Index of the last `c` in `s[..upto]`. */
  function LastIndexOf(s: string, c: char, upto: nat): (r: Option<nat>)
    requires upto <= |s|
    ensures r.Some? ==> r.value < upto && s[r.value] == c
    ensures r.Some? ==> forall k :: r.value < k < upto ==> s[k] != c
    ensures r.None? ==> forall k :: 0 <= k < upto ==> s[k] != c
  {
    if upto == 0 then None
    else if s[upto - 1] == c then Some(upto - 1)
    else LastIndexOf(s, c, upto - 1)
  }

  /**
   * The match of `\{.*\}` with DOTALL: the regular expression is tried at
   * each start from the left, and the greedy `.*` backs off to the last `}`,
   * so the match runs from the first `{` to the last `}`. There is a match
   * exactly when some `{` precedes some `}`, and every such pair lies inside it.
   */
  function SearchObjectSpan(text: string): (m: Option<Match>)
    ensures m.None? <==> !HasBracePair(text)
    ensures m.Some? ==> m.value.start < m.value.end <= |text|
    ensures m.Some? ==> text[m.value.start] == '{' && text[m.value.end - 1] == '}'
    ensures m.Some? ==> forall k :: 0 <= k < m.value.start ==> text[k] != '{'
    ensures m.Some? ==> forall k :: m.value.end <= k < |text| ==> text[k] != '}'
  {
    match (FirstIndexOf(text, '{', 0), LastIndexOf(text, '}', |text|))
    case (Some(i), Some(j)) => if i < j then Some(Match(i, j + 1)) else None
    case _ => None
  }

  /** The text of the match, `match.group(0)`. */
  function ObjectSpan(text: string): (span: Option<string>)
    ensures span.None? <==> !HasBracePair(text)
    ensures span.Some? ==> |span.value| >= 2 && span.value[0] == '{' && span.value[|span.value| - 1] == '}'
  {
    match SearchObjectSpan(text)
    case None => None
    case Some(m) => Some(text[m.start..m.end])
  }

  /** The span runs from the first `{` of the text to its last `}`. */
  lemma ObjectSpanFirstToLast(text: string)
    ensures ObjectSpan(text).Some? ==>
              exists i, j :: 0 <= i < j < |text| && ObjectSpan(text).value == text[i..j + 1]
                             && text[i] == '{' && text[j] == '}'
                             && (forall k :: 0 <= k < i ==> text[k] != '{')
                             && (forall k :: j < k < |text| ==> text[k] != '}')
  {
    match SearchObjectSpan(text)
    case None =>
    case Some(m) =>
      assert ObjectSpan(text).value == text[m.start..(m.end - 1) + 1];
  }

  /** The span is leftmost-longest: every `{` before a `}` lies within it. */
  lemma SpanCoversEveryPair(text: string, i: nat, j: nat)
    requires i < j < |text| && text[i] == '{' && text[j] == '}'
    ensures SearchObjectSpan(text).Some?
    ensures SearchObjectSpan(text).value.start <= i && j < SearchObjectSpan(text).value.end
  {
  }
}
