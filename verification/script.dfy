/**
 * The logic of javascript/script.js: which word the caret or the selection
 * in a prompt box designates, how the translation items matching that word
 * are highlighted, and which generation tab a prompt is sent to.
 */
module Script {
  import opened Wrappers
  import opened Text

  // ---------------------------------------------------------------------
  // The word under the caret
  // ---------------------------------------------------------------------

  /** `[s, e)` is the whole run of word characters that reaches `pos`: it cannot be extended either way. */
  predicate WordAround(text: string, pos: nat, s: nat, e: nat)
  {
    && s <= pos <= e <= |text|
    && (forall k :: s <= k < e ==> IsWordChar(text[k]))
    && (s == 0 || !IsWordChar(text[s - 1]))
    && (e == |text| || !IsWordChar(text[e]))
  }

  /** A word character sits right before or right after `pos`. */
  predicate TouchesWord(text: string, pos: nat)
    requires pos <= |text|
  {
    (pos > 0 && IsWordChar(text[pos - 1])) || (pos < |text| && IsWordChar(text[pos]))
  }

  /** There is only one word around a position, and it is empty exactly when no word character touches it. */
  lemma WordAroundUnique(text: string, pos: nat, s1: nat, e1: nat, s2: nat, e2: nat)
    requires WordAround(text, pos, s1, e1) && WordAround(text, pos, s2, e2)
    ensures s1 == s2 && e1 == e2
    ensures s1 < e1 <==> TouchesWord(text, pos)
  {
  }

  /** javascript/script.js:10-13: widen from the caret over word characters on both sides. */
  method WordBounds(text: string, start: nat) returns (s: nat, e: nat)
    requires start <= |text|
    ensures WordAround(text, start, s, e)
  {
    s := start;
    while s > 0 && IsWordChar(text[s - 1])
      invariant s <= start
      invariant forall k :: s <= k < start ==> IsWordChar(text[k])
    {
      s := s - 1;
    }
    e := start;
    while e < |text| && IsWordChar(text[e])
      invariant start <= e <= |text|
      invariant forall k :: start <= k < e ==> IsWordChar(text[k])
    {
      e := e + 1;
    }
  }

  /** A JavaScript string used as a condition: only the empty string is falsy. */
  function NonEmpty(t: string): (r: Option<string>)
    ensures r.Some? <==> t != ""
    ensures r.Some? ==> r.value == t
  {
    if t == "" then None else Some(t)
  }

  /** The word around a position has no surrounding spaces for `trim` to remove. */
  lemma CaretWordTrimmed(text: string, pos: nat, s: nat, e: nat)
    requires WordAround(text, pos, s, e)
    ensures Trim(text[s..e]) == text[s..e]
  {
    var w := text[s..e];
    assert forall i :: 0 <= i < |w| ==> IsWordChar(w[i]) by {
      forall i | 0 <= i < |w|
        ensures IsWordChar(w[i])
      {
        assert w[i] == text[s + i];
      }
    }
    TrimWord(w);
  }

  /** The lower-cased caret word is non-empty exactly when a word character touches the caret. */
  lemma CaretWord(text: string, pos: nat, s: nat, e: nat)
    requires WordAround(text, pos, s, e)
    ensures ToLower(text[s..e]) != "" <==> TouchesWord(text, pos)
  {
    WordAroundUnique(text, pos, s, e, s, e);
    assert |ToLower(text[s..e])| == e - s;
  }

  /**
   * javascript/script.js:4-19: the argument the click/keyup handler passes to
   * `highlightMapping`, or None when it does not call it. A collapsed caret
   * designates the word around it, lower-cased; a selection designates its
   * text, trimmed and lower-cased.
   */
  method HighlightQuery(text: string, start: nat, end: nat) returns (query: Option<string>)
    requires start <= end <= |text|
    ensures start == end ==> (query.Some? <==> TouchesWord(text, start))
    ensures start == end && query.Some? ==>
              exists s: nat, e: nat :: WordAround(text, start, s, e) && query.value == ToLower(text[s..e])
    ensures start < end ==> query == NonEmpty(ToLower(Trim(text[start..end])))
  {
    if start == end {
      var s, e := WordBounds(text, start);
      CaretWordTrimmed(text, start, s, e);
      CaretWord(text, start, s, e);
      var word := ToLower(Trim(text[s..e]));
      query := NonEmpty(word);
    } else {
      var selectedText := ToLower(Trim(text[start..end]));
      query := NonEmpty(selectedText);
    }
  }

  // ---------------------------------------------------------------------
  // Highlighting the translation items
  // ---------------------------------------------------------------------

  /** A `.translation-item` element: its `data-word` attribute and the two style properties the handler sets. */
  class TranslationItem {
    const dataWord: string
    var backgroundColor: string
    var fontWeight: string

    constructor (dataWord: string)
      ensures this.dataWord == dataWord
    {
      this.dataWord := dataWord;
      backgroundColor := "";
      fontWeight := "";
    }
  }

  const HIGHLIGHT_COLOR := "#ffff0033"

  /** javascript/script.js:39-40: the item's word and the query are equal, or one contains the other. */
  predicate Matches(targetWord: string, word: string)
  {
    targetWord == word || Contains(word, targetWord) || Contains(targetWord, word)
  }

  /** The item is styled as a match. */
  predicate Highlighted(item: TranslationItem)
    reads item
  {
    item.backgroundColor == HIGHLIGHT_COLOR && item.fontWeight == "bold"
  }

  /** The item is styled as a non-match. */
  predicate Plain(item: TranslationItem)
    reads item
  {
    item.backgroundColor == "transparent" && item.fontWeight == "normal"
  }

  /**
   * javascript/script.js:35-52: every item is styled as a match or a
   * non-match of `word`, and the first matching item, if any, is the one
   * scrolled into view (its index is returned).
   */
  method HighlightMapping(items: seq<TranslationItem>, word: string) returns (scrolled: Option<nat>)
    modifies set item | item in items
    ensures forall i :: 0 <= i < |items| ==>
              if Matches(ToLower(items[i].dataWord), word) then Highlighted(items[i]) else Plain(items[i])
    ensures scrolled.Some? ==> scrolled.value < |items| && Matches(ToLower(items[scrolled.value].dataWord), word)
    ensures scrolled.Some? ==> forall i :: 0 <= i < scrolled.value ==> !Matches(ToLower(items[i].dataWord), word)
    ensures scrolled.None? ==> forall i :: 0 <= i < |items| ==> !Matches(ToLower(items[i].dataWord), word)
  {
    var found := false;
    scrolled := None;
    for n := 0 to |items|
      invariant forall i :: 0 <= i < n ==>
                  if Matches(ToLower(items[i].dataWord), word) then Highlighted(items[i]) else Plain(items[i])
      invariant found <==> scrolled.Some?
      invariant scrolled.Some? ==> scrolled.value < n && Matches(ToLower(items[scrolled.value].dataWord), word)
      invariant scrolled.Some? ==> forall i :: 0 <= i < scrolled.value ==> !Matches(ToLower(items[i].dataWord), word)
      invariant scrolled.None? ==> forall i :: 0 <= i < n ==> !Matches(ToLower(items[i].dataWord), word)
    {
      var item := items[n];
      var targetWord := ToLower(item.dataWord);
      if targetWord == word || Contains(word, targetWord) || Contains(targetWord, word) {
        item.backgroundColor := HIGHLIGHT_COLOR;
        item.fontWeight := "bold";
        if !found {
          scrolled := Some(n);
          found := true;
        }
      } else {
        item.backgroundColor := "transparent";
        item.fontWeight := "normal";
      }
    }
  }

  /** Matching is symmetric and holds exactly when one word contains the other. */
  lemma MatchesIffContains(targetWord: string, word: string)
    ensures Matches(targetWord, word) <==> Contains(word, targetWord) || Contains(targetWord, word)
    ensures Matches(targetWord, word) <==> Matches(word, targetWord)
  {
    if targetWord == word {
      assert word <= word;
    }
  }

  // ---------------------------------------------------------------------
  // The target tab
  // ---------------------------------------------------------------------

  /**
   * javascript/script.js:127-137: `getPreferredTab`, given the text of the
   * selected tab button (None when there is none).
   */
  function PreferredTab(selectedTabText: Option<string>): (tab: string)
    ensures tab == "img2img" || tab == "txt2img"
    ensures tab == "img2img" <==> selectedTabText.Some? && Contains(ToLower(selectedTabText.value), "img2img")
  {
    var selectedTab := match selectedTabText case None => "" case Some(t) => ToLower(t);
    if Contains(selectedTab, "img2img") then "img2img" else "txt2img"
  }
}
