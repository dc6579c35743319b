/**
 * Text helpers shared by the model: substring search (Python's `in` on
 * strings and JavaScript's `includes`), Python's `str.replace` with an empty
 * replacement, decimal rendering of integers, and the character classes and
 * case mapping that the JavaScript side relies on.
 */
module Text {

  /** `sub` occurs somewhere in `s`. */
  predicate Contains(s: string, sub: string)
    decreases |s|
  {
    sub <= s || (|s| > 0 && Contains(s[1..], sub))
  }

  /** Contains agrees with "some suffix of `s` starts with `sub`". */
  lemma {:induction false} ContainsIffOccurs(s: string, sub: string)
    ensures Contains(s, sub) <==> exists i :: 0 <= i <= |s| && sub <= s[i..]
  {
    if sub <= s {
      assert s[0..] == s;
    } else if |s| == 0 {
    } else {
      ContainsIffOccurs(s[1..], sub);
      assert s[0..] == s;
      forall i | 1 <= i <= |s|
        ensures s[i..] == s[1..][i - 1..]
      {
      }
    }
  }

  /** A string always contains any piece it was glued together from. */
  lemma {:induction false} ContainsMiddle(a: string, b: string, c: string)
    ensures Contains(a + b + c, b)
  {
    if a == [] {
      assert a + b + c == b + c;
    } else {
      ContainsMiddle(a[1..], b, c);
      assert (a + b + c)[1..] == a[1..] + b + c;
    }
  }

  /** `Contains` seen through a right-hand suffix or left-hand prefix. */
  lemma ContainsSuffix(a: string, b: string)
    ensures Contains(a + b, b)
  {
    ContainsMiddle(a, b, []);
    assert a + b + [] == a + b;
  }

  lemma ContainsPrefix(b: string, c: string)
    ensures Contains(b + c, b)
  {
    ContainsMiddle([], b, c);
    assert [] + b + c == b + c;
  }

  /** If the piece `b` contains `sub`, so does every string built around it. */
  lemma {:induction false} ContainsWithin(a: string, b: string, c: string, sub: string)
    requires Contains(b, sub)
    ensures Contains(a + b + c, sub)
  {
    if a == [] {
      ContainsWithinRight(b, c, sub);
      assert a + b + c == b + c;
    } else {
      ContainsWithin(a[1..], b, c, sub);
      assert (a + b + c)[1..] == a[1..] + b + c;
    }
  }

  lemma {:induction false} ContainsWithinRight(b: string, c: string, sub: string)
    requires Contains(b, sub)
    ensures Contains(b + c, sub)
  {
    if sub <= b {
      assert sub <= b + c;
    } else {
      ContainsWithinRight(b[1..], c, sub);
      assert (b + c)[1..] == b[1..] + c;
    }
  }

  /** No character of `s` is `c`. */
  predicate Avoids(s: string, c: char)
  {
    forall i :: 0 <= i < |s| ==> s[i] != c
  }

  lemma AvoidsJoin(a: string, b: string, c: char)
    requires Avoids(a, c) && Avoids(b, c)
    ensures Avoids(a + b, c)
  {
  }

  /** A string lacking some character of `sub` does not contain `sub`. */
  lemma {:induction false} MissingCharNotContained(s: string, sub: string, c: char)
    requires c in sub && Avoids(s, c)
    ensures !Contains(s, sub)
  {
    if s != [] {
      assert Avoids(s[1..], c);
      MissingCharNotContained(s[1..], sub, c);
    }
  }

  lemma ContainsWithinLeft(a: string, b: string, sub: string)
    requires Contains(b, sub)
    ensures Contains(a + b, sub)
  {
    ContainsWithin(a, b, [], sub);
    assert a + b + [] == a + b;
  }

  /** A string made of four pieces contains whatever one of the pieces contains. */
  lemma ContainsInFour(a: string, b: string, c: string, d: string, sub: string)
    requires Contains(a, sub) || Contains(b, sub) || Contains(c, sub) || Contains(d, sub)
    ensures Contains(a + b + c + d, sub)
  {
    if Contains(a, sub) {
      ContainsWithin([], a, b + c + d, sub);
      assert [] + a + (b + c + d) == a + b + c + d;
    } else if Contains(b, sub) {
      ContainsWithin(a, b, c + d, sub);
      assert a + b + (c + d) == a + b + c + d;
    } else if Contains(c, sub) {
      ContainsWithin(a + b, c, d, sub);
    } else {
      ContainsWithin(a + b + c, d, [], sub);
      assert a + b + c + d + [] == a + b + c + d;
    }
  }
  /**
   * Python's `s.replace(pat, "")`: every non-overlapping occurrence of `pat`,
   * scanning from the left, is deleted.
   */
  function RemoveAll(s: string, pat: string): (r: string)
    requires pat != []
    ensures |r| <= |s|
    ensures !Contains(s, pat) ==> r == s
    decreases |s|
  {
    if s == [] then []
    else if pat <= s then RemoveAll(s[|pat|..], pat)
    else
      assert [s[0]] + s[1..] == s;
      [s[0]] + RemoveAll(s[1..], pat)
  }

  /**
   * The scan keeps everything before the first occurrence of `pat`, deletes
   * that occurrence and carries on after it. The occurrence is the first one
   * when no earlier one fits in front of its last character.
   */
  lemma {:induction false} RemoveAllFirstOccurrence(before: string, pat: string, after: string)
    requires pat != []
    requires !Contains(before + pat[..|pat| - 1], pat)
    ensures RemoveAll(before + pat + after, pat) == before + RemoveAll(after, pat)
  {
    var s := before + pat + after;
    if before == [] {
      assert s == pat + after;
      assert s[|pat|..] == after;
    } else {
      NotFirstOccurrenceYet(before, pat, after);
      RemoveAllFirstOccurrence(before[1..], pat, after);
      TailOfJoin(before, pat, after);
      assert RemoveAll(s, pat) == [before[0]] + (before[1..] + RemoveAll(after, pat));
      ConsAppend(before[0], before[1..], RemoveAll(after, pat));
      assert [before[0]] + before[1..] == before;
    }
  }

  /** Before the first occurrence the scan neither matches nor loses the occurrence. */
  lemma NotFirstOccurrenceYet(before: string, pat: string, after: string)
    requires pat != [] && before != []
    requires !Contains(before + pat[..|pat| - 1], pat)
    ensures !(pat <= before + pat + after)
    ensures !Contains(before[1..] + pat[..|pat| - 1], pat)
  {
    var x := before + pat[..|pat| - 1];
    assert x[..|pat|] == (before + pat + after)[..|pat|];
    assert x[1..] == before[1..] + pat[..|pat| - 1];
  }

  lemma TailOfJoin(a: string, b: string, c: string)
    requires a != []
    ensures (a + b + c)[0] == a[0] && (a + b + c)[1..] == a[1..] + b + c
  {
  }

  lemma ConsAppend(c: char, a: string, b: string)
    ensures [c] + (a + b) == ([c] + a) + b
  {
  }

  /** The digit character for 0..9. */
  function DigitChar(d: nat): (c: char)
    requires d < 10
    ensures '0' <= c <= '9'
    ensures c as int - '0' as int == d
  {
    "0123456789"[d]
  }

  /** The value of a digit character. */
  function DigitValue(c: char): nat
  {
    if '0' <= c <= '9' then c as int - '0' as int else 0
  }

  /** The number a string of decimal digits denotes, read most significant digit first. */
  function DigitsValue(r: string): nat
  {
    if r == [] then 0 else DigitsValue(r[..|r| - 1]) * 10 + DigitValue(r[|r| - 1])
  }

  /** Python's `str(n)` for a natural number: its decimal digits, no leading zeros. */
  function DecimalDigits(n: nat): (r: string)
    ensures 1 <= |r|
    ensures forall i :: 0 <= i < |r| ==> '0' <= r[i] <= '9'
    ensures n >= 10 ==> r[0] != '0'
    ensures DigitsValue(r) == n
  {
    if n < 10 then [DigitChar(n)]
    else
      var high := DecimalDigits(n / 10);
      var r := high + [DigitChar(n % 10)];
      assert r[..|r| - 1] == high;
      r
  }

  /** Python's `str(n)` for any integer. */
  function IntToString(n: int): (r: string)
    ensures 1 <= |r|
    ensures n < 0 <==> r[0] == '-'
  {
    if n < 0 then "-" + DecimalDigits(-n) else DecimalDigits(n)
  }

  /** The JavaScript regular-expression class `\w`: ASCII letters, digits and underscore. */
  predicate IsWordChar(c: char)
  {
    ('a' <= c <= 'z') || ('A' <= c <= 'Z') || ('0' <= c <= '9') || c == '_'
  }

  /**
   * The characters JavaScript's `String.prototype.trim` removes: WhiteSpace
   * (tab, vertical tab, form feed, no-break space, byte order mark and the
   * Unicode space separators) and LineTerminator.
   */
  predicate IsJsSpace(c: char)
  {
    c == '\t' || c == '\U{000B}' || c == '\U{000C}' || c == ' ' || c == '\U{00A0}' || c == '\U{FEFF}'
    || c == '\n' || c == '\r' || c == '\U{2028}' || c == '\U{2029}'
    || c == '\U{1680}' || ('\U{2000}' <= c <= '\U{200A}') || c == '\U{202F}' || c == '\U{205F}' || c == '\U{3000}'
  }

  function TrimStart(s: string): (r: string)
    ensures |r| <= |s| && r == s[|s| - |r|..]
    ensures r == [] || !IsJsSpace(r[0])
    ensures forall i :: 0 <= i < |s| - |r| ==> IsJsSpace(s[i])
  {
    if s != [] && IsJsSpace(s[0]) then
      var r := TrimStart(s[1..]);
      assert s[1..][|s| - 1 - |r|..] == s[|s| - |r|..];
      r
    else s
  }

  function TrimEnd(s: string): (r: string)
    ensures |r| <= |s| && r == s[..|r|]
    ensures r == [] || !IsJsSpace(r[|r| - 1])
    ensures forall i :: |r| <= i < |s| ==> IsJsSpace(s[i])
  {
    if s != [] && IsJsSpace(s[|s| - 1]) then TrimEnd(s[..|s| - 1]) else s
  }

  /** JavaScript's `trim`: the longest slice of `s` that neither starts nor ends with a space character. */
  function Trim(s: string): (r: string)
    ensures r == [] || (!IsJsSpace(r[0]) && !IsJsSpace(r[|r| - 1]))
    ensures var i := |s| - |TrimStart(s)|;
            && i + |r| <= |s| && r == s[i..i + |r|]
            && (forall k :: 0 <= k < i ==> IsJsSpace(s[k]))
            && (forall k :: i + |r| <= k < |s| ==> IsJsSpace(s[k]))
  {
    TrimEnd(TrimStart(s))
  }

  /** A string of word characters has nothing for `trim` to remove. */
  lemma TrimWord(w: string)
    requires forall i :: 0 <= i < |w| ==> IsWordChar(w[i])
    ensures Trim(w) == w
  {
  }

  /** ASCII lower-casing of one character. */
  function LowerChar(c: char): (d: char)
  {
    if 'A' <= c <= 'Z' then (c as int - 'A' as int + 'a' as int) as char else c
  }

  /** Lower-casing of a string, character by character (ASCII letters only). */
  function ToLower(s: string): (r: string)
    ensures |r| == |s|
    ensures forall i :: 0 <= i < |s| ==> r[i] == LowerChar(s[i])
  {
    seq(|s|, i requires 0 <= i < |s| => LowerChar(s[i]))
  }
}
