/** The two JavaScript string built-ins the coupon handler relies on:
    `String.prototype.trim` and `String.prototype.toLowerCase`. */
module JsText {

  /** The ECMAScript WhiteSpace and LineTerminator characters, the set `trim` strips: tab,
      line feed, vertical tab, form feed, carriage return, space, no-break space, U+1680,
      the space separators U+2000 to U+200A, the line and paragraph separators U+2028 and
      U+2029, U+202F, U+205F, U+3000 and the byte order mark U+FEFF. */
  predicate IsWhitespace(c: char) {
    var x := c as int;
    (0x09 <= x <= 0x0D) || x == 0x20 || x == 0xA0 || x == 0x1680 || (0x2000 <= x <= 0x200A) ||
    x == 0x2028 || x == 0x2029 || x == 0x202F || x == 0x205F || x == 0x3000 || x == 0xFEFF
  }

  /** Every character of `s` is whitespace (the empty string included). */
  predicate AllWhitespace(s: string) {
    forall i :: 0 <= i < |s| ==> IsWhitespace(s[i])
  }

  /** The position of the first character of `s` at or after `i` that is not whitespace,
      or `|s|` when there is none. */
  function SkipLeading(s: string, i: nat): (k: nat)
    requires i <= |s|
    ensures i <= k <= |s|
    ensures forall j :: i <= j < k ==> IsWhitespace(s[j])
    ensures k == |s| || !IsWhitespace(s[k])
    decreases |s| - i
  {
    if i < |s| && IsWhitespace(s[i]) then SkipLeading(s, i + 1) else i
  }

  /** The position just after the last character of `s` before `j` that is not whitespace,
      searching no lower than `lo`. */
  function SkipTrailing(s: string, lo: nat, j: nat): (k: nat)
    requires lo <= j <= |s|
    ensures lo <= k <= j
    ensures forall x :: k <= x < j ==> IsWhitespace(s[x])
    ensures k == lo || !IsWhitespace(s[k - 1])
    decreases j
  {
    if lo < j && IsWhitespace(s[j - 1]) then SkipTrailing(s, lo, j - 1) else j
  }

  /** Where the result of `trim` starts in its argument. */
  function TrimOffset(s: string): nat {
    SkipLeading(s, 0)
  }

  /** `s.trim()`: removes the whitespace on both sides; what is left neither starts nor ends
      with whitespace, and it is empty exactly when `s` was blank. */
  function Trim(s: string): (r: string)
    ensures r == [] || (!IsWhitespace(r[0]) && !IsWhitespace(r[|r| - 1]))
    ensures r == [] <==> AllWhitespace(s)
  {
    var a := TrimOffset(s);
    var b := SkipTrailing(s, a, |s|);
    assert a < |s| ==> !IsWhitespace(s[a]);
    s[a..b]
  }

  /** `trim` removes nothing but whitespace: its result is the infix of `s` at `TrimOffset(s)`,
      and what lies before and after that infix is whitespace. */
  lemma TrimIsInfix(s: string)
    ensures TrimOffset(s) + |Trim(s)| <= |s|
    ensures Trim(s) == s[TrimOffset(s)..TrimOffset(s) + |Trim(s)|]
    ensures AllWhitespace(s[..TrimOffset(s)]) && AllWhitespace(s[TrimOffset(s) + |Trim(s)|..])
  {
    var a := TrimOffset(s);
    var b := SkipTrailing(s, a, |s|);
    assert Trim(s) == s[a..b];
  }

  /** The ASCII part of `toLowerCase`: 'A'..'Z' map to 'a'..'z', everything else is kept. */
  function LowerChar(c: char): char {
    if 'A' <= c <= 'Z' then (c as int + 32) as char else c
  }

  /** `s.toLowerCase()`, character by character. */
  function ToLower(s: string): (r: string)
    ensures |r| == |s|
    ensures forall i :: 0 <= i < |s| ==> r[i] == LowerChar(s[i])
  {
    if s == [] then [] else [LowerChar(s[0])] + ToLower(s[1..])
  }

  /** For a character `d` that is already lower-case, `c` lowercases to `d` exactly when `c`
      is `d` or, if `d` is a letter, its upper-case form. */
  lemma LowerCharIs(c: char, d: char)
    requires LowerChar(d) == d
    ensures LowerChar(c) == d <==> c == d || ('a' <= d <= 'z' && c as int == d as int - 32)
  {
  }

  /** `s` spells `word` (all lower-case) with each letter in either case. */
  predicate SpellsIgnoringCase(s: string, word: string) {
    |s| == |word| &&
    forall i :: 0 <= i < |s| ==>
      s[i] == word[i] || ('a' <= word[i] <= 'z' && s[i] as int == word[i] as int - 32)
  }

  /** A case-insensitive comparison with a lower-case word accepts exactly the spellings that
      pick, at every position, the lower-case or the upper-case form of that position's letter. */
  lemma {:induction false} ToLowerMatches(s: string, word: string)
    requires ToLower(word) == word
    ensures ToLower(s) == word <==> SpellsIgnoringCase(s, word)
  {
    if |s| == |word| {
      forall i | 0 <= i < |s|
        ensures LowerChar(s[i]) == word[i] <==>
                  s[i] == word[i] || ('a' <= word[i] <= 'z' && s[i] as int == word[i] as int - 32)
      {
        assert LowerChar(word[i]) == ToLower(word)[i];
        LowerCharIs(s[i], word[i]);
      }
      if ToLower(s) != word {
        var k :| 0 <= k < |s| && ToLower(s)[k] != word[k];
        assert LowerChar(s[k]) != word[k];
      }
    }
  }
}
