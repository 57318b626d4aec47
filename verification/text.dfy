/**
 String predicates the application relies on: Kotlin's `isBlank`, substring
 search ignoring case, and the `e.message ?: default` idiom for error
 messages. Case folding is that of SQLite's `LIKE`, which folds ASCII
 letters only; Kotlin's `contains(term, ignoreCase = true)` folds case across
 all of Unicode, and the model uses the ASCII folding for it as well.
 */
module Text {
  import opened Entities

  /**
   Kotlin's `Char.isWhitespace`: the control characters TAB to CR and the four
   information separators U+001C..U+001F, and every Unicode space separator,
   line separator and paragraph separator (no-break spaces included).
   */
  predicate IsWhitespace(c: char)
  {
    || '\t' <= c <= '\r'
    || '\U{1C}' <= c <= '\U{1F}'
    || c == ' ' || c == '\U{A0}' || c == '\U{1680}'
    || '\U{2000}' <= c <= '\U{200A}'
    || c == '\U{2028}' || c == '\U{2029}' || c == '\U{202F}' || c == '\U{205F}' || c == '\U{3000}'
  }

  /** True for the empty string and for strings made only of whitespace. */
  predicate IsBlank(s: string)
  {
    forall i :: 0 <= i < |s| ==> IsWhitespace(s[i])
  }

  function LowerChar(c: char): char
  {
    if 'A' <= c <= 'Z' then (c as int + 32) as char else c
  }

  function Lower(s: string): (r: string)
    ensures |r| == |s|
    ensures forall i :: 0 <= i < |s| ==> r[i] == LowerChar(s[i])
  {
    if s == [] then [] else [LowerChar(s[0])] + Lower(s[1..])
  }

  /** `needle` occurs in `hay` starting at position `i`. */
  predicate OccursAt(needle: string, hay: string, i: int)
  {
    0 <= i <= |hay| - |needle| && hay[i..i + |needle|] == needle
  }

  predicate IsSubstring(needle: string, hay: string)
  {
    exists i | 0 <= i <= |hay| :: OccursAt(needle, hay, i)
  }

  predicate ContainsIgnoreCase(hay: string, needle: string)
  {
    IsSubstring(Lower(needle), Lower(hay))
  }

  /** The empty search term matches every string, as `LIKE '%%'` does. */
  lemma EmptyTermMatchesEverything(hay: string)
    ensures ContainsIgnoreCase(hay, "")
  {
    assert OccursAt(Lower(""), Lower(hay), 0);
  }

  /** Matching ignores the case of ASCII letters in the text searched. */
  lemma ContainsIgnoresCase(hay: string, needle: string)
    ensures ContainsIgnoreCase(hay, needle) <==> ContainsIgnoreCase(Lower(hay), needle)
  {
    LowerIdempotent(hay);
  }

  lemma {:induction false} LowerIdempotent(s: string)
    ensures Lower(Lower(s)) == Lower(s)
  {
    if s != [] {
      LowerIdempotent(s[1..]);
    }
  }

  /** Kotlin's `e.message ?: default`. */
  function MessageOr(message: Option<string>, default: string): (r: string)
    ensures message.None? ==> r == default
    ensures message.Some? ==> r == message.value
  {
    match message
    case Some(m) => m
    case None => default
  }
}
