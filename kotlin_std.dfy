/**
 * The few pieces of the Kotlin standard library and runtime that the app's core
 * relies on: nullable values, a call that returns or throws, the JVM notion of a
 * whitespace character, `isBlank`, `lowercase`, a one-character `replace`, and
 * substring containment (used to state what a text embeds).
 */
module KotlinStd {

  /** A Kotlin nullable value `T?`: `None` is `null`. */
  datatype Option<+T> = None | Some(value: T)

  /**
   * The result of a Kotlin call that either returns a value or throws an
   * `Exception`; `message` is the exception's nullable `message` property.
   */
  datatype Outcome<+T> = Returned(value: T) | Threw(message: Option<string>)

  /** Kotlin's string template `"${x}"` for a nullable string: `null` renders as "null". */
  function Render(x: Option<string>): (r: string)
    ensures x.Some? ==> r == x.value
    ensures x.None? ==> r == "null"
  {
    match x
    case Some(v) => v
    case None => "null"
  }

  /**
   * Kotlin's `Char.isWhitespace()` on the JVM: `Character.isWhitespace(c) ||
   * Character.isSpaceChar(c)`, i.e. the ASCII controls TAB, LF, VT, FF, CR and
   * FS..US, every Unicode space separator (including the no-break ones), the line
   * separator U+2028 and the paragraph separator U+2029.
   */
  predicate IsWhitespace(c: char) {
    || ('\t' <= c <= '\r')
    || ('\U{1C}' <= c <= '\U{1F}')
    || c == ' ' || c == '\U{A0}' || c == '\U{1680}'
    || ('\U{2000}' <= c <= '\U{200A}')
    || c == '\U{2028}' || c == '\U{2029}' || c == '\U{202F}' || c == '\U{205F}' || c == '\U{3000}'
  }

  /** Kotlin's `CharSequence.isBlank()`: empty, or made only of whitespace. */
  predicate IsBlank(s: string) {
    forall i :: 0 <= i < |s| ==> IsWhitespace(s[i])
  }

  /** A string whose first character is not whitespace is not blank. */
  lemma NotBlankByFirst(s: string)
    requires |s| > 0 && !IsWhitespace(s[0])
    ensures !IsBlank(s)
  {
  }

  /** `t` occurs in `s` starting at index `i`. */
  predicate OccursAt(s: string, t: string, i: int) {
    0 <= i <= |s| - |t| && s[i..i + |t|] == t
  }

  /** `t` occurs in `s` as a contiguous substring (Kotlin's `s.contains(t)`). */
  ghost predicate Contains(s: string, t: string) {
    exists i :: OccursAt(s, t, i)
  }

  /** Whatever is glued around `t`, the result still contains `t`. */
  lemma {:induction false} ContainsInfix(a: string, t: string, b: string)
    ensures Contains(a + t + b, t)
  {
    var s := a + t + b;
    assert s[|a|..|a| + |t|] == t;
    assert OccursAt(s, t, |a|);
  }

  /** Containment survives further text in front. */
  lemma {:induction false} ContainsAfter(a: string, s: string, t: string)
    requires Contains(s, t)
    ensures Contains(a + s, t)
  {
    var i :| OccursAt(s, t, i);
    var w := a + s;
    assert w[|a| + i..|a| + i + |t|] == s[i..i + |t|];
    assert OccursAt(w, t, |a| + i);
  }

  /** Lower-case of one character, for the ASCII letters A-Z; every other character is kept. */
  function LowerChar(c: char): (d: char)
    ensures 'A' <= c <= 'Z' ==> 'a' <= d <= 'z' && d as int == c as int + 32
    ensures !('A' <= c <= 'Z') ==> d == c
  {
    if 'A' <= c <= 'Z' then (c as int + 32) as char else c
  }

  /** Kotlin's `String.lowercase()`, restricted to ASCII letters. */
  function Lowercase(s: string): (r: string)
    ensures |r| == |s|
    ensures forall i :: 0 <= i < |s| ==> r[i] == LowerChar(s[i])
  {
    if s == [] then [] else [LowerChar(s[0])] + Lowercase(s[1..])
  }

  /** Lower-casing leaves no upper-case ASCII letter behind and is idempotent. */
  lemma LowercaseIsLower(s: string)
    ensures forall i :: 0 <= i < |s| ==> !('A' <= Lowercase(s)[i] <= 'Z')
    ensures Lowercase(Lowercase(s)) == Lowercase(s)
  {
  }

  /**
   * Kotlin's `String.replace(from, to)` where both arguments are one-character
   * strings: every occurrence of `from` becomes `to`, everything else is kept.
   */
  function ReplaceChar(s: string, from: char, to: char): (r: string)
    ensures |r| == |s|
    ensures forall i :: 0 <= i < |s| ==> r[i] == (if s[i] == from then to else s[i])
    ensures from != to ==> from !in r
  {
    if s == [] then [] else [if s[0] == from then to else s[0]] + ReplaceChar(s[1..], from, to)
  }

  /** Replacing a character that does not occur changes nothing. */
  lemma ReplaceAbsent(s: string, from: char, to: char)
    requires from !in s
    ensures ReplaceChar(s, from, to) == s
  {
  }
}
